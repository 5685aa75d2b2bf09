/** The cursor scanner of crates/core/src/framing.rs (`valid_message`), one method per
    loop, proved to accept exactly the language of `Grammar`. */
module Recogniser {
  import opened Octets
  import opened Grammar

  predicate ValidTail(x: Texts, s: seq<byte>) {
    if s == [] then true
    else if s[0] != SP then false
    else !([0xEF, 0xBB, 0xBF] <= s[1..]) || x.utf8(s[1..])
  }

  /** Index of the quote that ends a PARAM-VALUE. */
  method ScanValue(rest: seq<byte>) returns (found: bool, i: nat)
    ensures found <==> ParseValue(rest).Parsed?
    ensures found ==> i < |rest| && ParseValue(rest).rest == rest[i + 1..]
                      && PrintValue(ParseValue(rest).value) == rest[..i]
  {
    found, i := false, 0;
    ghost var whole := ParseValue(rest);
    while true
      invariant i <= |rest|
      invariant whole.Parsed? <==> ParseValue(rest[i..]).Parsed?
      invariant whole.Parsed? ==> whole.rest == ParseValue(rest[i..]).rest
      decreases |rest| - i
    {
      if i == |rest| || rest[i] == CLOSE { return; }
      if rest[i] == QUOTE { break; }
      ValueUnfold(rest[i..]);
      if rest[i] == 92 && i + 1 < |rest| && rest[i + 1] in {34, 92, 93} {
        DropDrop(rest, i, 2);
        i := i + 2;
      } else {
        DropDrop(rest, i, 1);
        i := i + 1;
      }
    }
    found := true;
    DropDrop(rest, i, 1);
    FrontOf(rest, PrintValue(whole.value), QUOTE, i);
  }

  /** One unfolding of the value parser at an octet that ends nothing. */
  lemma ValueUnfold(s: seq<byte>)
    requires s != [] && s[0] !in {CLOSE, QUOTE}
    ensures var n := if s[0] == BACKSLASH && |s| > 1 && s[1] in ESCAPABLE then 2 else 1;
            var left := ParseValue(s[n..]);
            && (ParseValue(s).Parsed? <==> left.Parsed?)
            && (left.Parsed? ==> ParseValue(s).rest == left.rest)
  {
  }

  /** The parameter loop: consumes every ` name="value"` after an SD-ID. */
  method ScanParams(x: Texts, start: seq<byte>) returns (ok: bool, rest: seq<byte>)
    ensures ok <==> ParseParams(x, start).Parsed?
    ensures ok ==> rest == ParseParams(x, start).rest && !StartsWith(rest, SP)
  {
    rest := start;
    while StartsWith(rest, SP)
      invariant ParseParams(x, start).Parsed? <==> ParseParams(x, rest).Parsed?
      invariant ParseParams(x, start).Parsed? ==> ParseParams(x, start).rest == ParseParams(x, rest).rest
      decreases |rest|
    {
      ghost var before := rest;
      rest := rest[1..];
      var equals := IndexOf(rest, {EQUALS});
      if equals.None? { return false, rest; }
      var n := equals.value;
      var named := IsSdName(rest[..n]);
      if !named || !(n + 1 < |rest| && rest[n + 1] == QUOTE) { return false, rest; }
      rest := rest[n + 2..];
      assert ParamHead(before) == Parsed(before[1..][..n], rest) by {
        assert before[1..][n + 1..][1..] == rest;
      }
      var found, i := ScanValue(rest);
      if !found || !x.utf8(rest[..i]) { return false, rest; }
      rest := rest[i + 1..];
    }
    ok := true;
  }

  /** The element loop: consumes every SD-ELEMENT and remembers the SD-IDs seen. */
  method ScanElements(x: Texts, start: seq<byte>) returns (ok: bool, rest: seq<byte>, count: nat)
    ensures ok <==> ParseElements(x, start, {}).Parsed?
    ensures ok ==> rest == ParseElements(x, start, {}).rest && count == |ParseElements(x, start, {}).value|
  {
    rest := start;
    var ids: seq<seq<byte>> := [];
    ghost var whole, used := ParseElements(x, start, {}), {};
    while StartsWith(rest, OPEN)
      invariant forall id :: id in used <==> id in ids
      invariant whole.Parsed? <==> ParseElements(x, rest, used).Parsed?
      invariant whole.Parsed? ==> whole.rest == ParseElements(x, rest, used).rest
      invariant whole.Parsed? ==> |whole.value| == |ids| + |ParseElements(x, rest, used).value|
      decreases |rest|
    {
      ghost var before := rest;
      rest := rest[1..];
      var stop := IndexOf(rest, {SP, CLOSE});
      var n := if stop.Some? then stop.value else |rest|;
      var id := rest[..n];
      var named := IsSdName(id);
      if !named {
        assert ElementHead(before).Fail?;
        return false, rest, 0;
      }
      rest := rest[n..];
      assert ElementHead(before) == Parsed(id, rest);
      if id in ids { return false, rest, 0; }
      var scanned, after := ScanParams(x, rest);
      if !scanned || !StartsWith(after, CLOSE) { return false, rest, 0; }
      ElementsUnfold(x, before, used);
      ids := ids + [id];
      used := used + {id};
      rest := after[1..];
    }
    ok, count := true, |ids|;
  }

  /** One unfolding of the element parser at an opening bracket. */
  lemma ElementsUnfold(x: Texts, s: seq<byte>, used: set<seq<byte>>)
    requires StartsWith(s, OPEN) && ElementHead(s).Parsed? && ElementHead(s).value !in used
    requires var params := ParseParams(x, ElementHead(s).rest); params.Parsed? && StartsWith(params.rest, CLOSE)
    ensures var next := ParseParams(x, ElementHead(s).rest).rest[1..];
            var r, left := ParseElements(x, s, used), ParseElements(x, next, used + {ElementHead(s).value});
            && (r.Parsed? <==> left.Parsed?)
            && (r.Parsed? ==> r.rest == left.rest && |r.value| == 1 + |left.value|)
  {
  }

  lemma PrependTwice<T>(front: seq<T>, x: T, r: Parsed<seq<T>>)
    ensures Prepend(front, Prepend([x], r)) == Prepend(front + [x], r)
    ensures Prepend([], r) == r
  {
    match r
    case Fail =>
    case Parsed(back, rest) =>
      AppendCons(front, x, back);
      assert [] + back == back;
  }

  /** The space-terminated header fields; the header has six. */
  method ScanFields(start: seq<byte>, count: nat) returns (ok: bool, fields: seq<seq<byte>>, rest: seq<byte>)
    ensures ok <==> ParseFields(start, count).Parsed?
    ensures ok ==> Parsed(fields, rest) == ParseFields(start, count)
  {
    fields, rest := [], start;
    PrependTwice([], [], ParseFields(start, count));
    for k := 0 to count
      invariant Prepend(fields, ParseFields(rest, count - k)) == ParseFields(start, count)
    {
      var space := IndexOf(rest, {SP});
      if space.None? { return false, fields, rest; }
      var field := rest[..space.value];
      rest := rest[space.value + 1..];
      PrependTwice(fields, field, ParseFields(rest, count - k - 1));
      fields := fields + [field];
    }
    ok := true;
    AppendCons(fields, [], []);
  }

  /** `<`, the priority numeral and `>`. */
  method ScanPri(m: seq<byte>) returns (ok: bool, rest: seq<byte>)
    ensures ok <==> ParsePri(m).Parsed?
    ensures ok ==> rest == ParsePri(m).rest
  {
    if !StartsWith(m, LT) { return false, m; }
    var end := IndexOf(m, {GT});
    if end.None? { return false, m; }
    var pri := m[1..end.value];
    if pri == [] || |pri| > 3 || !AllDigits(pri) || (|pri| > 1 && pri[0] == 48) { return false, m; }
    if Value(pri) > 191 { return false, m; }
    return true, m[end.value + 1..];
  }

  /** HOSTNAME, APP-NAME, PROCID and MSGID. */
  method CheckNames(fields: seq<seq<byte>>) returns (ok: bool)
    requires |fields| == 6
    ensures ok <==> forall k | 0 <= k < 4 :: NameField(fields[k + 2], WIDTHS[k])
  {
    var widths := [255, 48, 128, 32];
    for k := 0 to 4
      invariant forall j | 0 <= j < k :: NameField(fields[j + 2], WIDTHS[j])
    {
      var field, max := fields[k + 2], widths[k];
      if field == [] || |field| > max || exists j | 0 <= j < |field| :: !(33 <= field[j] <= 126) { return false; }
    }
    ok := true;
  }

  /** How many digits follow index `i`. */
  method CountDigits(s: seq<byte>, i: nat) returns (n: nat)
    requires i < |s|
    ensures i + n < |s| && forall k | i < k <= i + n :: IsDigit(s[k])
    ensures i + n + 1 < |s| ==> !IsDigit(s[i + n + 1])
  {
    n := 0;
    while i + n + 1 < |s| && IsDigit(s[i + n + 1])
      invariant i + n < |s| && forall k | i < k <= i + n :: IsDigit(s[k])
    {
      n := n + 1;
    }
  }

  /** The TIMESTAMP field: nil, or one the RFC 3339 parser and the further checks accept. */
  method CheckTimestamp(x: Texts, s: seq<byte>) returns (ok: bool)
    ensures ok <==> TimestampField(x, s)
  {
    if s == [45] { return true; }
    if !x.utf8(s) || 84 !in s { return false; }
    var zulu := s != [] && s[|s| - 1] == 90;
    if !zulu && !(|s| >= 19 && CharBoundary(s, 19) && (43 in s[19..] || 45 in s[19..])) { return false; }
    if !x.rfc3339(s) { return false; }
    var dot := IndexOf(s, {DOT});
    IndexOfFirst(s, {DOT});
    if dot.Some? {
      var n := CountDigits(s, dot.value);
      FractionLength(s, dot.value, n);
      if n > 6 { return false; }
    } else {
      assert !LongFraction(s) by { assert DOT !in s; }
    }
    ok := !(|s| >= 19 && CharBoundary(s, 17) && CharBoundary(s, 19) && s[17] == 54 && s[18] == 48);
    assert |s| >= 19 ==> s[17..19] == [s[17], s[18]];
  }

  lemma FractionLength(s: seq<byte>, i: nat, n: nat)
    requires i + n < |s| && s[i] == DOT && (forall k | 0 <= k < i :: s[k] != DOT)
    requires (forall k | i < k <= i + n :: IsDigit(s[k])) && (i + n + 1 < |s| ==> !IsDigit(s[i + n + 1]))
    ensures LongFraction(s) <==> n > 6
  {
    if n > 6 { assert DOT !in s[..i]; }
  }

  /** `sd_name`. */
  method IsSdName(s: seq<byte>) returns (ok: bool)
    ensures ok <==> SdName(s)
  {
    if s == [] || |s| > 32 { return false; }
    for k := 0 to |s|
      invariant forall j | 0 <= j < k :: Printable(s[j]) && s[j] !in {EQUALS, CLOSE, QUOTE}
    {
      if !(33 <= s[k] <= 126) || s[k] == 61 || s[k] == 93 || s[k] == 34 { return false; }
    }
    ok := true;
  }

  /** STRUCTURED-DATA and MSG. */
  method ScanBody(x: Texts, rest: seq<byte>) returns (ok: bool)
    ensures ok <==> ParseBody(x, rest).Some?
  {
    if StartsWith(rest, DASH) {
      return ValidTail(x, rest[1..]);
    }
    var scanned, tail, count := ScanElements(x, rest);
    ok := scanned && count > 0 && ValidTail(x, tail);
  }

  method ValidMessage(x: Texts, m: seq<byte>) returns (ok: bool)
    ensures ok <==> Accepts(x, m)
  {
    ParserDecides(x, m);
    var started, afterPri := ScanPri(m);
    if !started { return false; }
    var split, fields, rest := ScanFields(afterPri, 6);
    if !split || fields[0] != [49] { return false; }
    var stamped := CheckTimestamp(x, fields[1]);
    if !stamped { return false; }
    var named := CheckNames(fields);
    if !named { return false; }
    ok := ScanBody(x, rest);
  }
}
