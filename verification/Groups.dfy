/** The group decision of crates/cli/src/auth.rs: a claim is one group name, a
    comma-separated string of names, or an array of names. */
module Groups {

  /** A JSON claim value; numbers, booleans, null and objects are alike here. */
  datatype Claim = Absent | Text(text: string) | List(items: seq<Claim>) | Unsupported

  // ---------- text ----------

  /** Unicode White_Space. */
  predicate IsSpace(c: char) {
    var n := c as int;
    || 9 <= n <= 13 || n == 0x20 || n == 0x85 || n == 0xA0 || n == 0x1680
    || 0x2000 <= n <= 0x200A || n == 0x2028 || n == 0x2029 || n == 0x202F || n == 0x205F || n == 0x3000
  }

  function TrimLeft(s: string): string {
    if s != [] && IsSpace(s[0]) then TrimLeft(s[1..]) else s
  }

  function TrimRight(s: string): string {
    if s != [] && IsSpace(s[|s| - 1]) then TrimRight(s[..|s| - 1]) else s
  }

  function Trim(s: string): string {
    TrimRight(TrimLeft(s))
  }

  function Split(s: string): (parts: seq<string>)
    ensures parts != []
  {
    if s == [] then [[]]
    else if s[0] == ',' then [[]] + Split(s[1..])
    else
      var rest := Split(s[1..]);
      [[s[0]] + rest[0]] + rest[1..]
  }

  function Join(names: seq<string>): string {
    if names == [] then []
    else if |names| == 1 then names[0]
    else names[0] + [','] + Join(names[1..])
  }

  function Lower(c: char): char {
    if 'A' <= c <= 'Z' then c + 32 as char else c
  }

  predicate EqIgnoreCase(a: string, b: string) {
    |a| == |b| && forall k | 0 <= k < |a| :: Lower(a[k]) == Lower(b[k])
  }

  // ---------- the decision ----------

  /** Some nonempty comma-separated part, trimmed, is the group. */
  predicate Listed(groups: string, required: string) {
    exists k | 0 <= k < |Split(groups)| :: Trim(Split(groups)[k]) != "" && Trim(Split(groups)[k]) == required
  }

  predicate StringHasGroup(groups: string, required: string) {
    if required == "" then false
    else if ',' in groups then Listed(groups, required)
    else groups == required
  }

  predicate HasGroup(value: Claim, required: string) {
    match value
    case Text(group) => StringHasGroup(group, required)
    case List(items) =>
      && (forall k | 0 <= k < |items| :: items[k].Text?)
      && Text(required) in items
    case _ => false
  }

  /** The diagnostic messages, as cases. */
  datatype Finding =
    | ClaimAbsent | MatchedCommaSeparated | MatchedString | CommaCaseDiffers | NotInCommaSeparated
    | StringCaseDiffers | StringDiffers | NonStringItems | EmptyArray | MatchedMember | MemberCaseDiffers
    | NotInArray | UnsupportedType

  function GroupCheck(value: Claim, required: string): Finding {
    match value
    case Absent => ClaimAbsent
    case Text(group) =>
      if ',' in group && StringHasGroup(group, required) then MatchedCommaSeparated
      else if group == required then MatchedString
      else if ',' in group then
        if exists k | 0 <= k < |Split(group)| ::
             Trim(Split(group)[k]) != "" && EqIgnoreCase(Trim(Split(group)[k]), required)
        then CommaCaseDiffers else NotInCommaSeparated
      else if EqIgnoreCase(group, required) then StringCaseDiffers
      else StringDiffers
    case List(items) =>
      if exists k | 0 <= k < |items| :: !items[k].Text? then NonStringItems
      else if items == [] then EmptyArray
      else if Text(required) in items then MatchedMember
      else if exists k | 0 <= k < |items| :: items[k].Text? && EqIgnoreCase(items[k].text, required) then MemberCaseDiffers
      else NotInArray
    case Unsupported => UnsupportedType
  }

  predicate Matched(f: Finding) {
    f.MatchedCommaSeparated? || f.MatchedString? || f.MatchedMember?
  }

  // ---------- trimming ----------

  /** No white space at either end. */
  predicate Tight(s: string) {
    s == "" || (!IsSpace(s[0]) && !IsSpace(s[|s| - 1]))
  }

  /** Only white space before `i` and from `j` on, and a tight slice between them. */
  ghost predicate Core(s: string, i: nat, j: nat) {
    && i <= j <= |s|
    && (forall k | 0 <= k < i || j <= k < |s| :: IsSpace(s[k]))
    && Tight(s[i..j])
  }

  lemma {:induction false} TrimLeftIsTail(s: string) returns (i: nat)
    ensures i <= |s| && TrimLeft(s) == s[i..] && forall k | 0 <= k < i :: IsSpace(s[k])
    ensures i < |s| ==> !IsSpace(s[i])
  {
    if s != [] && IsSpace(s[0]) {
      var n := TrimLeftIsTail(s[1..]);
      i := n + 1;
      forall k | 0 <= k < i ensures IsSpace(s[k]) {
        if k > 0 { assert s[k] == s[1..][k - 1]; }
      }
    } else {
      i := 0;
    }
  }

  lemma {:induction false} TrimRightIsHead(s: string) returns (j: nat)
    ensures j <= |s| && TrimRight(s) == s[..j] && forall k | j <= k < |s| :: IsSpace(s[k])
    ensures j > 0 ==> !IsSpace(s[j - 1])
    decreases |s|
  {
    if s != [] && IsSpace(s[|s| - 1]) {
      var front := s[..|s| - 1];
      j := TrimRightIsHead(front);
      forall k | j <= k < |s| ensures IsSpace(s[k]) {
        if k < |s| - 1 { assert s[k] == front[k]; }
      }
    } else {
      j := |s|;
    }
  }

  lemma TrimIsACore(s: string) returns (i: nat, j: nat)
    ensures Core(s, i, j) && Trim(s) == s[i..j]
  {
    i := TrimLeftIsTail(s);
    var n := TrimRightIsHead(s[i..]);
    j := i + n;
    assert s[i..][..n] == s[i..j];
    forall k | j <= k < |s| ensures IsSpace(s[k]) {
      assert s[k] == s[i..][k - i];
    }
    if n > 0 {
      assert s[i..j][0] == s[i] && s[i..j][n - 1] == s[j - 1] == s[i..][n - 1];
    }
  }

  /** Trimming yields the slice between the outer white space, and only that slice. */
  lemma TrimIsTheCore(s: string, i: nat, j: nat)
    requires i <= j <= |s|
    ensures Core(s, i, j) ==> Trim(s) == s[i..j]
    ensures exists a: nat, b: nat :: Core(s, a, b) && Trim(s) == s[a..b]
  {
    var a, b := TrimIsACore(s);
    if Core(s, i, j) {
      if i < j {
        assert s[i..j][0] == s[i] && s[i..j][j - i - 1] == s[j - 1];
        if a < b { assert s[a..b][0] == s[a] && s[a..b][b - a - 1] == s[b - 1]; }
        assert a == i && b == j;
      }
    }
  }

  lemma TightIsTrimmed(s: string)
    ensures Tight(s) <==> Trim(s) == s
  {
    TrimIsTheCore(s, 0, |s|);
    assert s[0..|s|] == s;
  }

  // ---------- splitting ----------

  lemma {:induction false} SplitPlain(name: string)
    requires ',' !in name
    ensures Split(name) == [name]
  {
    if name != [] {
      SplitPlain(name[1..]);
      assert [name[0]] + name[1..] == name;
    }
  }

  lemma {:induction false} SplitFirst(name: string, rest: string)
    requires ',' !in name
    ensures Split(name + [','] + rest) == [name] + Split(rest)
  {
    var s := name + [','] + rest;
    if name == [] {
      assert s[1..] == rest;
    } else {
      SplitFirst(name[1..], rest);
      assert s[1..] == name[1..] + [','] + rest;
      assert [name[0]] + name[1..] == name;
      assert ([name[1..]] + Split(rest))[1..] == Split(rest);
    }
  }

  lemma {:induction false} SplitJoin(names: seq<string>)
    requires names != [] && forall k | 0 <= k < |names| :: ',' !in names[k]
    ensures Split(Join(names)) == names
    ensures |names| > 1 ==> ',' in Join(names)
  {
    if |names| == 1 {
      SplitPlain(names[0]);
    } else {
      SplitJoin(names[1..]);
      SplitFirst(names[0], Join(names[1..]));
      assert names == [names[0]] + names[1..];
      assert Join(names)[|names[0]|] == ',';
    }
  }

  /** Parts never hold a comma, and trimming adds none. */
  lemma {:induction false} SplitPartsPlain(s: string)
    ensures forall k | 0 <= k < |Split(s)| :: ',' !in Split(s)[k]
  {
    if s != [] {
      SplitPartsPlain(s[1..]);
      var rest := Split(s[1..]);
      forall k | 0 <= k < |Split(s)| ensures ',' !in Split(s)[k] {
        if s[0] == ',' {
          if k > 0 { assert Split(s)[k] == rest[k - 1]; }
        } else {
          if k > 0 { assert Split(s)[k] == rest[k]; }
        }
      }
    }
  }

  lemma {:induction false} TrimKeeps(s: string)
    ensures forall c | c in TrimLeft(s) :: c in s
    ensures forall c | c in TrimRight(s) :: c in s
    decreases |s|
  {
    if s != [] {
      TrimKeeps(s[1..]);
      TrimKeeps(s[..|s| - 1]);
    }
  }

  lemma PartsTrimPlain(s: string)
    ensures forall k | 0 <= k < |Split(s)| :: ',' !in Trim(Split(s)[k])
  {
    SplitPartsPlain(s);
    forall k | 0 <= k < |Split(s)| ensures ',' !in Trim(Split(s)[k]) {
      TrimKeeps(Split(s)[k]);
      TrimKeeps(TrimLeft(Split(s)[k]));
    }
  }

  // ---------- the two encodings of a group list agree ----------

  function Names(names: seq<string>): seq<Claim> {
    seq(|names|, k requires 0 <= k < |names| => Text(names[k]))
  }

  lemma MemberOfNames(names: seq<string>, required: string)
    ensures HasGroup(List(Names(names)), required) <==> required in names
  {
    if required in names {
      var k :| 0 <= k < |names| && names[k] == required;
      assert Names(names)[k] == Text(required);
    }
  }

  /** A list of comma-free, trimmed names and the same list joined by commas decide alike
      for every nonempty group. */
  lemma JoinedDecidesAsArray(names: seq<string>, required: string)
    requires required != "" && PlainNames(names)
    ensures HasGroup(Text(Join(names)), required) <==> HasGroup(List(Names(names)), required)
  {
    MemberOfNames(names, required);
    forall k | 0 <= k < |names| ensures Trim(names[k]) == names[k] { TightIsTrimmed(names[k]); }
    if names != [] {
      SplitJoin(names);
      if |names| > 1 && required in names {
        var k :| 0 <= k < |names| && names[k] == required;
        assert Split(Join(names))[k] == required;
      }
    }
  }

  predicate PlainNames(names: seq<string>) {
    forall k | 0 <= k < |names| :: ',' !in names[k] && Tight(names[k])
  }

  /** Both encodings of a plain list agree exactly for nonempty groups: an empty required
      group is found in an array that holds the empty name, never in a string. */
  lemma JoinedDecidesExactly(required: string)
    ensures (forall names | PlainNames(names) :: HasGroup(Text(Join(names)), required) <==> HasGroup(List(Names(names)), required))
       <==> required != ""
  {
    if required != "" {
      forall names | PlainNames(names)
        ensures HasGroup(Text(Join(names)), required) <==> HasGroup(List(Names(names)), required)
      {
        JoinedDecidesAsArray(names, required);
      }
    } else {
      assert PlainNames([""]);
      MemberOfNames([""], "");
      assert "" in [""];
    }
  }

  // ---------- the diagnostic agrees with the decision ----------

  lemma CheckAgreesOn(value: Claim, required: string)
    requires required != "" && ',' !in required
    ensures Matched(GroupCheck(value, required)) <==> HasGroup(value, required)
  {
  }

  lemma CheckDisagrees(required: string)
    requires required == "" || ',' in required
    ensures Matched(GroupCheck(Text(required), required)) && !HasGroup(Text(required), required)
  {
    PartsTrimPlain(required);
  }

  /** The diagnostic reports a match exactly when access is granted, for every claim, if
      and only if the required group is nonempty and comma-free; otherwise the claim that
      equals the required group verbatim is reported as matched and refused. */
  lemma CheckAgreesExactly(required: string)
    ensures (forall value :: Matched(GroupCheck(value, required)) <==> HasGroup(value, required))
       <==> required != "" && ',' !in required
  {
    if required != "" && ',' !in required {
      forall value ensures Matched(GroupCheck(value, required)) <==> HasGroup(value, required) {
        CheckAgreesOn(value, required);
      }
    } else {
      CheckDisagrees(required);
    }
  }

  /** The names a claim offers: the trimmed nonempty parts of a comma list, a text without
      a comma itself, or the members of an array of texts. */
  ghost predicate Offers(value: Claim, name: string) {
    match value
    case Text(group) =>
      if ',' in group then name != "" && exists k | 0 <= k < |Split(group)| :: Trim(Split(group)[k]) == name
      else name == group
    case List(items) => (forall k | 0 <= k < |items| :: items[k].Text?) && Text(name) in items
    case _ => false
  }

  /** Access is granted exactly for an offered name, and a mere difference in letter case
      is reported exactly when no offered name is the group but some is up to case. */
  lemma OfferDecides(value: Claim, required: string)
    requires required != "" && ',' !in required
    ensures HasGroup(value, required) <==> Offers(value, required)
    ensures GroupCheck(value, required) in {CommaCaseDiffers, StringCaseDiffers, MemberCaseDiffers}
       <==> !Offers(value, required) && exists name :: Offers(value, name) && EqIgnoreCase(name, required)
  {
    match value
    case Text(group) =>
      if ',' in group {
        if k :| 0 <= k < |Split(group)| && Trim(Split(group)[k]) != "" && EqIgnoreCase(Trim(Split(group)[k]), required) {
          assert Offers(value, Trim(Split(group)[k]));
        }
      } else {
        assert Offers(value, group);
      }
    case List(items) =>
      if k :| 0 <= k < |items| && items[k].Text? && EqIgnoreCase(items[k].text, required) {
        assert Text(items[k].text) in items;
      }
      if (forall k | 0 <= k < |items| :: items[k].Text?) && exists name :: Text(name) in items && EqIgnoreCase(name, required) {
        var name :| Text(name) in items && EqIgnoreCase(name, required);
        var k :| 0 <= k < |items| && items[k] == Text(name);
      }
    case _ =>
  }

  // ---------- only whole names match ----------

  /** `s[i..j]` is a whole comma-delimited part of `s`. */
  predicate Delimited(s: string, i: nat, j: nat) {
    && i <= j <= |s|
    && (i == 0 || s[i - 1] == ',') && (j == |s| || s[j] == ',')
    && ',' !in s[i..j]
  }

  lemma SliceOfTail(s: string, i: nat, j: nat)
    requires i <= j < |s|
    ensures s[i + 1..j + 1] == s[1..][i..j]
  {
    var x, y := s[i + 1..j + 1], s[1..][i..j];
    assert |x| == |y| && forall k | 0 <= k < |x| :: x[k] == y[k];
  }

  lemma {:induction false} LaterPartStartsLater(s: string, k: nat)
    requires 0 < k < |Split(s)|
    ensures exists i: nat, j: nat :: 0 < i && Delimited(s, i, j) && s[i..j] == Split(s)[k]
    decreases |s|, 1
  {
    if s[0] == ',' {
      PartIsDelimited(s[1..], k - 1);
      var i: nat, j: nat :| Delimited(s[1..], i, j) && s[1..][i..j] == Split(s[1..])[k - 1];
      SliceOfTail(s, i, j);
      assert Delimited(s, i + 1, j + 1);
    } else {
      LaterPartStartsLater(s[1..], k);
      var i: nat, j: nat :| 0 < i && Delimited(s[1..], i, j) && s[1..][i..j] == Split(s[1..])[k];
      SliceOfTail(s, i, j);
      assert Split(s)[k] == Split(s[1..])[k];
      assert Delimited(s, i + 1, j + 1);
    }
  }

  lemma {:induction false} PartIsDelimited(s: string, k: nat)
    requires k < |Split(s)|
    ensures exists i: nat, j: nat :: Delimited(s, i, j) && s[i..j] == Split(s)[k]
    decreases |s|, 2
  {
    if k > 0 {
      LaterPartStartsLater(s, k);
    } else {
      FirstPart(s);
      var j: nat :| Delimited(s, 0, j) && s[0..j] == Split(s)[0];
    }
  }

  lemma {:induction false} FirstPart(s: string)
    ensures exists j: nat :: Delimited(s, 0, j) && s[0..j] == Split(s)[0]
  {
    if s == [] || s[0] == ',' {
      assert Delimited(s, 0, 0) && s[0..0] == Split(s)[0];
    } else {
      FirstPart(s[1..]);
      var j: nat :| Delimited(s[1..], 0, j) && s[1..][0..j] == Split(s[1..])[0];
      assert s[0..j + 1] == [s[0]] + s[1..][0..j];
      assert Delimited(s, 0, j + 1);
    }
  }

  lemma {:induction false} DelimitedIsPart(s: string, i: nat, j: nat)
    requires Delimited(s, i, j)
    ensures i == 0 ==> Split(s)[0] == s[i..j]
    ensures i > 0 ==> exists k :: 0 < k < |Split(s)| && Split(s)[k] == s[i..j]
    decreases |s|
  {
    if i == 0 {
      if j > 0 {
        assert s[0..j][0] == s[0] && s[0..j][1..] == s[1..][0..j - 1];
        DelimitedIsPart(s[1..], 0, j - 1);
        assert s[0..j] == [s[0]] + s[1..][0..j - 1];
      }
    } else {
      SliceOfTail(s, i - 1, j - 1);
      DelimitedIsPart(s[1..], i - 1, j - 1);
      var rest := Split(s[1..]);
      if s[0] == ',' {
        var k :| 0 <= k < |rest| && rest[k] == s[i..j];
        assert Split(s)[k + 1] == s[i..j];
      } else {
        var k :| 0 < k < |rest| && rest[k] == s[i..j];
        assert Split(s)[k] == s[i..j];
      }
    }
  }

  /** `required` stands in `groups` as a whole delimited part, but for white space. */
  ghost predicate Stands(groups: string, required: string, i: nat, a: nat, b: nat, j: nat) {
    && Delimited(groups, i, j)
    && i <= a <= b <= j && groups[a..b] == required
    && (forall k | i <= k < a || b <= k < j :: IsSpace(groups[k]))
  }

  lemma SliceOfSlice(s: string, i: nat, j: nat, a: nat, b: nat)
    requires i <= j <= |s| && a <= b <= j - i
    ensures s[i..j][a..b] == s[i + a..i + b]
    ensures forall k | 0 <= k < j - i :: s[i..j][k] == s[i + k]
  {
    var x, y := s[i..j][a..b], s[i + a..i + b];
    assert |x| == |y| && forall k | 0 <= k < |x| :: x[k] == y[k];
  }

  lemma StandsIsTrimmed(groups: string, required: string, i: nat, a: nat, b: nat, j: nat)
    requires Stands(groups, required, i, a, b, j) && Tight(required) && required != ""
    ensures Trim(groups[i..j]) == required
  {
    var part := groups[i..j];
    SliceOfSlice(groups, i, j, a - i, b - i);
    assert required[0] == groups[a] && required[|required| - 1] == groups[b - 1];
    TrimIsTheCore(part, a - i, b - i);
  }

  /** A string that holds a comma grants a nonempty group exactly when that group has no
      outer white space and one of the comma-delimited parts is the group surrounded by
      white space only: never a fragment of a name. */
  lemma OnlyWholeNamesMatch(groups: string, required: string)
    requires ',' in groups && required != ""
    ensures HasGroup(Text(groups), required)
       <==> Tight(required) && exists i: nat, a: nat, b: nat, j: nat :: Stands(groups, required, i, a, b, j)
  {
    if HasGroup(Text(groups), required) {
      var k :| 0 <= k < |Split(groups)| && Trim(Split(groups)[k]) == required;
      PartIsDelimited(groups, k);
      var i: nat, j: nat :| Delimited(groups, i, j) && groups[i..j] == Split(groups)[k];
      var a, b := TrimIsACore(groups[i..j]);
      SliceOfSlice(groups, i, j, a, b);
      assert forall k | i <= k < i + a || i + b <= k < j :: groups[k] == groups[i..j][k - i];
      assert Stands(groups, required, i, i + a, i + b, j);
    }
    if exists i: nat, a: nat, b: nat, j: nat :: Tight(required) && Stands(groups, required, i, a, b, j) {
      var i: nat, a: nat, b: nat, j: nat :| Stands(groups, required, i, a, b, j);
      StandsIsTrimmed(groups, required, i, a, b, j);
      DelimitedIsPart(groups, i, j);
    }
  }
}
