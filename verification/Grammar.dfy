/** The message grammar the recogniser implements (section 6 of RFC 5424), three ways:
    well-formed trees, their printed form, and a functional parser. The parser is
    proved to be the exact inverse of printing; `Recogniser` proves the cursor scanner
    of crates/core/src/framing.rs equal to it. */
module Grammar {
  import opened Octets

  /** The two library predicates the recogniser calls: UTF-8 validity of an octet
      string, and acceptance of a timestamp text by the RFC 3339 parser. */
  datatype Texts = Texts(utf8: seq<byte> -> bool, rfc3339: seq<byte> -> bool)

  // ---------- trees ----------

  /** A PARAM-VALUE as written. A backslash that escapes nothing is an ordinary octet
      (section 6.3.3 of RFC 5424). */
  datatype Atom = Plain(octet: byte) | Escape(octet: byte) | Slash

  datatype Param = Param(name: seq<byte>, value: seq<Atom>)
  datatype Element = Element(id: seq<byte>, params: seq<Param>)
  datatype StructuredData = NilData | Elements(elements: seq<Element>)

  datatype Header = Header(pri: nat, timestamp: seq<byte>, names: seq<seq<byte>>)
  datatype Message = Message(header: Header, data: StructuredData, msg: Option<seq<byte>>)

  const ESCAPABLE: set<byte> := {QUOTE, BACKSLASH, CLOSE}
  const BOM: seq<byte> := [0xEF, 0xBB, 0xBF]
  /** Width limits of HOSTNAME, APP-NAME, PROCID and MSGID. */
  const WIDTHS: seq<nat> := [255, 48, 128, 32]

  predicate Printable(b: byte) { 33 <= b <= 126 }

  predicate NameField(s: seq<byte>, max: nat) {
    s != [] && |s| <= max && forall k | 0 <= k < |s| :: Printable(s[k])
  }

  /** SD-NAME: 1 to 32 printable octets other than `=`, `]` and the quote. */
  predicate SdName(s: seq<byte>) {
    && s != [] && |s| <= 32
    && forall k | 0 <= k < |s| :: Printable(s[k]) && s[k] !in {EQUALS, CLOSE, QUOTE}
  }

  /** Whether text index `i` splits no multi-octet character. */
  predicate CharBoundary(s: seq<byte>, i: nat) {
    i == 0 || i == |s| || (i < |s| && !(0x80 <= s[i] < 0xC0))
  }

  /** Seven digits or more right after the first dot. */
  predicate LongFraction(s: seq<byte>) {
    exists i | 0 <= i < |s| - 7 :: s[i] == DOT && DOT !in s[..i] && forall k | i < k <= i + 7 :: IsDigit(s[k])
  }

  /** TIMESTAMP other than the nil value: an RFC 3339 text with `T`, an offset after the
      seconds, at most six fraction digits, and no leap second. */
  predicate Stamp(x: Texts, s: seq<byte>) {
    && x.utf8(s)
    && 84 in s
    && ((s != [] && s[|s| - 1] == 90)
        || (|s| >= 19 && CharBoundary(s, 19) && (43 in s[19..] || 45 in s[19..])))
    && x.rfc3339(s)
    && !LongFraction(s)
    && !(|s| >= 19 && CharBoundary(s, 17) && CharBoundary(s, 19) && s[17..19] == [54, 48])
  }

  predicate TimestampField(x: Texts, s: seq<byte>) {
    s == [DASH] || Stamp(x, s)
  }

  predicate WellFormedValue(v: seq<Atom>) {
    v == [] ||
    (WellFormedValue(v[1..]) &&
     match v[0]
     case Plain(b) => b !in ESCAPABLE
     case Escape(b) => b in ESCAPABLE
     case Slash => |v| > 1 && v[1].Plain?)
  }

  predicate WellFormedParam(x: Texts, p: Param) {
    SdName(p.name) && WellFormedValue(p.value) && x.utf8(PrintValue(p.value))
  }

  predicate WellFormedElement(x: Texts, e: Element) {
    SdName(e.id) && forall k | 0 <= k < |e.params| :: WellFormedParam(x, e.params[k])
  }

  /** Every element well formed and no SD-ID twice, nor one of `used` (section 6.3.2). */
  predicate WellFormedElements(x: Texts, es: seq<Element>, used: set<seq<byte>>) {
    && (forall k | 0 <= k < |es| :: WellFormedElement(x, es[k]) && es[k].id !in used)
    && (forall j, k | 0 <= j < k < |es| :: es[j].id != es[k].id)
  }

  predicate WellFormedHeader(x: Texts, h: Header) {
    && h.pri <= 191
    && TimestampField(x, h.timestamp) && SP !in h.timestamp
    && |h.names| == 4
    && forall k | 0 <= k < 4 :: NameField(h.names[k], WIDTHS[k])
  }

  predicate WellFormedMsg(x: Texts, msg: Option<seq<byte>>) {
    msg.Some? && BOM <= msg.value ==> x.utf8(msg.value)
  }

  predicate WellFormed(x: Texts, m: Message) {
    && WellFormedHeader(x, m.header)
    && WellFormedData(x, m.data)
    && WellFormedMsg(x, m.msg)
  }

  // ---------- printing ----------

  function PrintAtom(a: Atom): seq<byte> {
    match a
    case Plain(b) => [b]
    case Escape(b) => [BACKSLASH, b]
    case Slash => [BACKSLASH]
  }

  function PrintValue(v: seq<Atom>): seq<byte> {
    if v == [] then [] else PrintAtom(v[0]) + PrintValue(v[1..])
  }

  function ParamText(name: seq<byte>, value: seq<byte>): seq<byte> {
    [SP] + name + [EQUALS, QUOTE] + value + [QUOTE]
  }

  function PrintParams(ps: seq<Param>): seq<byte> {
    if ps == [] then []
    else ParamText(ps[0].name, PrintValue(ps[0].value)) + PrintParams(ps[1..])
  }

  function ElementText(id: seq<byte>, params: seq<byte>): seq<byte> {
    [OPEN] + id + params + [CLOSE]
  }

  function PrintElements(es: seq<Element>): seq<byte> {
    if es == [] then []
    else ElementText(es[0].id, PrintParams(es[0].params)) + PrintElements(es[1..])
  }

  function PrintData(d: StructuredData): seq<byte> {
    match d
    case NilData => [DASH]
    case Elements(es) => PrintElements(es)
  }

  function PrintFields(fields: seq<seq<byte>>): seq<byte> {
    if fields == [] then [] else fields[0] + [SP] + PrintFields(fields[1..])
  }

  function FieldsOf(h: Header): seq<seq<byte>> {
    [[49], h.timestamp] + h.names
  }

  function PrintMsg(msg: Option<seq<byte>>): seq<byte> {
    match msg
    case None => []
    case Some(text) => [SP] + text
  }

  function Print(m: Message): seq<byte> {
    [LT] + Digits(m.header.pri) + [GT] + PrintFields(FieldsOf(m.header)) + PrintData(m.data) + PrintMsg(m.msg)
  }

  // ---------- parsing ----------

  /** A parsed value and the octets after it. */
  datatype Parsed<+T> = Fail | Parsed(value: T, rest: seq<byte>)

  /** PARAM-VALUE and its closing quote. */
  function ParseValue(s: seq<byte>): (r: Parsed<seq<Atom>>)
    ensures r.Parsed? ==> WellFormedValue(r.value) && s == PrintValue(r.value) + [QUOTE] + r.rest
  {
    if s == [] || s[0] == CLOSE then Fail
    else if s[0] == QUOTE then Parsed([], s[1..])
    else
      var (atom, tail) :=
        if s[0] == BACKSLASH && |s| > 1 && s[1] in ESCAPABLE then (Escape(s[1]), s[2..])
        else if s[0] == BACKSLASH then (Slash, s[1..])
        else (Plain(s[0]), s[1..]);
      match ParseValue(tail)
      case Fail => Fail
      case Parsed(atoms, rest) =>
        AtomBefore(s, atom, tail, atoms, rest);
        Parsed([atom] + atoms, rest)
  }

  lemma AtomBefore(s: seq<byte>, atom: Atom, tail: seq<byte>, atoms: seq<Atom>, rest: seq<byte>)
    requires WellFormedValue(atoms) && tail == PrintValue(atoms) + [QUOTE] + rest
    requires s == PrintAtom(atom) + tail
    requires match atom
             case Plain(b) => b !in ESCAPABLE
             case Escape(b) => b in ESCAPABLE
             case Slash => tail[0] !in ESCAPABLE
    ensures WellFormedValue([atom] + atoms) && s == PrintValue([atom] + atoms) + [QUOTE] + rest
  {
    var v := [atom] + atoms;
    assert v[1..] == atoms && v[0] == atom;
    assert PrintValue(v) == PrintAtom(atom) + PrintValue(atoms);
    if atom.Slash? {
      if atoms != [] {
        assert tail[0] == PrintAtom(atoms[0])[0];
        assert v[1] == atoms[0];
      }
    }
  }

  lemma SplitAt(s: seq<byte>, n: nat)
    requires n < |s|
    ensures s == s[..n] + [s[n]] + s[n + 1..]
  {
  }

  /** Space, PARAM-NAME, equals sign and opening quote. */
  function ParamHead(s: seq<byte>): (r: Parsed<seq<byte>>)
    requires StartsWith(s, SP)
    ensures r.Parsed? ==> SdName(r.value) && s == [SP] + (r.value + [EQUALS] + ([QUOTE] + r.rest))
  {
    match IndexOf(s[1..], {EQUALS})
    case None => Fail
    case Some(n) =>
      SplitAt(s[1..], n);
      var name, after := s[1..][..n], s[1..][n + 1..];
      if !SdName(name) || !StartsWith(after, QUOTE) then Fail
      else
        assert after == [QUOTE] + after[1..];
        Parsed(name, after[1..])
  }

  function ParseParams(x: Texts, s: seq<byte>): (r: Parsed<seq<Param>>)
    ensures r.Parsed? ==> |r.rest| <= |s|
    decreases |s|
  {
    if !StartsWith(s, SP) then Parsed([], s)
    else match ParamHead(s)
      case Fail => Fail
      case Parsed(name, quoted) =>
        match ParseValue(quoted)
        case Fail => Fail
        case Parsed(atoms, rest) =>
          if !x.utf8(PrintValue(atoms)) then Fail
          else match ParseParams(x, rest)
            case Fail => Fail
            case Parsed(params, end) => Parsed([Param(name, atoms)] + params, end)
  }

  /** Opening bracket and SD-ID, which ends at the first space or closing bracket. */
  function ElementHead(s: seq<byte>): (r: Parsed<seq<byte>>)
    requires StartsWith(s, OPEN)
    ensures r.Parsed? ==> SdName(r.value) && s == [OPEN] + (r.value + r.rest)
  {
    var n := match IndexOf(s[1..], {SP, CLOSE}) case Some(n) => n case None => |s| - 1;
    var id := s[1..][..n];
    if !SdName(id) then Fail else Parsed(id, s[1..][n..])
  }

  function ParseElements(x: Texts, s: seq<byte>, used: set<seq<byte>>): (r: Parsed<seq<Element>>)
    ensures r.Parsed? ==> |r.rest| <= |s|
    decreases |s|
  {
    if !StartsWith(s, OPEN) then Parsed([], s)
    else match ElementHead(s)
      case Fail => Fail
      case Parsed(id, after) =>
        if id in used then Fail
        else match ParseParams(x, after)
          case Fail => Fail
          case Parsed(params, rest) =>
            if !StartsWith(rest, CLOSE) then Fail
            else match ParseElements(x, rest[1..], used + {id})
              case Fail => Fail
              case Parsed(elements, end) => Parsed([Element(id, params)] + elements, end)
  }

  function ParseMsg(x: Texts, s: seq<byte>): Option<Option<seq<byte>>> {
    if s == [] then Some(None)
    else if s[0] != SP then None
    else if BOM <= s[1..] && !x.utf8(s[1..]) then None
    else Some(Some(s[1..]))
  }

  /** STRUCTURED-DATA and MSG: everything after the header. */
  function ParseBody(x: Texts, s: seq<byte>): Option<(StructuredData, Option<seq<byte>>)> {
    if StartsWith(s, DASH) then
      match ParseMsg(x, s[1..]) case None => None case Some(msg) => Some((NilData, msg))
    else
      match ParseElements(x, s, {})
      case Fail => None
      case Parsed(elements, rest) =>
        if elements == [] then None
        else match ParseMsg(x, rest)
          case None => None
          case Some(msg) => Some((Elements(elements), msg))
  }

  function ParsePri(m: seq<byte>): Parsed<nat> {
    if !StartsWith(m, LT) then Fail
    else match IndexOf(m, {GT})
      case None => Fail
      case Some(end) =>
        var pri := m[1..end];
        if pri == [] || |pri| > 3 || !AllDigits(pri) || (|pri| > 1 && pri[0] == 48) || Value(pri) > 191 then Fail
        else Parsed(Value(pri), m[end + 1..])
  }

  function Prepend<T>(front: seq<T>, r: Parsed<seq<T>>): Parsed<seq<T>> {
    match r
    case Fail => Fail
    case Parsed(back, rest) => Parsed(front + back, rest)
  }

  /** The first `k` fields, each ended by one space. */
  function ParseFields(s: seq<byte>, k: nat): (r: Parsed<seq<seq<byte>>>)
    ensures r.Parsed? ==> |r.value| == k
  {
    if k == 0 then Parsed([], s)
    else match IndexOf(s, {SP})
      case None => Fail
      case Some(n) => Prepend([s[..n]], ParseFields(s[n + 1..], k - 1))
  }

  predicate FieldsOk(x: Texts, fields: seq<seq<byte>>)
    requires |fields| == 6
  {
    && fields[0] == [49]
    && TimestampField(x, fields[1])
    && forall k | 0 <= k < 4 :: NameField(fields[k + 2], WIDTHS[k])
  }

  function Parse(x: Texts, m: seq<byte>): Option<Message> {
    match ParsePri(m)
    case Fail => None
    case Parsed(pri, afterPri) =>
      match ParseFields(afterPri, 6)
      case Fail => None
      case Parsed(fields, body) =>
        if !FieldsOk(x, fields) then None
        else match ParseBody(x, body)
          case None => None
          case Some((data, msg)) => Some(Message(Header(pri, fields[1], fields[2..]), data, msg))
  }

  // ---------- layout of one parameter and one element ----------

  lemma ParamLayout(name: seq<byte>, value: seq<byte>, rest: seq<byte>)
    ensures ParamText(name, value) + rest == [SP] + (name + [EQUALS] + ([QUOTE] + (value + [QUOTE] + rest)))
  {
    var quoted := value + [QUOTE] + rest;
    assert [EQUALS, QUOTE] == [EQUALS] + [QUOTE];
    calc {
      ParamText(name, value) + rest;
      [SP] + name + [EQUALS, QUOTE] + (value + [QUOTE] + rest);
      [SP] + (name + [EQUALS] + ([QUOTE] + quoted));
    }
  }

  lemma ElementLayout(id: seq<byte>, params: seq<byte>, rest: seq<byte>)
    ensures ElementText(id, params) + rest == [OPEN] + (id + (params + ([CLOSE] + rest)))
  {
  }

  // ---------- what the parser returns is well formed and prints back ----------

  lemma ParamsCons(p: Param, ps: seq<Param>, rest: seq<byte>)
    ensures [SP] + (p.name + [EQUALS] + ([QUOTE] + (PrintValue(p.value) + [QUOTE] + (PrintParams(ps) + rest))))
         == PrintParams([p] + ps) + rest
  {
    var value := PrintValue(p.value);
    ParamLayout(p.name, value, PrintParams(ps) + rest);
    assert ([p] + ps)[1..] == ps;
    assert PrintParams([p] + ps) == ParamText(p.name, value) + PrintParams(ps);
  }

  lemma ElementsCons(e: Element, es: seq<Element>, rest: seq<byte>)
    ensures [OPEN] + (e.id + (PrintParams(e.params) + ([CLOSE] + (PrintElements(es) + rest))))
         == PrintElements([e] + es) + rest
  {
    ElementLayout(e.id, PrintParams(e.params), PrintElements(es) + rest);
    assert ([e] + es)[1..] == es;
    assert PrintElements([e] + es) == ElementText(e.id, PrintParams(e.params)) + PrintElements(es);
  }

  lemma DistinctCons(x: Texts, e: Element, es: seq<Element>, used: set<seq<byte>>)
    requires WellFormedElement(x, e) && e.id !in used && WellFormedElements(x, es, used + {e.id})
    ensures WellFormedElements(x, [e] + es, used)
  {
    var all := [e] + es;
    assert forall k | 0 < k < |all| :: all[k] == es[k - 1];
  }

  lemma {:induction false} ParamsSound(x: Texts, s: seq<byte>)
    ensures var r := ParseParams(x, s);
            r.Parsed? ==>
              && s == PrintParams(r.value) + r.rest
              && !StartsWith(r.rest, SP)
              && forall k | 0 <= k < |r.value| :: WellFormedParam(x, r.value[k])
    decreases |s|
  {
    var r := ParseParams(x, s);
    if r.Parsed? && StartsWith(s, SP) {
      var head := ParamHead(s);
      var v := ParseValue(head.rest);
      ParamsSound(x, v.rest);
      var p, more := Param(head.value, v.value), ParseParams(x, v.rest).value;
      assert r.value == [p] + more;
      ParamsCons(p, more, r.rest);
    }
  }

  lemma {:induction false} ElementsSound(x: Texts, s: seq<byte>, used: set<seq<byte>>)
    ensures var r := ParseElements(x, s, used);
            r.Parsed? ==>
              && s == PrintElements(r.value) + r.rest
              && !StartsWith(r.rest, OPEN)
              && WellFormedElements(x, r.value, used)
    decreases |s|
  {
    var r := ParseElements(x, s, used);
    if r.Parsed? && StartsWith(s, OPEN) {
      var head := ElementHead(s);
      var ps := ParseParams(x, head.rest);
      var left := ParseElements(x, ps.rest[1..], used + {head.value});
      var e := Element(head.value, ps.value);
      FirstElement(x, s, used);
      ParamsSound(x, head.rest);
      hide ParseElements;
      hide ParseParams;
      hide ElementHead;
      hide WellFormedElements;
      hide WellFormedParam;
      hide PrintElements;
      hide PrintParams;
      hide SdName;
      ElementsSound(x, ps.rest[1..], used + {head.value});
      DistinctCons(x, e, left.value, used);
      ElementsCons(e, left.value, left.rest);
      CutFirst(ps.rest, CLOSE);
    }
  }

  lemma CutFirst(s: seq<byte>, b: byte)
    requires StartsWith(s, b)
    ensures s == [b] + s[1..]
  {
  }

  lemma FirstElement(x: Texts, s: seq<byte>, used: set<seq<byte>>)
    requires ParseElements(x, s, used).Parsed? && StartsWith(s, OPEN)
    ensures var head := ElementHead(s);
            && head.Parsed? && head.value !in used && ParseParams(x, head.rest).Parsed?
            && var ps := ParseParams(x, head.rest);
            && StartsWith(ps.rest, CLOSE)
            && var left := ParseElements(x, ps.rest[1..], used + {head.value});
            && left.Parsed?
            && ParseElements(x, s, used) == Parsed([Element(head.value, ps.value)] + left.value, left.rest)
  {
    hide ElementHead;
    hide ParseParams;
  }

  lemma FieldsCons(field: seq<byte>, fields: seq<seq<byte>>, rest: seq<byte>)
    ensures field + [SP] + (PrintFields(fields) + rest) == PrintFields([field] + fields) + rest
  {
    assert ([field] + fields)[1..] == fields;
    assert PrintFields([field] + fields) == field + [SP] + PrintFields(fields);
  }

  lemma {:induction false} FieldsSound(s: seq<byte>, k: nat)
    ensures var r := ParseFields(s, k);
            r.Parsed? ==>
              && s == PrintFields(r.value) + r.rest
              && forall i | 0 <= i < k :: SP !in r.value[i]
    decreases k
  {
    var r := ParseFields(s, k);
    if r.Parsed? && k > 0 {
      var n := IndexOf(s, {SP}).value;
      var left := ParseFields(s[n + 1..], k - 1);
      assert r == Parsed([s[..n]] + left.value, left.rest);
      hide PrintFields;
      hide ParseFields;
      hide IndexOf;
      FieldsSound(s[n + 1..], k - 1);
      SplitAt(s, n);
      IndexOfFirst(s, {SP});
      FieldsCons(s[..n], left.value, r.rest);
      forall i | 0 <= i < k ensures SP !in r.value[i] {
        if i > 0 { assert r.value[i] == left.value[i - 1]; }
      }
    }
  }

  lemma MsgSound(x: Texts, s: seq<byte>)
    ensures var r := ParseMsg(x, s); r.Some? ==> s == PrintMsg(r.value) && WellFormedMsg(x, r.value)
  {
  }

  predicate WellFormedData(x: Texts, d: StructuredData) {
    d.Elements? ==> d.elements != [] && WellFormedElements(x, d.elements, {})
  }

  lemma BodySound(x: Texts, s: seq<byte>)
    ensures var r := ParseBody(x, s);
            r.Some? ==>
              && s == PrintData(r.value.0) + PrintMsg(r.value.1)
              && WellFormedData(x, r.value.0) && WellFormedMsg(x, r.value.1)
  {
    if ParseBody(x, s).Some? {
      if StartsWith(s, DASH) {
        MsgSound(x, s[1..]);
        assert s == [DASH] + s[1..];
      } else {
        ElementsSound(x, s, {});
        MsgSound(x, ParseElements(x, s, {}).rest);
      }
    }
  }

  lemma MessageLayout(t: Message)
    ensures Print(t) == ([LT] + Digits(t.header.pri)) + [GT]
                        + (PrintFields(FieldsOf(t.header)) + (PrintData(t.data) + PrintMsg(t.msg)))
  {
  }

  lemma ParseSound(x: Texts, m: seq<byte>)
    ensures var r := Parse(x, m); r.Some? ==> WellFormed(x, r.value) && Print(r.value) == m
  {
    if Parse(x, m).Some? {
      var t := Parse(x, m).value;
      var end := IndexOf(m, {GT}).value;
      DigitsOfValue(m[1..end]);
      var afterPri := m[end + 1..];
      FieldsSound(afterPri, 6);
      var fields := ParseFields(afterPri, 6);
      BodySound(x, fields.rest);
      assert FieldsOf(t.header) == fields.value;
      assert forall k | 0 <= k < 4 :: t.header.names[k] == fields.value[k + 2];
      SplitAt(m, end);
      assert m[..end] == [LT] + m[1..end];
      assert [m[end]] == [GT];
      MessageLayout(t);
    }
  }

  // ---------- what is printed from a well-formed tree is parsed back ----------

  lemma {:induction false} ValueBack(v: seq<Atom>, tail: seq<byte>)
    requires WellFormedValue(v)
    ensures ParseValue(PrintValue(v) + [QUOTE] + tail) == Parsed(v, tail)
  {
    var s := PrintValue(v) + [QUOTE] + tail;
    if v != [] {
      var rest := PrintValue(v[1..]) + [QUOTE] + tail;
      assert PrintValue(v) == PrintAtom(v[0]) + PrintValue(v[1..]);
      assert s == PrintAtom(v[0]) + rest;
      assert v == [v[0]] + v[1..];
      ValueBack(v[1..], tail);
      match v[0]
      case Plain(_) => assert s[1..] == rest;
      case Escape(_) => assert s[2..] == rest;
      case Slash =>
        assert v[1].Plain? && rest[0] == v[1].octet && s[1] == rest[0];
        assert s[1..] == rest;
    }
  }

  lemma ParamHeadBack(name: seq<byte>, quoted: seq<byte>)
    requires SdName(name)
    ensures ParamHead([SP] + (name + [EQUALS] + ([QUOTE] + quoted))) == Parsed(name, quoted)
  {
    var body := name + [EQUALS] + ([QUOTE] + quoted);
    IndexOfAfter(name, EQUALS, [QUOTE] + quoted, {EQUALS});
    assert ([SP] + body)[1..] == body;
    assert body[..|name|] == name && body[|name| + 1..] == [QUOTE] + quoted;
    assert ([QUOTE] + quoted)[1..] == quoted;
  }

  lemma {:induction false} ParamsBack(x: Texts, ps: seq<Param>, tail: seq<byte>)
    requires forall k | 0 <= k < |ps| :: WellFormedParam(x, ps[k])
    requires !StartsWith(tail, SP)
    ensures ParseParams(x, PrintParams(ps) + tail) == Parsed(ps, tail)
  {
    if ps == [] {
      assert PrintParams(ps) + tail == tail;
    } else {
      var p, rest := ps[0], PrintParams(ps[1..]) + tail;
      assert ps == [p] + ps[1..];
      ParamsBack(x, ps[1..], tail);
      ParamsCons(p, ps[1..], tail);
      ValueBack(p.value, rest);
      ParamHeadBack(p.name, PrintValue(p.value) + [QUOTE] + rest);
    }
  }

  lemma ElementHeadBack(id: seq<byte>, after: seq<byte>)
    requires SdName(id) && (StartsWith(after, SP) || StartsWith(after, CLOSE))
    ensures ElementHead([OPEN] + (id + after)) == Parsed(id, after)
  {
    var body := id + after;
    assert after == [after[0]] + after[1..];
    assert body == id + [after[0]] + after[1..];
    IndexOfAfter(id, after[0], after[1..], {SP, CLOSE});
    assert ([OPEN] + body)[1..] == body;
    assert body[..|id|] == id && body[|id|..] == after;
  }

  lemma DistinctTail(x: Texts, es: seq<Element>, used: set<seq<byte>>)
    requires es != [] && WellFormedElements(x, es, used)
    ensures WellFormedElement(x, es[0]) && es[0].id !in used
    ensures WellFormedElements(x, es[1..], used + {es[0].id})
  {
  }

  lemma ElementStep(x: Texts, s: seq<byte>, e: Element, used: set<seq<byte>>, after: seq<byte>, closed: seq<byte>)
    requires StartsWith(s, OPEN) && ElementHead(s) == Parsed(e.id, after) && e.id !in used
    requires ParseParams(x, after) == Parsed(e.params, closed) && StartsWith(closed, CLOSE)
    ensures ParseElements(x, closed[1..], used + {e.id}).Parsed? ==>
              ParseElements(x, s, used) == var r := ParseElements(x, closed[1..], used + {e.id});
                                           Parsed([e] + r.value, r.rest)
  {
  }

  lemma ElementBack(x: Texts, e: Element, rest: seq<byte>)
    requires WellFormedElement(x, e)
    ensures var after := PrintParams(e.params) + ([CLOSE] + rest);
            && ElementHead([OPEN] + (e.id + after)) == Parsed(e.id, after)
            && ParseParams(x, after) == Parsed(e.params, [CLOSE] + rest)
  {
    var closed := [CLOSE] + rest;
    ParamsBack(x, e.params, closed);
    ParamsStart(e.params, closed);
    ElementHeadBack(e.id, PrintParams(e.params) + closed);
  }

  lemma {:induction false} ElementsBack(x: Texts, es: seq<Element>, used: set<seq<byte>>, tail: seq<byte>)
    requires WellFormedElements(x, es, used)
    requires !StartsWith(tail, OPEN)
    ensures ParseElements(x, PrintElements(es) + tail, used) == Parsed(es, tail)
  {
    if es == [] {
      assert PrintElements(es) + tail == tail;
    } else {
      var e, rest := es[0], PrintElements(es[1..]) + tail;
      assert es == [e] + es[1..];
      DistinctTail(x, es, used);
      ElementsBack(x, es[1..], used + {e.id}, tail);
      ElementsCons(e, es[1..], tail);
      ElementBack(x, e, rest);
      assert ([CLOSE] + rest)[1..] == rest;
      ElementStep(x, PrintElements(es) + tail, e, used, PrintParams(e.params) + ([CLOSE] + rest), [CLOSE] + rest);
    }
  }

  lemma ParamsStart(ps: seq<Param>, rest: seq<byte>)
    requires StartsWith(rest, CLOSE)
    ensures StartsWith(PrintParams(ps) + rest, SP) || StartsWith(PrintParams(ps) + rest, CLOSE)
  {
  }

  lemma {:induction false} FieldsBack(fields: seq<seq<byte>>, tail: seq<byte>)
    requires forall k | 0 <= k < |fields| :: SP !in fields[k]
    ensures ParseFields(PrintFields(fields) + tail, |fields|) == Parsed(fields, tail)
  {
    var s := PrintFields(fields) + tail;
    if fields != [] {
      var rest := PrintFields(fields[1..]) + tail;
      assert s == fields[0] + [SP] + rest;
      IndexOfAfter(fields[0], SP, rest, {SP});
      assert s[..|fields[0]|] == fields[0] && s[|fields[0]| + 1..] == rest;
      FieldsBack(fields[1..], tail);
      assert fields == [fields[0]] + fields[1..];
    } else {
      assert s == tail;
    }
  }

  lemma BodyBack(x: Texts, d: StructuredData, msg: Option<seq<byte>>)
    requires WellFormedData(x, d)
    requires WellFormedMsg(x, msg)
    ensures ParseBody(x, PrintData(d) + PrintMsg(msg)) == Some((d, msg))
  {
    var s, tail := PrintData(d) + PrintMsg(msg), PrintMsg(msg);
    assert ParseMsg(x, tail) == Some(msg);
    match d
    case NilData => assert s[1..] == tail;
    case Elements(es) =>
      ElementsBack(x, es, {}, tail);
      assert s[0] == OPEN;
  }

  lemma PriBack(pri: nat, tail: seq<byte>)
    requires pri <= 191
    ensures ParsePri([LT] + Digits(pri) + [GT] + tail) == Parsed(pri, tail)
  {
    var digits := Digits(pri);
    var m := [LT] + digits + [GT] + tail;
    IndexOfAfter([LT] + digits, GT, tail, {GT});
    assert m[1..1 + |digits|] == digits && m[|digits| + 2..] == tail;
    ValueOfDigits(pri);
    assert Pow10(3) == 1000 by { assert Pow10(2) == 100 && Pow10(1) == 10; }
    DigitCount(pri, 3);
  }

  lemma ParseComplete(x: Texts, t: Message)
    requires WellFormed(x, t)
    ensures Parse(x, Print(t)) == Some(t)
  {
    var fields, body := FieldsOf(t.header), PrintData(t.data) + PrintMsg(t.msg);
    MessageLayout(t);
    PriBack(t.header.pri, PrintFields(fields) + body);
    assert forall k | 0 <= k < 4 :: fields[k + 2] == t.header.names[k];
    FieldsBack(fields, body);
    assert fields[2..] == t.header.names;
    BodyBack(x, t.data, t.msg);
  }

  // ---------- the recognised language ----------

  ghost predicate Accepts(x: Texts, m: seq<byte>) {
    exists t: Message :: WellFormed(x, t) && Print(t) == m
  }

  /** The parser decides the language, and a recognised message has one tree only. */
  lemma ParserDecides(x: Texts, m: seq<byte>)
    ensures Accepts(x, m) <==> Parse(x, m).Some?
    ensures forall t: Message | WellFormed(x, t) && Print(t) == m :: Parse(x, m) == Some(t)
  {
    ParseSound(x, m);
    forall t: Message | WellFormed(x, t) && Print(t) == m ensures Parse(x, m) == Some(t) {
      ParseComplete(x, t);
    }
  }

  /** Printing is injective on well-formed trees: the grammar is unambiguous. */
  lemma Unambiguous(x: Texts, t: Message, u: Message)
    requires WellFormed(x, t) && WellFormed(x, u) && Print(t) == Print(u)
    ensures t == u
  {
    ParseComplete(x, t);
    ParseComplete(x, u);
  }
}
