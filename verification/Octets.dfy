/** Octets, searching in octet strings, and canonical decimal numerals.
    Every format of the relay (section 5.4 of RFC 6012, section 6 of RFC 5424)
    is a grammar over these. */
module Octets {

  type byte = x: int | 0 <= x < 256

  datatype Option<+T> = None | Some(value: T)

  const SP: byte := 32
  const QUOTE: byte := 34
  const DASH: byte := 45
  const DOT: byte := 46
  const EQUALS: byte := 61
  const LT: byte := 60
  const GT: byte := 62
  const OPEN: byte := 91
  const BACKSLASH: byte := 92
  const CLOSE: byte := 93

  predicate StartsWith(s: seq<byte>, b: byte) {
    s != [] && s[0] == b
  }

  /** Position of the first octet of `s` that is one of `stops`. */
  function IndexOf(s: seq<byte>, stops: set<byte>): (r: Option<nat>)
    ensures r.Some? ==> r.value < |s| && s[r.value] in stops
  {
    if s == [] then None
    else if s[0] in stops then Some(0)
    else match IndexOf(s[1..], stops)
      case None => None
      case Some(n) => Some(n + 1)
  }

  /** It is the first: no octet before it, or none at all, is a stop. */
  lemma {:induction false} IndexOfFirst(s: seq<byte>, stops: set<byte>)
    ensures var r := IndexOf(s, stops);
            forall k | 0 <= k < (if r.Some? then r.value else |s|) :: s[k] !in stops
  {
    if s != [] && s[0] !in stops {
      IndexOfFirst(s[1..], stops);
      var n := if IndexOf(s, stops).Some? then IndexOf(s, stops).value else |s|;
      forall k | 0 <= k < n ensures s[k] !in stops {
        if k > 0 { assert s[k] == s[1..][k - 1]; }
      }
    }
  }

  /** A field followed by its first stop octet is found again. */
  lemma IndexOfAfter(field: seq<byte>, stop: byte, tail: seq<byte>, stops: set<byte>)
    requires stop in stops && forall k | 0 <= k < |field| :: field[k] !in stops
    ensures IndexOf(field + [stop] + tail, stops) == Some(|field|)
  {
    var s := field + [stop] + tail;
    assert forall k | 0 <= k < |field| :: s[k] == field[k];
    assert s[|field|] == stop;
    IndexOfFirst(s, stops);
  }

  lemma DropDrop<T>(s: seq<T>, i: nat, n: nat)
    requires i + n <= |s|
    ensures s[i..][n..] == s[i + n..]
  {
  }

  lemma FrontOf<T>(s: seq<T>, front: seq<T>, x: T, i: nat)
    requires i < |s| && s == front + [x] + s[i + 1..]
    ensures front == s[..i]
  {
    assert |s| == |front| + 1 + |s[i + 1..]|;
  }

  lemma AppendCons<T>(front: seq<T>, x: T, back: seq<T>)
    ensures front + ([x] + back) == front + [x] + back
    ensures front + [] == front
  {
  }

  // ---------- decimal numerals ----------

  predicate IsDigit(b: byte) {
    48 <= b <= 57
  }

  predicate AllDigits(s: seq<byte>) {
    forall k | 0 <= k < |s| :: IsDigit(s[k])
  }

  /** Canonical numeral of `n`, as the source's integer formatting prints it. */
  function Digits(n: nat): (s: seq<byte>)
    ensures s != [] && AllDigits(s)
    ensures |s| > 1 ==> s[0] != 48
    ensures n > 0 ==> s[0] != 48
  {
    if n < 10 then [48 + n] else Digits(n / 10) + [48 + n % 10]
  }

  function Value(s: seq<byte>): nat
    requires AllDigits(s)
  {
    if s == [] then 0 else 10 * Value(s[..|s| - 1]) + (s[|s| - 1] - 48)
  }

  lemma {:induction false} ValueOfDigits(n: nat)
    ensures Value(Digits(n)) == n
  {
    if n < 10 {
      assert Digits(n)[..0] == [];
    } else {
      ValueOfDigits(n / 10);
      assert Digits(n)[..|Digits(n)| - 1] == Digits(n / 10);
    }
  }

  /** A numeral without a superfluous leading zero is the canonical one. */
  lemma {:induction false} DigitsOfValue(s: seq<byte>)
    requires AllDigits(s) && s != [] && (|s| > 1 ==> s[0] != 48)
    ensures Digits(Value(s)) == s
    ensures |s| > 1 ==> Value(s) >= 10
  {
    var front, last := s[..|s| - 1], s[|s| - 1] - 48;
    if |s| == 1 {
      assert front == [] && s == [s[0]];
    } else {
      DigitsOfValue(front);
      if |front| == 1 {
        assert Value(front) == front[0] - 48 by { assert front[..0] == []; }
        assert s[0] == front[0];
      }
      assert Value(s) / 10 == Value(front) && Value(s) % 10 == last;
      assert s == front + [48 + last];
    }
  }

  function Pow10(k: nat): (p: nat)
    ensures p >= 1
  {
    if k == 0 then 1 else 10 * Pow10(k - 1)
  }

  /** The numeral of `n` has at most `k` digits exactly when `n < 10^k`. */
  lemma {:induction false} DigitCount(n: nat, k: nat)
    requires k > 0
    ensures |Digits(n)| <= k <==> n < Pow10(k)
  {
    if n < 10 {
      assert Pow10(k) >= 10 by { assert Pow10(k) == 10 * Pow10(k - 1); }
    } else if k > 1 {
      DigitCount(n / 10, k - 1);
    } else {
      assert Pow10(1) == 10 * Pow10(0);
    }
  }
}
