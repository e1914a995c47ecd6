/** Bytes, and the decimal rendering and parsing of integers that both the message ids
    and the correlation keys rest on. */
module Decimal {

  type byte = x: int | 0 <= x < 256
  type Bytes = seq<byte>

  datatype Option<+T> = None | Some(value: T)

  lemma Assoc<T>(a: seq<T>, b: seq<T>, c: seq<T>)
    ensures (a + b) + c == a + (b + c)
  {
  }

  const ZERO: byte := 48
  const PLUS: byte := 43
  const MINUS: byte := 45
  const UNDERSCORE: byte := 95

  predicate IsDigit(b: byte) {
    ZERO <= b <= ZERO + 9
  }

  predicate IsSpace(b: byte) {
    b == 32 || 9 <= b <= 13
  }

  function Digits(n: nat): (d: Bytes)
    ensures d != [] && forall i | 0 <= i < |d| :: IsDigit(d[i])
  {
    if n < 10 then [ZERO + n] else Digits(n / 10) + [ZERO + n % 10]
  }

  /** Python's `str(n)`, as ASCII bytes. */
  function Render(n: int): (s: Bytes)
    ensures s != [] && forall i | 0 <= i < |s| :: IsDigit(s[i]) || (i == 0 && s[i] == MINUS)
  {
    if n < 0 then [MINUS] + Digits(-n) else Digits(n)
  }

  function StripLeft(s: Bytes): (t: Bytes)
    ensures |t| <= |s|
  {
    if s != [] && IsSpace(s[0]) then StripLeft(s[1..]) else s
  }

  function StripRight(s: Bytes): (t: Bytes)
    ensures |t| <= |s|
  {
    if s != [] && IsSpace(s[|s| - 1]) then StripRight(s[..|s| - 1]) else s
  }

  /** Decimal digits, with single underscores allowed between two digits. */
  function ParseDigits(s: Bytes): Option<int> {
    if s == [] || !IsDigit(s[|s| - 1]) then None
    else if |s| == 1 then Some(s[0] - ZERO)
    else
      var head := s[..|s| - 1];
      var digits := if head[|head| - 1] == UNDERSCORE then head[..|head| - 1] else head;
      match ParseDigits(digits)
      case None => None
      case Some(v) => Some(10 * v + (s[|s| - 1] - ZERO))
  }

  /** Python's `int(s)` on bytes: `None` stands for the ValueError. */
  function ParseInt(s: Bytes): Option<int> {
    var t := StripRight(StripLeft(s));
    if t != [] && t[0] == MINUS then
      match ParseDigits(t[1..])
      case None => None
      case Some(v) => Some(-v)
    else
      var u := if t != [] && t[0] == PLUS then t[1..] else t;
      match ParseDigits(u)
      case None => None
      case Some(v) => Some(v)
  }

  /** The texts of digits: digits at both ends, and every underscore between two of them. */
  predicate DigitText(s: Bytes) {
    && s != []
    && forall i | 0 <= i < |s| ::
         IsDigit(s[i]) || (s[i] == UNDERSCORE && 0 < i < |s| - 1 && IsDigit(s[i - 1]) && IsDigit(s[i + 1]))
  }

  lemma {:induction false} ParseDigitsIff(s: Bytes)
    ensures ParseDigits(s).Some? <==> DigitText(s)
    decreases |s|
  {
    if |s| > 1 && IsDigit(s[|s| - 1]) {
      var n := |s| - 1;
      var head := s[..n];
      var digits := if head[n - 1] == UNDERSCORE then head[..n - 1] else head;
      ParseDigitsIff(digits);
      assert forall i | 0 <= i < |digits| :: digits[i] == s[i];
      if DigitText(digits) {
        forall i | 0 <= i < |s|
          ensures IsDigit(s[i]) || (s[i] == UNDERSCORE && 0 < i < n && IsDigit(s[i - 1]) && IsDigit(s[i + 1]))
        {
          assert i < |digits| ==> digits[i] == s[i];
          assert IsDigit(digits[|digits| - 1]);
        }
      }
      if DigitText(s) {
        forall i | 0 <= i < |digits|
          ensures IsDigit(digits[i])
                  || (digits[i] == UNDERSCORE && 0 < i < |digits| - 1
                      && IsDigit(digits[i - 1]) && IsDigit(digits[i + 1]))
        {
          assert digits[i] == s[i] && !(s[i] == UNDERSCORE && i == |digits| - 1);
        }
      }
    }
  }

  predicate AllSpace(s: Bytes) {
    forall i | 0 <= i < |s| :: IsSpace(s[i])
  }

  lemma {:induction false} StripPadding(a: Bytes, t: Bytes, b: Bytes)
    requires AllSpace(a) && AllSpace(b) && t != [] && !IsSpace(t[0]) && !IsSpace(t[|t| - 1])
    ensures StripRight(StripLeft(a + t + b)) == t
    decreases |a| + |b|
  {
    if a != [] {
      assert (a + t + b)[1..] == a[1..] + t + b;
      StripPadding(a[1..], t, b);
    } else if b != [] {
      var s := a + t + b;
      assert s == t + b && StripLeft(s) == s;
      var c := b[..|b| - 1];
      assert s[..|s| - 1] == t + c && a + t + c == t + c && StripLeft(t + c) == t + c;
      StripPadding(a, t, c);
    } else {
      assert a + t + b == t;
    }
  }

  /** White space around a number and a plus sign in front of it make no difference. */
  lemma ParseIntPadded(a: Bytes, n: nat, b: Bytes)
    requires AllSpace(a) && AllSpace(b)
    ensures ParseInt(a + Digits(n) + b) == Some(n)
    ensures ParseInt(a + ([PLUS] + Digits(n)) + b) == Some(n)
    ensures var r := ParseInt(a + ([MINUS] + Digits(n)) + b); r.Some? && r.value + n == 0
  {
    ParseDigitsOfDigits(n);
    StripPadding(a, Digits(n), b);
    StripPadding(a, [PLUS] + Digits(n), b);
    StripPadding(a, [MINUS] + Digits(n), b);
  }

  lemma {:induction false} ParseDigitsOfDigits(n: nat)
    ensures ParseDigits(Digits(n)) == Some(n)
  {
    if n >= 10 {
      ParseDigitsOfDigits(n / 10);
      var d := Digits(n);
      assert d[..|d| - 1] == Digits(n / 10);
    }
  }

  /** `int(str(n)) == n` for every integer. */
  lemma ParseIntOfRender(n: int)
    ensures ParseInt(Render(n)) == Some(n)
  {
    var s := Render(n);
    assert StripLeft(s) == s && StripRight(s) == s;
    if n < 0 {
      assert s[1..] == Digits(-n);
      ParseDigitsOfDigits(-n);
    } else {
      ParseDigitsOfDigits(n);
    }
  }

  /** The rendering has no leading zero. */
  lemma {:induction false} DigitsAreCanonical(n: nat)
    ensures Digits(n)[0] == ZERO <==> n == 0
  {
    if n >= 10 { DigitsAreCanonical(n / 10); }
  }

  /** In ASCII: "-120" and " +1_0"; and the six characters that are white space. */
  lemma AsciiExamples()
    ensures forall b: byte :: IsSpace(b) <==> b in [9, 10, 11, 12, 13, 32]
    ensures Render(-120) == [45, 49, 50, 48] && ParseInt([32, 43, 49, 95, 48]) == Some(10)
  {
    assert Digits(1) == [49] && Digits(12) == [49, 50] && Digits(120) == [49, 50, 48];
    var s: Bytes := [32, 43, 49, 95, 48];
    assert StripLeft(s) == s[1..] == [43, 49, 95, 48];
    var u: Bytes := [49, 95, 48];
    assert [43, 49, 95, 48][1..] == u && u[..2] == [49, 95] && [49, 95][..1] == [49];
    assert ParseDigits([49]) == Some(1) && ParseDigits(u) == Some(10);
  }

  function Pow10(n: nat): (p: nat)
    ensures p >= 1
  {
    if n == 0 then 1 else 10 * Pow10(n - 1)
  }

  lemma {:induction false} Pow10Monotone(m: nat, n: nat)
    requires m <= n
    ensures Pow10(m) <= Pow10(n)
  {
    if m < n { Pow10Monotone(m, n - 1); }
  }

  lemma {:induction false} ParseDigitsBound(s: Bytes)
    requires ParseDigits(s).Some?
    ensures 0 <= ParseDigits(s).value < Pow10(|s|)
  {
    if |s| > 1 {
      var head := s[..|s| - 1];
      var digits := if head[|head| - 1] == UNDERSCORE then head[..|head| - 1] else head;
      ParseDigitsBound(digits);
      Pow10Monotone(|digits|, |s| - 1);
    }
  }

  /** A parsed number has no more digits than its text. */
  lemma ParseIntBound(s: Bytes)
    requires ParseInt(s).Some?
    ensures ParseInt(s).value < Pow10(|s|)
  {
    var t := StripRight(StripLeft(s));
    if t[0] == MINUS {
      ParseDigitsBound(t[1..]);
    } else {
      var u := if t[0] == PLUS then t[1..] else t;
      ParseDigitsBound(u);
      Pow10Monotone(|u|, |s|);
    }
  }
}
