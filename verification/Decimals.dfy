/**
  Decimals as sign, digits and exponent, their numeric value, and the three exact
  comparisons that never build a power of ten larger than the operands need.
  (src/stock_agent/risk/engine.py and src/stock_agent/strategies/fixture.py.)
 */
module Decimals {

  type Digit = d: nat | d < 10

  datatype Dec = Dec(negative: bool, digits: seq<Digit>, exponent: int)

  /** Digits are never empty and carry no leading zero. */
  predicate ValidDec(d: Dec) {
    d.digits != [] && (d.digits[0] != 0 || |d.digits| == 1)
  }

  function NatOf(s: seq<Digit>): nat {
    if s == [] then 0 else 10 * NatOf(s[..|s| - 1]) + s[|s| - 1]
  }

  function Pow(n: nat): (p: nat)
    ensures p > 0
  {
    if n == 0 then 1 else 10 * Pow(n - 1)
  }

  function Pow10(e: int): (p: real)
    ensures p > 0.0
    decreases if e < 0 then -e else e
  {
    if e == 0 then 1.0 else if e > 0 then 10.0 * Pow10(e - 1) else Pow10(e + 1) / 10.0
  }

  function Times(x: real, y: real): real { x * y }

  function Magnitude(d: Dec): real { Times(NatOf(d.digits) as real, Pow10(d.exponent)) }

  function Value(d: Dec): real {
    if d.negative then -Magnitude(d) else Magnitude(d)
  }

  function Sign(x: real): int { if x > 0.0 then 1 else if x < 0.0 then -1 else 0 }

  function SignOf(x: int): int { if x > 0 then 1 else if x < 0 then -1 else 0 }

  /** Decimal digits of a natural number, as `str` writes them. */
  function Digits(n: nat): (s: seq<Digit>)
    ensures s != [] && NatOf(s) == n
    ensures n > 0 ==> s[0] != 0
    ensures n == 0 ==> s == [0]
  {
    if n < 10 then
      assert NatOf([n]) == n by { assert [n][..0] == []; }
      [n]
    else
      var s := Digits(n / 10) + [n % 10];
      assert s[..|s| - 1] == Digits(n / 10);
      s
  }

  // ---- powers of ten ----

  lemma {:induction false} PowAdd(a: nat, b: nat)
    ensures Pow(a + b) == Pow(a) * Pow(b)
  {
    if a > 0 {
      PowAdd(a - 1, b);
      assert 10 * (Pow(a - 1) * Pow(b)) == (10 * Pow(a - 1)) * Pow(b);
    }
  }

  lemma {:induction false} Pow10Step(e: int)
    ensures Pow10(e + 1) == 10.0 * Pow10(e)
  {
  }

  /** A larger exponent is a whole number of smaller units. */
  lemma {:induction false} Pow10Shift(m: int, k: nat)
    ensures Pow10(m + k) == Times(Pow(k) as real, Pow10(m))
  {
    if k > 0 {
      Pow10Shift(m, k - 1);
      Pow10Step(m + k - 1);
      var p := Pow(k - 1) as real;
      assert Pow(k) as real == 10.0 * p;
      Reassociate(10.0, p, Pow10(m));
    }
  }

  lemma {:induction false} Pow10Add(a: int, b: int)
    ensures Pow10(a + b) == Times(Pow10(a), Pow10(b))
    decreases if a < 0 then -a else a
  {
    if a > 0 {
      Pow10Add(a - 1, b);
      Pow10Step(a - 1 + b);
      Reassociate(10.0, Pow10(a - 1), Pow10(b));
    } else if a < 0 {
      Pow10Add(a + 1, b);
      Pow10Step(a + b);
      Pow10Step(a);
      Reassociate(10.0, Pow10(a), Pow10(b));
    }
  }

  lemma {:induction false} Reassociate(x: real, y: real, z: real)
    ensures Times(x * y, z) == x * Times(y, z)
  {}

  // ---- digits ----

  function Zeros(k: nat): (s: seq<Digit>)
    ensures |s| == k
    ensures forall i :: 0 <= i < k ==> s[i] == 0
  {
    seq(k, _ => 0)
  }

  lemma {:induction false} PadValue(s: seq<Digit>, k: nat)
    ensures NatOf(s + Zeros(k)) == NatOf(s) * Pow(k)
  {
    var padded := s + Zeros(k);
    if k == 0 {
      assert padded == s;
    } else {
      PadValue(s, k - 1);
      assert padded[..|padded| - 1] == s + Zeros(k - 1);
      assert 10 * (NatOf(s) * Pow(k - 1)) == NatOf(s) * (10 * Pow(k - 1));
    }
  }

  /** The leading digit carries the highest power. */
  lemma {:induction false} LeadingDigit(s: seq<Digit>)
    requires s != []
    ensures NatOf(s) == s[0] * Pow(|s| - 1) + NatOf(s[1..])
  {
    if |s| == 1 {
      assert s[..0] == [] && s[1..] == [];
    } else {
      var n := |s| - 1;
      var front, rest := s[..n], s[1..];
      LeadingDigit(front);
      assert front[1..] == rest[..n - 1];
      assert 10 * (s[0] * Pow(n - 1)) == s[0] * (10 * Pow(n - 1));
    }
  }

  lemma {:induction false} DigitBounds(s: seq<Digit>)
    ensures NatOf(s) < Pow(|s|)
    ensures s != [] && s[0] != 0 ==> NatOf(s) >= Pow(|s| - 1)
  {
    if s == [] {
    } else {
      var front := s[..|s| - 1];
      DigitBounds(front);
      if |s| > 1 {
        assert front[0] == s[0];
      }
    }
  }

  /** Digit by digit from the left, the first difference decides. */
  function Lex(s: seq<Digit>, t: seq<Digit>): int
    requires |s| == |t|
  {
    if s == [] then 0
    else if s[0] != t[0] then (if s[0] > t[0] then 1 else -1)
    else Lex(s[1..], t[1..])
  }

  lemma {:induction false} LexIsNumeric(s: seq<Digit>, t: seq<Digit>)
    requires |s| == |t|
    ensures Lex(s, t) == SignOf(NatOf(s) - NatOf(t))
  {
    if s == [] {
    } else {
      LeadingDigit(s);
      LeadingDigit(t);
      if s[0] == t[0] {
        LexIsNumeric(s[1..], t[1..]);
      } else {
        DigitBounds(s[1..]);
        DigitBounds(t[1..]);
        if s[0] > t[0] {
          LeadDecides(s[0], t[0], Pow(|s| - 1), NatOf(s[1..]), NatOf(t[1..]));
        } else {
          LeadDecides(t[0], s[0], Pow(|s| - 1), NatOf(t[1..]), NatOf(s[1..]));
        }
      }
    }
  }

  lemma {:induction false} LeadDecides(a: nat, b: nat, unit: nat, x: nat, y: nat)
    requires a > b && x < unit && y < unit
    ensures a * unit + x > b * unit + y
  {
    Widen(b + 1, a, unit);
    assert (b + 1) * unit == b * unit + unit;
  }

  // ---- comparing coefficient and exponent ----

  /** Whole multiples of one unit compare as integers. */
  lemma {:induction false} SameUnit(x: int, y: int, unit: real)
    requires unit > 0.0
    ensures Sign(Times(x as real, unit) - Times(y as real, unit)) == SignOf(x - y)
  {
    var gap := x as real - y as real;
    assert gap * unit == x as real * unit - y as real * unit;
    if x > y {
      assert gap * unit > 0.0;
    } else if x < y {
      assert gap * unit < 0.0;
    }
  }

  lemma {:induction false} Rescale(x: nat, e: int, m: int)
    requires m <= e
    ensures Times(x as real, Pow10(e)) == Times((x * Pow(e - m)) as real, Pow10(m))
  {
    Pow10Shift(m, e - m);
    TimesReal(x, Pow(e - m), Pow10(m));
  }

  lemma {:induction false} TimesReal(x: nat, k: nat, unit: real)
    ensures Times(x as real, Times(k as real, unit)) == Times((x * k) as real, unit)
  {
    WholeProduct(x, k);
    var a, b := x as real, k as real;
    assert a * (b * unit) == (a * b) * unit;
  }

  lemma {:induction false} WholeProduct(x: int, y: int)
    ensures (x * y) as real == Times(x as real, y as real)
  {}

  lemma {:induction false} RescaledSign(x: nat, e: int, y: nat, f: int, m: int)
    requires m <= e && m <= f
    ensures Sign(Times(x as real, Pow10(e)) - Times(y as real, Pow10(f))) == SignOf(x * Pow(e - m) - y * Pow(f - m))
  {
    Rescale(x, e, m);
    Rescale(y, f, m);
    SameUnit(x * Pow(e - m), y * Pow(f - m), Pow10(m));
  }

  /** The greater adjusted exponent is the greater number. */
  lemma {:induction false} AdjustedDecides(s: seq<Digit>, e: int, t: seq<Digit>, f: int)
    requires s != [] && t != [] && s[0] != 0 && t[0] != 0
    requires e + |s| > f + |t|
    ensures Times(NatOf(s) as real, Pow10(e)) > Times(NatOf(t) as real, Pow10(f))
  {
    var m := if e < f then e else f;
    DigitBounds(s);
    DigitBounds(t);
    PowAdd(|s| - 1, e - m);
    PowAdd(|t|, f - m);
    PowMonotone(|t| + f - m, |s| - 1 + e - m);
    Widen(Pow(|s| - 1), NatOf(s), Pow(e - m));
    Narrow(NatOf(t), Pow(|t|), Pow(f - m));
    RescaledSign(NatOf(s), e, NatOf(t), f, m);
  }

  lemma {:induction false} Widen(a: nat, b: nat, k: nat)
    requires a <= b
    ensures a * k <= b * k
  {}

  lemma {:induction false} Narrow(a: nat, b: nat, k: nat)
    requires a < b && k > 0
    ensures a * k < b * k
  {}

  lemma {:induction false} PowMonotone(a: nat, b: nat)
    requires a <= b
    ensures Pow(a) <= Pow(b)
  {
    if a < b {
      PowMonotone(a, b - 1);
    }
  }

  /** With equal adjusted exponents the padded digits decide. */
  lemma {:induction false} PaddedDecides(s: seq<Digit>, e: int, t: seq<Digit>, f: int, width: nat)
    requires |s| <= width && |t| <= width && e + |s| == f + |t|
    ensures Lex(s + Zeros(width - |s|), t + Zeros(width - |t|)) ==
            Sign(Times(NatOf(s) as real, Pow10(e)) - Times(NatOf(t) as real, Pow10(f)))
  {
    LexIsNumeric(s + Zeros(width - |s|), t + Zeros(width - |t|));
    PadValue(s, width - |s|);
    PadValue(t, width - |t|);
    RescaledSign(NatOf(s), e, NatOf(t), f, e - (width - |s|));
  }

  lemma {:induction false} ZeroDecides(x: nat, e: int, y: nat, f: int)
    requires x == 0 || y == 0
    ensures Sign(Times(x as real, Pow10(e)) - Times(y as real, Pow10(f))) == SignOf(x - y)
  {
    PositiveTerm(x, e);
    PositiveTerm(y, f);
  }

  lemma {:induction false} PositiveTerm(x: nat, e: int)
    ensures x == 0 ==> Times(x as real, Pow10(e)) == 0.0
    ensures x > 0 ==> Times(x as real, Pow10(e)) > 0.0
  {}

  /** Coefficients with exponents, compared by adjusted exponent and then by padded digits. */
  function CompareTerms(x: nat, e: int, y: nat, f: int): int {
    if x == 0 || y == 0 then SignOf(x - y)
    else
      var s, t := Digits(x), Digits(y);
      var left, right := e + |s| - 1, f + |t| - 1;
      if left != right then SignOf(left - right)
      else
        var width := if |s| < |t| then |t| else |s|;
        Lex(s + Zeros(width - |s|), t + Zeros(width - |t|))
  }

  lemma {:induction false} CompareTermsExact(x: nat, e: int, y: nat, f: int)
    ensures CompareTerms(x, e, y, f) == Sign(Times(x as real, Pow10(e)) - Times(y as real, Pow10(f)))
  {
    if x == 0 || y == 0 {
      ZeroDecides(x, e, y, f);
    } else {
      var s, t := Digits(x), Digits(y);
      if e + |s| > f + |t| {
        AdjustedDecides(s, e, t, f);
      } else if e + |s| < f + |t| {
        AdjustedDecides(t, f, s, e);
      } else {
        PaddedDecides(s, e, t, f, if |s| < |t| then |t| else |s|);
      }
    }
  }

  // ---- the three comparisons ----

  function CompareProducts(a: Dec, b: Dec, c: Dec, d: Dec): int {
    CompareTerms(NatOf(a.digits) * NatOf(b.digits), a.exponent + b.exponent,
                 NatOf(c.digits) * NatOf(d.digits), c.exponent + d.exponent)
  }

  /** Products of nonnegative decimals of any length and exponent compare exactly. */
  lemma {:induction false} CompareProductsExact(a: Dec, b: Dec, c: Dec, d: Dec)
    requires !a.negative && !b.negative && !c.negative && !d.negative
    ensures CompareProducts(a, b, c, d) == Sign(Times(Value(a), Value(b)) - Times(Value(c), Value(d)))
  {
    ProductValue(a, b);
    ProductValue(c, d);
    CompareTermsExact(NatOf(a.digits) * NatOf(b.digits), a.exponent + b.exponent,
                      NatOf(c.digits) * NatOf(d.digits), c.exponent + d.exponent);
  }

  lemma {:induction false} ProductValue(a: Dec, b: Dec)
    ensures Times(Magnitude(a), Magnitude(b)) ==
            Times((NatOf(a.digits) * NatOf(b.digits)) as real, Pow10(a.exponent + b.exponent))
  {
    Pow10Add(a.exponent, b.exponent);
    WholeProduct(NatOf(a.digits), NatOf(b.digits));
    Regroup(NatOf(a.digits) as real, Pow10(a.exponent), NatOf(b.digits) as real, Pow10(b.exponent));
  }

  lemma {:induction false} Regroup(x: real, u: real, y: real, v: real)
    ensures Times(Times(x, u), Times(y, v)) == Times(Times(x, y), Times(u, v))
  {
    assert (x * u) * (y * v) == (x * y) * (u * v);
  }

  /** Decimals scaled by whole factors: adjusted exponents first, then a common exponent. */
  function CompareScaled(left: Dec, leftFactor: nat, right: Dec, rightFactor: nat): int {
    var x, y := NatOf(left.digits) * leftFactor, NatOf(right.digits) * rightFactor;
    if x == 0 || y == 0 then SignOf(x - y)
    else
      var l, r := left.exponent + |Digits(x)| - 1, right.exponent + |Digits(y)| - 1;
      if l != r then SignOf(l - r)
      else
        var common := if left.exponent < right.exponent then left.exponent else right.exponent;
        SignOf(x * Pow(left.exponent - common) - y * Pow(right.exponent - common))
  }

  lemma {:induction false} CompareScaledExact(left: Dec, leftFactor: nat, right: Dec, rightFactor: nat)
    requires !left.negative && !right.negative
    ensures CompareScaled(left, leftFactor, right, rightFactor) ==
            Sign(Times(leftFactor as real, Value(left)) - Times(rightFactor as real, Value(right)))
  {
    var x, e := NatOf(left.digits) * leftFactor, left.exponent;
    var y, f := NatOf(right.digits) * rightFactor, right.exponent;
    ScaledValue(left, leftFactor);
    ScaledValue(right, rightFactor);
    if x == 0 || y == 0 {
      ZeroDecides(x, e, y, f);
    } else if e + |Digits(x)| > f + |Digits(y)| {
      AdjustedDecides(Digits(x), e, Digits(y), f);
    } else if e + |Digits(x)| < f + |Digits(y)| {
      AdjustedDecides(Digits(y), f, Digits(x), e);
    } else {
      RescaledSign(x, e, y, f, if e < f then e else f);
    }
  }

  lemma {:induction false} ScaledValue(d: Dec, factor: nat)
    ensures Times(factor as real, Magnitude(d)) == Times((NatOf(d.digits) * factor) as real, Pow10(d.exponent))
  {
    WholeProduct(NatOf(d.digits), factor);
    var f, x, u := factor as real, NatOf(d.digits) as real, Pow10(d.exponent);
    assert f * (x * u) == (x * f) * u;
  }

  function DigitAt(s: seq<Digit>, k: nat): Digit { if k < |s| then s[k] else 0 }

  /** Ten times `left` against `right`, digit by digit with the shorter one continued by zeros. */
  method CompareTenfold(left: Dec, right: Dec) returns (sign: int)
    requires ValidDec(left) && ValidDec(right) && !left.negative && !right.negative
    ensures sign == Sign(Times(10.0, Value(left)) - Value(right))
  {
    var l, r := left.digits, right.digits;
    TenfoldValue(left);
    ZeroDigits(l);
    ZeroDigits(r);
    var e, f := left.exponent + 1, right.exponent;
    if l == [0] || r == [0] {
      ZeroDecides(NatOf(l), e, NatOf(r), f);
      return (if l != [0] then 1 else 0) - (if r != [0] then 1 else 0);
    }
    var leftAdjusted, rightAdjusted := e + |l| - 1, f + |r| - 1;
    if leftAdjusted != rightAdjusted {
      if leftAdjusted > rightAdjusted {
        AdjustedDecides(l, e, r, f);
        return 1;
      }
      AdjustedDecides(r, f, l, e);
      return -1;
    }
    var width := if |l| < |r| then |r| else |l|;
    ghost var s, t := l + Zeros(width - |l|), r + Zeros(width - |r|);
    PaddedDecides(l, e, r, f, width);
    for k := 0 to width
      invariant Lex(s, t) == Lex(s[k..], t[k..])
    {
      assert s[k..][1..] == s[k + 1..] && t[k..][1..] == t[k + 1..];
      if DigitAt(l, k) != DigitAt(r, k) {
        return if DigitAt(l, k) > DigitAt(r, k) then 1 else -1;
      }
    }
    return 0;
  }

  lemma {:induction false} TenfoldValue(d: Dec)
    ensures Times(10.0, Magnitude(d)) == Times(NatOf(d.digits) as real, Pow10(d.exponent + 1))
  {
    Pow10Step(d.exponent);
    var x, u := NatOf(d.digits) as real, Pow10(d.exponent);
    assert 10.0 * (x * u) == x * (10.0 * u);
  }

  lemma {:induction false} ZeroDigits(s: seq<Digit>)
    requires s != [] && (s[0] != 0 || |s| == 1)
    ensures NatOf(s) == 0 <==> s == [0]
  {
    DigitBounds(s);
    LeadingDigit(s);
    assert s[1..] == [] || |s| > 1;
  }
}
