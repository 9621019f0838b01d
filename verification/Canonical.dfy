/**
  The canonical text of a decimal, on which every fingerprint depends: trailing zeros
  move into the exponent, and zero is always written the same way.
  (src/stock_agent/audit/canonical.py.)
 */
module Canonical {
  import opened Common
  import opened Decimals

  // ---- normal form ----

  /** The coefficient of a nonzero decimal in normal form is not divisible by ten. */
  predicate Normal(d: Dec) {
    d.digits != [] && d.digits[0] != 0 && d.digits[|d.digits| - 1] != 0
  }

  /** Move trailing zeros into the exponent. */
  function Stripped(d: Dec): (n: Dec)
    requires d.digits != [] && d.digits[0] != 0
    ensures Normal(n) && n.negative == d.negative
    decreases |d.digits|
  {
    var last := |d.digits| - 1;
    if d.digits[last] != 0 then d
    else Stripped(d.(digits := d.digits[..last], exponent := d.exponent + 1))
  }

  lemma {:induction false} StrippedKeepsValue(d: Dec)
    requires d.digits != [] && d.digits[0] != 0
    ensures Value(Stripped(d)) == Value(d)
    decreases |d.digits|
  {
    var last := |d.digits| - 1;
    if d.digits[last] == 0 {
      var next := d.(digits := d.digits[..last], exponent := d.exponent + 1);
      StrippedKeepsValue(next);
      var c := NatOf(next.digits);
      assert NatOf(d.digits) == 10 * c;
      Rescale(c, d.exponent + 1, d.exponent);
      assert Pow(1) == 10 * Pow(0);
    }
  }

  lemma {:induction false} NotDivisible(s: seq<Digit>)
    requires s != [] && s[|s| - 1] != 0
    ensures NatOf(s) % 10 != 0
  {}

  /** Without leading zeros, a number has one sequence of digits. */
  lemma {:induction false} DigitsAreUnique(s: seq<Digit>, t: seq<Digit>)
    requires s != [] ==> s[0] != 0
    requires t != [] ==> t[0] != 0
    requires NatOf(s) == NatOf(t)
    ensures s == t
    decreases |s|
  {
    if s == [] || t == [] {
      DigitBounds(s);
      DigitBounds(t);
    } else {
      var m, n := |s| - 1, |t| - 1;
      LastDigit(s);
      LastDigit(t);
      DigitsAreUnique(s[..m], t[..n]);
      assert s == s[..m] + [s[m]] && t == t[..n] + [t[n]];
    }
  }

  lemma {:induction false} LastDigit(s: seq<Digit>)
    requires s != [] && s[0] != 0
    ensures s[|s| - 1] == NatOf(s) % 10 && NatOf(s[..|s| - 1]) == NatOf(s) / 10
    ensures |s| > 1 ==> s[..|s| - 1][0] != 0
  {}

  /** Equal numbers in normal form are written with the same coefficient and exponent. */
  lemma {:induction false} NormalFormIsUnique(a: Dec, b: Dec)
    requires Normal(a) && Normal(b) && Value(a) == Value(b)
    ensures a == b
  {
    NonzeroMagnitude(a);
    NonzeroMagnitude(b);
    assert a.negative == b.negative && Magnitude(a) == Magnitude(b);
    if a.exponent <= b.exponent {
      SameExponent(a, b);
    } else {
      SameExponent(b, a);
    }
    SameUnit(NatOf(a.digits), NatOf(b.digits), Pow10(a.exponent));
    DigitsAreUnique(a.digits, b.digits);
  }

  lemma {:induction false} NonzeroMagnitude(d: Dec)
    requires d.digits != [] && d.digits[0] != 0
    ensures NatOf(d.digits) > 0 && Magnitude(d) > 0.0
  {
    DigitBounds(d.digits);
    PositiveTerm(NatOf(d.digits), d.exponent);
  }

  lemma {:induction false} SameExponent(a: Dec, b: Dec)
    requires Normal(a) && Normal(b) && Magnitude(a) == Magnitude(b) && a.exponent <= b.exponent
    ensures a.exponent == b.exponent
  {
    var x, y, k := NatOf(a.digits), NatOf(b.digits), b.exponent - a.exponent;
    NotDivisible(a.digits);
    Rescale(y, b.exponent, a.exponent);
    SameUnit(x, y * Pow(k), Pow10(a.exponent));
    WholeTens(y, k);
  }

  lemma {:induction false} WholeTens(y: nat, k: nat)
    ensures k > 0 ==> (y * Pow(k)) % 10 == 0
  {
    if k > 0 {
      assert y * Pow(k) == 10 * (y * Pow(k - 1));
    }
  }

  // ---- text ----

  function DigitChar(d: Digit): (c: char)
    ensures '0' <= c <= '9'
  {
    '0' + d as char
  }

  function DigitText(s: seq<Digit>): (r: string)
    ensures |r| == |s|
    ensures forall i :: 0 <= i < |s| ==> r[i] == DigitChar(s[i])
  {
    seq(|s|, i requires 0 <= i < |s| => DigitChar(s[i]))
  }

  function IntText(n: int): string {
    if n < 0 then "-" + DigitText(Digits(-n)) else DigitText(Digits(n))
  }

  predicate IsZero(d: Dec) { forall i :: 0 <= i < |d.digits| ==> d.digits[i] == 0 }

  function UnsignedText(n: Dec): (text: string)
    requires n.digits != []
    ensures text != [] && '0' <= text[0] <= '9'
  {
    DigitText(n.digits) + "e" + IntText(n.exponent)
  }

  function NormalText(n: Dec): string
    requires n.digits != []
  {
    if n.negative then "-" + UnsignedText(n) else UnsignedText(n)
  }

  function CanonicalText(d: Dec): string
    requires ValidDec(d)
  {
    if IsZero(d) then "0" else NormalText(Stripped(d))
  }

  method CanonicalDecimal(d: Dec) returns (text: string)
    requires ValidDec(d)
    ensures text == CanonicalText(d)
  {
    if IsZero(d) {
      return "0";
    }
    var digits, exponent := d.digits, d.exponent;
    while digits[|digits| - 1] == 0
      invariant digits != [] && digits[0] != 0
      invariant Stripped(Dec(d.negative, digits, exponent)) == Stripped(d)
      decreases |digits|
    {
      digits, exponent := digits[..|digits| - 1], exponent + 1;
    }
    var sign := if d.negative then "-" else "";
    text := sign + (DigitText(digits) + "e" + IntText(exponent));
  }

  // ---- reading the text back ----

  predicate IsDigitChar(c: char) { '0' <= c <= '9' }

  function ReadDigits(text: string): Option<seq<Digit>> {
    if text != [] && forall i :: 0 <= i < |text| ==> IsDigitChar(text[i])
    then Some(seq(|text|, i requires 0 <= i < |text| && IsDigitChar(text[i]) => (text[i] - '0') as nat))
    else None
  }

  function ReadInt(text: string): Option<int> {
    if text != [] && text[0] == '-' then
      match ReadDigits(text[1..]) case Some(s) => Some(-(NatOf(s) as int)) case None => None
    else
      match ReadDigits(text) case Some(s) => Some(NatOf(s)) case None => None
  }

  function IndexOf(text: string, c: char): (i: nat)
    ensures i <= |text| && (i < |text| ==> text[i] == c)
    ensures forall j :: 0 <= j < i ==> text[j] != c
  {
    if text == [] || text[0] == c then 0 else 1 + IndexOf(text[1..], c)
  }

  function WithoutLeadingZeros(s: seq<Digit>): (r: seq<Digit>)
    requires s != []
    ensures r != [] && (r[0] != 0 || |r| == 1)
  {
    if |s| > 1 && s[0] == 0 then WithoutLeadingZeros(s[1..]) else s
  }

  /** An optional sign, digits, and an optional exponent. */
  function ReadUnsigned(negative: bool, text: string): Option<Dec> {
    var cut := IndexOf(text, 'e');
    match ReadDigits(text[..cut])
    case None => None
    case Some(digits) =>
      if cut == |text| then Some(Dec(negative, WithoutLeadingZeros(digits), 0))
      else match ReadInt(text[cut + 1..])
        case None => None
        case Some(exponent) => Some(Dec(negative, WithoutLeadingZeros(digits), exponent))
  }

  function Read(text: string): Option<Dec> {
    if text != [] && text[0] == '-' then ReadUnsigned(true, text[1..]) else ReadUnsigned(false, text)
  }

  lemma {:induction false} DigitsRoundTrip(s: seq<Digit>)
    requires s != []
    ensures ReadDigits(DigitText(s)) == Some(s)
  {
    var text := DigitText(s);
    forall i | 0 <= i < |s| ensures IsDigitChar(text[i]) && (text[i] - '0') as nat == s[i] {}
    assert ReadDigits(text).Some?;
    assert ReadDigits(text).value == s;
  }

  lemma {:induction false} IntRoundTrip(n: int)
    ensures ReadInt(IntText(n)) == Some(n)
  {
    if n < 0 {
      DigitsRoundTrip(Digits(-n));
      assert IntText(n)[1..] == DigitText(Digits(-n));
    } else {
      DigitsRoundTrip(Digits(n));
      assert IsDigitChar(IntText(n)[0]);
    }
  }

  lemma {:induction false} UnsignedRoundTrip(n: Dec)
    requires Normal(n)
    ensures ReadUnsigned(n.negative, UnsignedText(n)) == Some(n)
  {
    var head, tail := DigitText(n.digits), IntText(n.exponent);
    var text := head + "e" + tail;
    var cut := IndexOf(text, 'e');
    assert text[|head|] == 'e';
    assert forall i :: 0 <= i < |head| ==> text[i] == head[i] && head[i] != 'e';
    assert cut == |head|;
    assert text[..cut] == head && text[cut + 1..] == tail;
    DigitsRoundTrip(n.digits);
    IntRoundTrip(n.exponent);
  }

  /** A number in normal form reads back as itself. */
  lemma {:induction false} NormalRoundTrip(n: Dec)
    requires Normal(n)
    ensures Read(NormalText(n)) == Some(n)
  {
    UnsignedRoundTrip(n);
    ReadSign(UnsignedText(n));
  }

  lemma {:induction false} ReadSign(body: string)
    requires body != [] && body[0] != '-'
    ensures Read(body) == ReadUnsigned(false, body) && Read("-" + body) == ReadUnsigned(true, body)
  {
    assert ("-" + body)[1..] == body;
  }

  lemma {:induction false} ZeroValue(d: Dec)
    requires ValidDec(d)
    ensures IsZero(d) <==> d.digits[0] == 0
    ensures IsZero(d) <==> Value(d) == 0.0
  {
    ZeroDigits(d.digits);
    PositiveTerm(NatOf(d.digits), d.exponent);
  }

  /** Printing and reading back keeps the numeric value of every decimal. */
  lemma {:induction false} PrintThenRead(d: Dec)
    requires ValidDec(d)
    ensures var r := Read(CanonicalText(d)); r.Some? && ValidDec(r.value) && Value(r.value) == Value(d)
  {
    ZeroValue(d);
    if IsZero(d) {
      ReadZero();
    } else {
      StrippedKeepsValue(d);
      NormalRoundTrip(Stripped(d));
    }
  }

  lemma {:induction false} ReadZero()
    ensures Read("0") == Some(Dec(false, [0], 0)) && Value(Dec(false, [0], 0)) == 0.0
  {
    DigitsRoundTrip([0]);
    assert DigitText([0]) == "0";
    assert "0"[..1] == "0";
    PositiveTerm(NatOf([0]), 0);
  }

  /** Two decimals print alike exactly when they are numerically equal. */
  lemma {:induction false} SameTextIffSameNumber(a: Dec, b: Dec)
    requires ValidDec(a) && ValidDec(b)
    ensures CanonicalText(a) == CanonicalText(b) <==> Value(a) == Value(b)
  {
    PrintThenRead(a);
    PrintThenRead(b);
    ZeroValue(a);
    ZeroValue(b);
    if Value(a) == Value(b) && !IsZero(a) {
      StrippedKeepsValue(a);
      StrippedKeepsValue(b);
      NormalFormIsUnique(Stripped(a), Stripped(b));
    }
  }

  /** Canonicalizing a value once more changes nothing. */
  lemma {:induction false} CanonicalIsIdempotent(d: Dec)
    requires ValidDec(d)
    ensures var r := Read(CanonicalText(d)); r.Some? && ValidDec(r.value) && CanonicalText(r.value) == CanonicalText(d)
  {
    PrintThenRead(d);
    SameTextIffSameNumber(Read(CanonicalText(d)).value, d);
  }
}
