/** The text handling behind the calibration modal's distance field:
    `String.prototype.replace` with a one-character pattern (first occurrence only)
    and `parseFloat`, which reads the longest decimal prefix after leading white space. */
module Decimal {
  import opened Wrappers
  import opened Geometry

  predicate IsDigit(c: char)
  {
    '0' <= c <= '9'
  }

  function DigitValue(c: char): (d: nat)
    requires IsDigit(c)
    ensures d < 10
  {
    (c as int) - ('0' as int)
  }

  /** The white space `parseFloat` skips (StrWhiteSpaceChar: white space and line terminators). */
  predicate IsWhiteSpace(c: char)
  {
    c == ' ' || c == '\t' || c == '\n' || c == '\r' || c == '\U{000B}' || c == '\U{000C}'
    || c == '\U{00A0}' || c == '\U{1680}' || ('\U{2000}' <= c <= '\U{200A}')
    || c == '\U{2028}' || c == '\U{2029}' || c == '\U{202F}' || c == '\U{205F}'
    || c == '\U{3000}' || c == '\U{FEFF}'
  }

  /** `s` without its leading white space. */
  function TrimStart(s: string): (r: string)
    ensures |r| <= |s| && r == s[|s| - |r|..]
    ensures forall i :: 0 <= i < |s| - |r| ==> IsWhiteSpace(s[i])
    ensures r == [] || !IsWhiteSpace(r[0])
  {
    if s != [] && IsWhiteSpace(s[0]) then TrimStart(s[1..]) else s
  }

  /** Length of the longest prefix of `s` made of decimal digits. */
  function DigitRun(s: string): (n: nat)
    ensures n <= |s|
    ensures forall i :: 0 <= i < n ==> IsDigit(s[i])
    ensures n == |s| || !IsDigit(s[n])
  {
    if s != [] && IsDigit(s[0]) then 1 + DigitRun(s[1..]) else 0
  }

  /** The value of a string of decimal digits, most significant first. */
  predicate AllDigits(ds: string)
  {
    forall i :: 0 <= i < |ds| ==> IsDigit(ds[i])
  }

  function Natural(ds: string): nat
    requires AllDigits(ds)
  {
    if ds == [] then 0 else Natural(ds[..|ds| - 1]) * 10 + DigitValue(ds[|ds| - 1])
  }

  function Pow10(n: nat): (p: nat)
    ensures p >= 1
  {
    if n == 0 then 1 else 10 * Pow10(n - 1)
  }

  /** Index of the first `c` in `s`, or `|s|` when there is none. */
  function IndexOf(s: string, c: char): (k: nat)
    ensures k <= |s|
    ensures forall j :: 0 <= j < k ==> s[j] != c
    ensures k < |s| ==> s[k] == c
  {
    if s == [] then 0 else if s[0] == c then 0 else 1 + IndexOf(s[1..], c)
  }

  /** `s.replace(from, to)` for one-character strings: only the first occurrence changes. */
  function ReplaceFirst(s: string, from: char, to: char): (r: string)
    ensures |r| == |s|
    ensures forall i :: 0 <= i < |s| ==> r[i] == if i == IndexOf(s, from) then to else s[i]
  {
    var k := IndexOf(s, from);
    if k < |s| then s[..k] + [to] + s[k + 1..] else s
  }

  /** An optional sign: whether it is a minus, and what follows it. */
  function SplitSign(t: string): (r: (bool, string))
    ensures r.1 == if t != [] && (t[0] == '-' || t[0] == '+') then t[1..] else t
    ensures r.0 <==> t != [] && t[0] == '-'
  {
    if t != [] && (t[0] == '-' || t[0] == '+') then (t[0] == '-', t[1..]) else (false, t)
  }

  /** Digits, optionally followed by `.` and more digits, with at least one digit in all:
      the digits before and after the point, and the text after them. */
  datatype Mantissa = Mantissa(whole: string, fraction: string, rest: string)

  predicate WellFormedMantissa(m: Mantissa)
  {
    AllDigits(m.whole) && AllDigits(m.fraction) && (m.whole != [] || m.fraction != [])
  }

  function ReadMantissa(u: string): (r: Option<Mantissa>)
    ensures r.Some? ==> WellFormedMantissa(r.value)
  {
    var n1 := DigitRun(u);
    var rest := u[n1..];
    if rest != [] && rest[0] == '.' then
      var n2 := DigitRun(rest[1..]);
      if n1 == 0 && n2 == 0 then None
      else Some(Mantissa(u[..n1], rest[1..1 + n2], rest[1 + n2..]))
    else if n1 == 0 then None
    else Some(Mantissa(u[..n1], [], rest))
  }

  /** The exponent part after a mantissa: `e` or `E`, an optional sign and at least one digit.
      Without a digit the exponent is not part of the number and counts as 0. */
  function Exponent(s: string): (e: int)
    ensures (|s| < 2 || (s[0] != 'e' && s[0] != 'E')) ==> e == 0
    ensures e < 0 ==> |s| >= 2 && s[1] == '-'
  {
    if |s| >= 2 && (s[0] == 'e' || s[0] == 'E') then
      var signed := s[1] == '+' || s[1] == '-';
      var digits := if signed then s[2..] else s[1..];
      var n := DigitRun(digits);
      if n == 0 then 0
      else if s[1] == '-' then -(Natural(digits[..n]) as int)
      else Natural(digits[..n])
    else 0
  }

  /** A decimal literal: sign, digits before and after the point, and a power of ten. */
  datatype Literal = Literal(negative: bool, whole: string, fraction: string, exponent: int)

  predicate WellFormedLiteral(l: Literal)
  {
    AllDigits(l.whole) && AllDigits(l.fraction)
  }

  /** The literal `parseFloat` reads at the start of `s`, or None where it yields NaN. */
  function ReadLiteral(s: string): (r: Option<Literal>)
    ensures r.Some? ==> WellFormedLiteral(r.value)
  {
    var signed := SplitSign(TrimStart(s));
    match ReadMantissa(signed.1)
    case None => None
    case Some(m) => Some(Literal(signed.0, m.whole, m.fraction, Exponent(m.rest)))
  }

  /** `whole.fraction` as a number. */
  function FixedPoint(whole: string, fraction: string): (v: real)
    requires AllDigits(whole) && AllDigits(fraction)
    ensures v >= 0.0
  {
    var f := Natural(fraction) as real;
    var d := Pow10(|fraction|) as real;
    NonNegativeQuotient(f, d);
    (Natural(whole) as real) + f / d
  }

  /** The literal's magnitude: its fixed-point value times ten to the exponent. */
  function Magnitude(l: Literal): (v: real)
    requires WellFormedLiteral(l)
    ensures v >= 0.0
  {
    var m := FixedPoint(l.whole, l.fraction);
    if l.exponent == 0 then m
    else if l.exponent > 0 then
      var p := Pow10(l.exponent) as real;
      NonNegativeProduct(m, p);
      m * p
    else
      var p := Pow10(-l.exponent) as real;
      NonNegativeQuotient(m, p);
      m / p
  }

  /** The literal's value: its magnitude, with the sign it was written with. */
  function Value(l: Literal): (v: real)
    requires WellFormedLiteral(l)
    ensures Abs(v) == Magnitude(l)
    ensures l.negative ==> v <= 0.0
    ensures !l.negative ==> v >= 0.0
  {
    if l.negative then -Magnitude(l) else Magnitude(l)
  }

  /** `parseFloat(s)`, with NaN as `None`: a number exactly when a literal is read, whose
      absolute value is the literal's magnitude and which is negative only behind a minus. */
  function ParseFloat(s: string): (r: Option<real>)
    ensures r.None? <==> ReadLiteral(s).None?
    ensures r.Some? ==> Abs(r.value) == Magnitude(ReadLiteral(s).value)
    ensures r.Some? && r.value < 0.0 ==> ReadLiteral(s).value.negative
  {
    match ReadLiteral(s)
    case None => None
    case Some(l) => Some(Value(l))
  }

  /** A number written with a leading minus sign is never positive. */
  lemma NegativeSignNotPositive(s: string)
    requires var t := TrimStart(s); t != [] && t[0] == '-'
    ensures ParseFloat(s).None? || ParseFloat(s).value <= 0.0
  {
  }

  /** Without a digit `parseFloat` yields NaN. */
  lemma {:induction false} NoDigitNoNumber(s: string)
    requires forall i :: 0 <= i < |s| ==> !IsDigit(s[i])
    ensures ParseFloat(s) == None
  {
    var t := TrimStart(s);
    var u := if t != [] && (t[0] == '-' || t[0] == '+') then t[1..] else t;
    assert forall i :: 0 <= i < |u| ==> !IsDigit(u[i]) by {
      forall i | 0 <= i < |u| ensures !IsDigit(u[i]) {
        assert u[i] == s[|s| - |u| + i];
      }
    }
    if u != [] {
      assert !IsDigit(u[0]);
    }
    var rest := u[DigitRun(u)..];
    assert rest == u;
    if rest != [] && rest[0] == '.' && |rest| > 1 {
      assert rest[1] == s[|s| - |u| + 1];
    }
  }

  lemma TrimStartKeeps(s: string)
    requires s == [] || !IsWhiteSpace(s[0])
    ensures TrimStart(s) == s
  {
  }

  /** The digit run of `ds + tail` is `ds` when `tail` does not start with a digit. */
  lemma {:induction false} DigitRunOfPrefix(ds: string, tail: string)
    requires AllDigits(ds)
    requires tail == [] || !IsDigit(tail[0])
    ensures DigitRun(ds + tail) == |ds|
    decreases |ds|
  {
    if ds != [] {
      assert (ds + tail)[1..] == ds[1..] + tail;
      DigitRunOfPrefix(ds[1..], tail);
    } else {
      assert ds + tail == tail;
    }
  }

  /** A digit string followed by text that starts with neither a digit nor `.`
      is a mantissa without fraction. */
  lemma WholeMantissa(ds: string, tail: string)
    requires ds != [] && AllDigits(ds)
    requires tail == [] || (!IsDigit(tail[0]) && tail[0] != '.')
    ensures ReadMantissa(ds + tail) == Some(Mantissa(ds, [], tail))
  {
    var u := ds + tail;
    DigitRunOfPrefix(ds, tail);
    assert u[..|ds|] == ds && u[|ds|..] == tail;
  }

  /** Digits, a point and digits followed by text that starts with no digit
      form a mantissa with a fraction. */
  lemma FractionMantissa(ds: string, fs: string, tail: string)
    requires AllDigits(ds) && fs != [] && AllDigits(fs)
    requires tail == [] || !IsDigit(tail[0])
    ensures ReadMantissa(ds + ['.'] + fs + tail) == Some(Mantissa(ds, fs, tail))
  {
    var u := ds + ['.'] + fs + tail;
    DigitRunOfPrefix(ds, ['.'] + fs + tail);
    assert u == ds + (['.'] + fs + tail);
    assert u[..|ds|] == ds && u[|ds|..] == ['.'] + fs + tail;
    var rest := ['.'] + fs + tail;
    DigitRunOfPrefix(fs, tail);
    assert rest[1..] == fs + tail;
    assert (fs + tail)[..|fs|] == fs;
    assert rest[1..1 + |fs|] == fs && rest[1 + |fs|..] == tail;
  }

  /** An unsigned mantissa is read as it stands, with the exponent that follows it. */
  lemma UnsignedLiteral(s: string, m: Mantissa)
    requires s != [] && (IsDigit(s[0]) || s[0] == '.')
    requires ReadMantissa(s) == Some(m)
    ensures ReadLiteral(s) == Some(Literal(false, m.whole, m.fraction, Exponent(m.rest)))
  {
    TrimStartKeeps(s);
    assert SplitSign(s) == (false, s);
  }

  /** A minus sign in front of an unsigned mantissa followed by no exponent negates it. */
  lemma NegatedLiteral(s: string, m: Mantissa)
    requires s != [] && (IsDigit(s[0]) || s[0] == '.')
    requires ReadMantissa(s) == Some(m)
    requires m.rest == [] || (m.rest[0] != 'e' && m.rest[0] != 'E')
    ensures ReadLiteral(['-'] + s) == Some(Literal(true, m.whole, m.fraction, 0))
  {
    TrimStartKeeps(['-'] + s);
    assert SplitSign(['-'] + s) == (true, s);
  }

  /** A digit string is a literal with no fraction and no exponent. */
  lemma DigitsLiteral(ds: string)
    requires ds != [] && AllDigits(ds)
    ensures ReadLiteral(ds) == Some(Literal(false, ds, [], 0))
  {
    WholeMantissa(ds, []);
    assert ds + [] == ds;
    UnsignedLiteral(ds, Mantissa(ds, [], []));
  }

  lemma IntegerValue(ds: string)
    requires AllDigits(ds)
    ensures Value(Literal(false, ds, [], 0)) == Natural(ds) as real
  {
    assert Natural([]) == 0;
    assert FixedPoint(ds, []) == Natural(ds) as real;
  }

  /** A plain digit string reads as its decimal value. */
  lemma DigitsReadAsNatural(ds: string)
    requires ds != [] && AllDigits(ds)
    ensures ParseFloat(ds) == Some(Natural(ds) as real)
  {
    DigitsLiteral(ds);
    IntegerValue(ds);
  }

  lemma FractionLiteral(ds: string, fs: string)
    requires ds != [] && AllDigits(ds) && fs != [] && AllDigits(fs)
    ensures ReadLiteral(ds + ['.'] + fs) == Some(Literal(false, ds, fs, 0))
  {
    FractionMantissa(ds, fs, []);
    assert ds + ['.'] + fs + [] == ds + ['.'] + fs;
    assert (ds + ['.'] + fs)[0] == ds[0];
    UnsignedLiteral(ds + ['.'] + fs, Mantissa(ds, fs, []));
  }

  /** Digits, a point and digits read as `whole + fraction / 10^|fraction|`. */
  lemma FractionReadsAsFixedPoint(ds: string, fs: string)
    requires ds != [] && AllDigits(ds) && fs != [] && AllDigits(fs)
    ensures ParseFloat(ds + ['.'] + fs) == Some(FixedPoint(ds, fs))
  {
    FractionLiteral(ds, fs);
  }

  /** `parseFloat("2.5")` is 2.5. */
  lemma ReadsDecimalFraction()
    ensures ParseFloat("2.5") == Some(2.5)
  {
    assert "2" + ['.'] + "5" == "2.5";
    FractionReadsAsFixedPoint("2", "5");
    TwoPointFive();
  }

  lemma SingleDigit(c: char)
    requires IsDigit(c)
    ensures Natural([c]) == DigitValue(c)
  {
    assert [c][..0] == [];
  }

  lemma TwoPointFive()
    ensures FixedPoint("2", "5") == 2.5
  {
    SingleDigit('2');
    SingleDigit('5');
    assert Pow10(1) == 10;
  }

  /** `parseFloat("-5")` is -5, a value the calibration rejects. */
  lemma ReadsNegativeNumber()
    ensures ParseFloat("-5") == Some(-5.0)
  {
    WholeMantissa("5", []);
    assert "5" + [] == "5" && ['-'] + "5" == "-5";
    NegatedLiteral("5", Mantissa("5", [], []));
    SingleDigit('5');
    IntegerValue("5");
  }

  lemma LeadingNumberLiteral()
    ensures ReadLiteral("12m") == Some(Literal(false, "12", [], 0))
  {
    WholeMantissa("12", "m");
    assert "12" + "m" == "12m";
    UnsignedLiteral("12m", Mantissa("12", [], "m"));
  }

  /** A number followed by other text reads as the number: `parseFloat("12m")` is 12. */
  lemma ReadsLeadingNumber()
    ensures ParseFloat("12m") == Some(12.0)
  {
    LeadingNumberLiteral();
    Twelve();
    IntegerValue("12");
  }

  lemma Twelve()
    ensures Natural("12") == 12
  {
    assert "12"[..1] == "1";
    SingleDigit('1');
  }

  /** An exponent of `e` or `E` and a digit string, followed by text that does not start
      with a digit, is that digit string's value. */
  lemma ExponentOfDigits(mark: char, ds: string, tail: string)
    requires mark == 'e' || mark == 'E'
    requires ds != [] && AllDigits(ds)
    requires tail == [] || !IsDigit(tail[0])
    ensures Exponent([mark] + ds + tail) == Natural(ds)
  {
    var s := [mark] + ds + tail;
    assert s[1..] == ds + tail;
    assert s[1] == ds[0];
    DigitRunOfPrefix(ds, tail);
    assert (ds + tail)[..|ds|] == ds;
  }

  /** The same with a sign after the mark: a minus negates the exponent, a plus does not. */
  lemma SignedExponentOfDigits(mark: char, sign: char, ds: string, tail: string)
    requires mark == 'e' || mark == 'E'
    requires sign == '+' || sign == '-'
    requires ds != [] && AllDigits(ds)
    requires tail == [] || !IsDigit(tail[0])
    ensures Exponent([mark, sign] + ds + tail) == if sign == '-' then -(Natural(ds) as int) else Natural(ds)
  {
    var s := [mark, sign] + ds + tail;
    assert s[2..] == ds + tail;
    DigitRunOfPrefix(ds, tail);
    assert (ds + tail)[..|ds|] == ds;
  }

  lemma ExponentThree()
    ensures Exponent("e3") == 3
  {
    ExponentOfDigits('e', "3", []);
    assert ['e'] + "3" + [] == "e3";
    SingleDigit('3');
  }

  lemma ExponentMantissa()
    ensures ReadMantissa("1e3") == Some(Mantissa("1", [], "e3"))
  {
    WholeMantissa("1", "e3");
    assert "1" + "e3" == "1e3";
  }

  lemma ExponentLiteral()
    ensures ReadLiteral("1e3") == Some(Literal(false, "1", [], 3))
  {
    ExponentMantissa();
    UnsignedLiteral("1e3", Mantissa("1", [], "e3"));
    ExponentThree();
  }

  lemma ThousandValue()
    ensures Value(Literal(false, "1", [], 3)) == 1000.0
  {
    SingleDigit('1');
    IntegerValue("1");
    assert FixedPoint("1", []) == 1.0;
    assert Pow10(3) == 1000;
  }

  /** `parseFloat("1e3")` is 1000: the exponent scales the mantissa. */
  lemma ReadsExponent()
    ensures ParseFloat("1e3") == Some(1000.0)
  {
    ExponentLiteral();
    ThousandValue();
  }

  /** Text with no digit, such as "abc", is not a number. */
  lemma RejectsLetters()
    ensures ParseFloat("abc") == None
  {
    NoDigitNoNumber("abc");
  }

  /** The empty string is not a number. */
  lemma RejectsEmpty()
    ensures ParseFloat("") == None
  {
    NoDigitNoNumber("");
  }
}
