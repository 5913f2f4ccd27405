/**
 * String operations the engine relies on: `str.lower` on ASCII letters,
 * `str.strip` over Python's whitespace, `str.startswith`, `", ".join`, the
 * plain decimal forms accepted by Python's `float(str)` and `int(str)`, and
 * two-decimal money formatting.
 */
module Text {
  import opened Wrappers

  // ---------------------------------------------------------------- case

  predicate IsUpper(c: char) { 'A' <= c <= 'Z' }

  function LowerChar(c: char): char {
    if IsUpper(c) then (c as int + 32) as char else c
  }

  /** `s.lower()` on ASCII letters; every other character is kept. */
  function Lower(s: string): (r: string)
    ensures |r| == |s|
    ensures forall i :: 0 <= i < |s| ==> r[i] == LowerChar(s[i])
  {
    seq(|s|, i requires 0 <= i < |s| => LowerChar(s[i]))
  }

  lemma LowerHasNoUpper(s: string)
    ensures forall i :: 0 <= i < |Lower(s)| ==> !IsUpper(Lower(s)[i])
  {
  }

  /** Lower-casing twice is lower-casing once. */
  lemma LowerIdempotent(s: string)
    ensures Lower(Lower(s)) == Lower(s)
  {
  }

  /** A string without upper-case letters is its own lower-case form. */
  lemma LowerOfLower(s: string)
    requires forall i :: 0 <= i < |s| ==> !IsUpper(s[i])
    ensures Lower(s) == s
  {
  }

  // ---------------------------------------------------------------- whitespace

  /**
   * The characters `str.isspace()` accepts, which `str.strip()` removes and
   * `int()` and `float()` skip around a numeral: tab to carriage return, the
   * four information separators U+1C to U+1F, space, U+85, U+A0, U+1680,
   * U+2000 to U+200A, the line and paragraph separators, U+202F, U+205F and U+3000.
   */
  predicate IsSpace(c: char) {
    || '\t' <= c <= '\r'
    || '\U{1C}' <= c <= ' '
    || c == '\U{85}' || c == '\U{A0}' || c == '\U{1680}'
    || '\U{2000}' <= c <= '\U{200A}'
    || c == '\U{2028}' || c == '\U{2029}' || c == '\U{202F}' || c == '\U{205F}' || c == '\U{3000}'
  }

  /** The number of whitespace characters at the start of `s`. */
  function LeadingSpace(s: string): (n: nat)
    ensures n <= |s|
    ensures forall k :: 0 <= k < n ==> IsSpace(s[k])
    ensures n < |s| ==> !IsSpace(s[n])
  {
    if s == [] || !IsSpace(s[0]) then 0 else 1 + LeadingSpace(s[1..])
  }

  /** The length of `s` once trailing whitespace is removed. */
  function TrailingStart(s: string): (n: nat)
    ensures n <= |s|
    ensures forall k :: n <= k < |s| ==> IsSpace(s[k])
    ensures n > 0 ==> !IsSpace(s[n - 1])
  {
    if s == [] || !IsSpace(s[|s| - 1]) then |s| else TrailingStart(s[..|s| - 1])
  }

  /** `s.strip()`: the longest slice of `s` that neither starts nor ends with whitespace. */
  function Strip(s: string): (r: string)
    ensures r == [] || (!IsSpace(r[0]) && !IsSpace(r[|r| - 1]))
  {
    var i := LeadingSpace(s);
    var t := s[i..];
    t[..TrailingStart(t)]
  }

  /** Stripping leaves nothing exactly when `s` is all whitespace. */
  lemma StripEmptyIffBlank(s: string)
    ensures Strip(s) == [] <==> forall k :: 0 <= k < |s| ==> IsSpace(s[k])
  {
    var i := LeadingSpace(s);
    var t := s[i..];
    if i < |s| {
      assert !IsSpace(t[0]);
      assert TrailingStart(t) > 0;
    }
  }

  /** A string with no whitespace at either end is left alone. */
  lemma StripUnpadded(s: string)
    requires s == [] || (!IsSpace(s[0]) && !IsSpace(s[|s| - 1]))
    ensures Strip(s) == s
  {
  }

  // ---------------------------------------------------------------- prefixes and joining

  /** `s.startswith(p)`. */
  predicate StartsWith(s: string, p: string) { p <= s }

  /** `sep.join(parts)`. */
  function Join(parts: seq<string>, sep: string): (r: string)
    ensures parts == [] ==> r == []
    ensures |parts| == 1 ==> r == parts[0]
  {
    if parts == [] then []
    else if |parts| == 1 then parts[0]
    else parts[0] + sep + Join(parts[1..], sep)
  }

  // ---------------------------------------------------------------- digits

  predicate IsDigit(c: char) { '0' <= c <= '9' }

  predicate AllDigits(s: string) { forall k :: 0 <= k < |s| ==> IsDigit(s[k]) }

  function DigitValue(c: char): nat
    requires IsDigit(c)
  {
    c as int - '0' as int
  }

  function DigitChar(d: nat): (c: char)
    requires d < 10
    ensures IsDigit(c) && DigitValue(c) == d
  {
    ('0' as int + d) as char
  }

  /** The number a string of decimal digits denotes (the empty string denotes 0). */
  function DigitsValue(s: string): nat
    requires AllDigits(s)
  {
    if s == [] then 0 else DigitsValue(s[..|s| - 1]) * 10 + DigitValue(s[|s| - 1])
  }

  function Pow10(n: nat): (r: nat)
    ensures r >= 1
  {
    if n == 0 then 1 else 10 * Pow10(n - 1)
  }

  /** The decimal numeral of `n`, without leading zeros. */
  function NatToString(n: nat): (s: string)
    ensures |s| > 0 && AllDigits(s)
    ensures |s| > 1 ==> s[0] != '0'
    decreases n
  {
    if n < 10 then [DigitChar(n)] else NatToString(n / 10) + [DigitChar(n % 10)]
  }

  /** Reading back a numeral gives the number it was printed from. */
  lemma {:induction false} DigitsValueOfNatToString(n: nat)
    ensures DigitsValue(NatToString(n)) == n
    decreases n
  {
    if n >= 10 {
      var s := NatToString(n);
      assert s[..|s| - 1] == NatToString(n / 10);
      DigitsValueOfNatToString(n / 10);
    }
  }

  // ---------------------------------------------------------------- int(str) and float(str)

  predicate IsSign(c: char) { c == '+' || c == '-' }

  /** The first index of `c` in `s`, when there is one. */
  function IndexOf(s: string, c: char): (r: Option<nat>)
    ensures r.None? <==> c !in s
    ensures r.Some? ==> r.value < |s| && s[r.value] == c && c !in s[..r.value]
  {
    if s == [] then None
    else if s[0] == c then Some(0)
    else match IndexOf(s[1..], c)
      case None => None
      case Some(i) => assert s[1..][..i] == s[1..i + 1]; Some(i + 1)
  }

  /** `int(s)` for a string: optional surrounding whitespace, an optional sign, one or more digits. */
  function ParseInt(s: string): Option<int> {
    var t := Strip(s);
    if |t| > 0 && IsSign(t[0]) then
      var ds := t[1..];
      if |ds| > 0 && AllDigits(ds) then
        Some(if t[0] == '-' then -(DigitsValue(ds) as int) else DigitsValue(ds) as int)
      else None
    else if |t| > 0 && AllDigits(t) then Some(DigitsValue(t) as int)
    else None
  }

  /** The value of a whole part and a fraction written in decimal digits. */
  function PointedValue(whole: string, frac: string): real
    requires AllDigits(whole) && AllDigits(frac)
  {
    DigitsValue(whole) as real + DigitsValue(frac) as real / Pow10(|frac|) as real
  }

  /** An unsigned decimal numeral with an optional point and at least one digit: `7`, `7.`, `.5`, `7.25`. */
  function ParseUnsignedDecimal(t: string): Option<real> {
    match IndexOf(t, '.')
    case None =>
      if |t| > 0 && AllDigits(t) then Some(DigitsValue(t) as real) else None
    case Some(i) =>
      var whole, frac := t[..i], t[i + 1..];
      if AllDigits(whole) && AllDigits(frac) && |whole| + |frac| > 0 then
        Some(PointedValue(whole, frac))
      else None
  }

  /** `float(s)` for a string written in plain decimal notation. */
  function ParseDecimal(s: string): Option<real> {
    var t := Strip(s);
    if |t| > 0 && IsSign(t[0]) then
      match ParseUnsignedDecimal(t[1..])
      case None => None
      case Some(x) => Some(if t[0] == '-' then -x else x)
    else ParseUnsignedDecimal(t)
  }

  lemma AllDigitsHasNoSpaceNorPoint(s: string)
    requires AllDigits(s)
    ensures '.' !in s
    ensures s == [] || (!IsSpace(s[0]) && !IsSpace(s[|s| - 1]) && !IsSign(s[0]))
  {
  }

  /** `int(str(n))` gives `n` back. */
  lemma ParseIntOfNatToString(n: nat)
    ensures ParseInt(NatToString(n)) == Some(n as int)
  {
    var s := NatToString(n);
    AllDigitsHasNoSpaceNorPoint(s);
    StripUnpadded(s);
    DigitsValueOfNatToString(n);
  }

  /** `float(str(n))` gives `n` back. */
  lemma ParseDecimalOfNatToString(n: nat)
    ensures ParseDecimal(NatToString(n)) == Some(n as real)
  {
    var s := NatToString(n);
    AllDigitsHasNoSpaceNorPoint(s);
    StripUnpadded(s);
    DigitsValueOfNatToString(n);
  }

  // ---------------------------------------------------------------- money

  /** `x` in whole cents, rounding half to even. */
  function Cents(x: real): int {
    var c := (x * 100.0).Floor;
    var f := x * 100.0 - c as real;
    if f > 0.5 || (f == 0.5 && c % 2 == 1) then c + 1 else c
  }

  /** Rounding to cents moves the amount by at most half a cent. */
  lemma CentsNear(x: real)
    ensures -0.005 <= Cents(x) as real / 100.0 - x <= 0.005
  {
  }

  /** Two decimal digits, zero-padded. */
  function TwoDigits(n: nat): (s: string)
    requires n < 100
    ensures |s| == 2 && AllDigits(s) && DigitsValue(s) == n
  {
    var s := [DigitChar(n / 10), DigitChar(n % 10)];
    assert s[..1] == [s[0]] && [s[0]][..0] == [];
    assert DigitsValue(s[..1]) == n / 10;
    s
  }

  /** A signed number of cents written as units, a point and two digits. */
  function CentsText(c: int): string {
    var a: nat := if c < 0 then -c else c;
    (if c < 0 then "-" else "") + NatToString(a / 100) + "." + TwoDigits(a % 100)
  }

  /** Half-to-even rounding is symmetric: negating the amount negates its cents. */
  lemma CentsNegated(x: real)
    ensures Cents(-x) == -Cents(x)
  {
    var y := x * 100.0;
    var c := y.Floor;
    var f := y - c as real;
    assert -x * 100.0 == -y;
    if f == 0.0 {
      assert (-y).Floor == -c;
    } else {
      assert (-c - 1) as real <= -y < (-c) as real;
      assert (-y).Floor == -c - 1;
      assert -y - (-c - 1) as real == 1.0 - f;
    }
  }

  /**
   * `f"{x:.2f}"`: a minus sign for a negative amount, even one that rounds to
   * zero, then the size of the amount rounded to cents.
   */
  function Money(x: real): string {
    if x < 0.0 then "-" + CentsText(Cents(-x)) else CentsText(Cents(x))
  }

  /** The text of a negative amount starts with a minus sign, and that of any other amount with a digit. */
  lemma MoneySign(x: real)
    ensures x < 0.0 ==> Money(x)[0] == '-'
    ensures x >= 0.0 ==> IsDigit(Money(x)[0])
  {
    if x >= 0.0 {
      assert Cents(x) >= 0;
      CentsTextNonNegative(Cents(x));
    }
  }

  /** In digits, a point and more digits, the first point is the one after the whole part. */
  lemma PointAfterWhole(w: string, f: string)
    requires AllDigits(w)
    ensures var u := w + "." + f; IndexOf(u, '.') == Some(|w|) && u[..|w|] == w && u[|w| + 1..] == f
  {
    var u := w + "." + f;
    AllDigitsHasNoSpaceNorPoint(w);
    assert u[|w|] == '.';
    assert u[..|w|] == w;
  }

  /** Once the point is found, an unsigned decimal reads as its whole part plus its scaled fraction. */
  lemma ParseUnsignedAtPoint(u: string, w: string, f: string)
    requires IndexOf(u, '.') == Some(|w|) && u[..|w|] == w && u[|w| + 1..] == f
    requires AllDigits(w) && AllDigits(f) && |f| > 0
    ensures ParseUnsignedDecimal(u) == Some(PointedValue(w, f))
  {
  }

  /** Digits, a point and two digits read as the whole part plus hundredths. */
  lemma ParseUnsignedOfPointed(w: string, f: string)
    requires AllDigits(w) && AllDigits(f) && |f| == 2
    ensures ParseUnsignedDecimal(w + "." + f) == Some(DigitsValue(w) as real + DigitsValue(f) as real / 100.0)
  {
    PointAfterWhole(w, f);
    ParseUnsignedAtPoint(w + "." + f, w, f);
    assert Pow10(|f|) == 100;
    Hundredths(DigitsValue(w) as real, DigitsValue(f) as real, Pow10(|f|));
  }

  /** A fraction written with two digits counts hundredths. */
  lemma Hundredths(whole: real, frac: real, scale: int)
    requires scale == 100
    ensures whole + frac / scale as real == whole + frac / 100.0
  {
  }

  /** The unsigned part of a formatted amount reads back as whole units plus cents. */
  lemma ParseUnsignedOfUnitsAndCents(q: nat, r: nat)
    requires r < 100
    ensures ParseUnsignedDecimal(NatToString(q) + "." + TwoDigits(r)) == Some(q as real + r as real / 100.0)
  {
    DigitsValueOfNatToString(q);
    ParseUnsignedOfPointed(NatToString(q), TwoDigits(r));
  }

  lemma ParseDecimalUnsigned(u: string)
    requires u != [] && !IsSpace(u[0]) && !IsSpace(u[|u| - 1]) && !IsSign(u[0])
    ensures ParseDecimal(u) == ParseUnsignedDecimal(u)
  {
    StripUnpadded(u);
  }

  lemma UnitsAndCents(a: nat)
    ensures (a / 100) as real + (a % 100) as real / 100.0 == a as real / 100.0
  {
  }

  lemma ParseUnsignedOfCents(a: nat)
    ensures ParseUnsignedDecimal(NatToString(a / 100) + "." + TwoDigits(a % 100)) == Some(a as real / 100.0)
  {
    ParseUnsignedOfUnitsAndCents(a / 100, a % 100);
    UnitsAndCents(a);
  }

  lemma CentsTextNonNegative(a: nat)
    ensures var u := CentsText(a);
      u != [] && IsDigit(u[0]) && IsDigit(u[|u| - 1]) && ParseUnsignedDecimal(u) == Some(a as real / 100.0)
  {
    var t := TwoDigits(a % 100);
    var u := NatToString(a / 100) + "." + t;
    ParseUnsignedOfCents(a);
    assert CentsText(a) == u;
    assert u[0] == NatToString(a / 100)[0];
    assert u[|u| - 1] == t[1];
  }

  lemma CentsTextNegative(c: int)
    requires c < 0
    ensures CentsText(c) == "-" + CentsText(-c)
  {
  }

  lemma ParseDecimalOfCentsTextNonNegative(c: nat)
    ensures ParseDecimal(CentsText(c)) == Some(c as real / 100.0)
  {
    CentsTextNonNegative(c);
    ParseDecimalUnsigned(CentsText(c));
  }

  lemma ParseDecimalOfCentsTextNegative(c: int)
    requires c < 0
    ensures ParseDecimal(CentsText(c)) == Some(c as real / 100.0)
  {
    CentsTextNonNegative(-c);
    CentsTextNegative(c);
    ParseDecimalNegated(c, CentsText(c), CentsText(-c));
  }

  /** Reading a cents text back gives the amount it was written from. */
  lemma ParseDecimalOfCentsText(c: int)
    ensures ParseDecimal(CentsText(c)) == Some(c as real / 100.0)
  {
    if c < 0 { ParseDecimalOfCentsTextNegative(c); } else { ParseDecimalOfCentsTextNonNegative(c); }
  }

  /** A positive amount never rounds to a negative number of cents. */
  lemma CentsNearZero(x: real)
    requires x > 0.0
    ensures Cents(x) >= 0
  {
    assert (x * 100.0).Floor >= 0;
  }

  /** A minus sign before an unpadded amount text reads as the negated amount. */
  lemma ParseDecimalNegated(c: int, m: string, u: string)
    requires m == "-" + u && u != [] && !IsSpace(u[|u| - 1])
    requires ParseUnsignedDecimal(u) == Some((-c) as real / 100.0)
    ensures ParseDecimal(m) == Some(c as real / 100.0)
  {
    StripUnpadded(m);
    assert m[1..] == u;
  }

  /** A negative amount that rounds to zero cents is written `-0.00`, which reads as zero. */
  lemma ParseDecimalOfMinusZero(m: string)
    requires m == "-" + CentsText(0)
    ensures ParseDecimal(m) == Some(0.0)
  {
    CentsTextNonNegative(0);
    ParseDecimalNegated(0, m, CentsText(0));
  }

  /**
   * Unless a negative amount rounds to zero cents, its text is that of its
   * signed cents.
   */
  lemma MoneyOfCents(x: real)
    requires x >= 0.0 || Cents(-x) != 0
    ensures Money(x) == CentsText(Cents(x))
  {
    if x < 0.0 {
      var k := Cents(-x);
      CentsNearZero(-x);
      CentsNegated(x);
      CentsTextNegative(-k);
    }
  }

  /** A negative amount that rounds to zero cents keeps its sign: it is written `-0.00`. */
  lemma ZeroMoneyText(x: real)
    requires x < 0.0 && Cents(-x) == 0
    ensures Money(x) == "-0.00"
  {
    assert NatToString(0) == "0";
    assert TwoDigits(0) == "00";
  }

  /** `f"{-0.004:.2f}"` is `-0.00`. */
  lemma MoneyOfTinyNegative()
    ensures Money(-0.004) == "-0.00"
  {
    assert (0.004 * 100.0).Floor == 0;
    ZeroMoneyText(-0.004);
  }

  /** A negative amount that rounds to zero cents reads back as zero. */
  lemma ParseDecimalOfZeroMoney(x: real)
    requires x < 0.0 && Cents(-x) == 0
    ensures ParseDecimal(Money(x)) == Some(Cents(x) as real / 100.0)
  {
    calc {
      ParseDecimal(Money(x));
      { ParseDecimalOfMinusZero(Money(x)); }
      Some(0.0);
      { CentsNegated(x); }
      Some(Cents(x) as real / 100.0);
    }
  }

  /** Any other amount reads back through the text of its signed cents. */
  lemma ParseDecimalOfCentsMoney(x: real)
    requires x >= 0.0 || Cents(-x) != 0
    ensures ParseDecimal(Money(x)) == Some(Cents(x) as real / 100.0)
  {
    var c := Cents(x);
    var m := Money(x);
    calc {
      ParseDecimal(m);
      { MoneyOfCents(x); }
      ParseDecimal(CentsText(c));
      { ParseDecimalOfCentsText(c); }
      Some(c as real / 100.0);
    }
  }

  /** Reading a formatted amount back gives the amount rounded to cents. */
  lemma ParseDecimalOfMoney(x: real)
    ensures ParseDecimal(Money(x)) == Some(Cents(x) as real / 100.0)
  {
    if x < 0.0 && Cents(-x) == 0 {
      ParseDecimalOfZeroMoney(x);
    } else {
      ParseDecimalOfCentsMoney(x);
    }
  }
}
