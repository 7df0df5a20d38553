/** How an output stream prints a double (six significant digits, general notation), and
    what std::stod makes of that text. */
module Printing {
  import opened Decimal
  import opened Options

  /** Drops trailing zeros from the digits after the point. */
  function StripZeros(q: nat, places: nat): (r: (nat, nat))
    ensures r.1 <= places
  {
    if places > 0 && q % 10 == 0 then StripZeros(q / 10, places - 1) else (q, places)
  }

  function Fraction(n: nat, places: nat): string {
    if places == 0 then "" else "." + Padded(n, places)
  }

  /** `n` with its last `places` digits after the point. */
  function Layout(n: nat, places: nat, suffix: string): string {
    Digits(Dropped(n, places)) + (Fraction(n, places) + suffix)
  }

  function ExponentDigits(n: nat): string { if n < 10 then "0" + Digits(n) else Digits(n) }

  function ExponentText(e: int): string {
    if e < 0 then "e-" + ExponentDigits(-e) else "e+" + ExponentDigits(e)
  }

  /** Fixed notation for exponents from -4 to 5, scientific otherwise. */
  function SpellDigits(q: nat, places: nat, e: int): string {
    if e < -4 || e >= 6 then Layout(q, places, ExponentText(e))
    else if places <= e then Layout(Scaled(q, e - places), 0, "")
    else Layout(q, places - e, "")
  }

  function Spell(d: Scientific): string {
    var (q, places) := StripZeros(d.mantissa, 5);
    SpellDigits(q, places, d.exponent)
  }

  function PrintReal(x: real): string {
    if x == 0.0 then "0" else if x < 0.0 then "-" + Spell(SixDigits(-x)) else Spell(SixDigits(x))
  }

  lemma PrintsExact(d: Scientific, x: real, q: nat, places: nat)
    requires 100000 <= d.mantissa < 1000000 && Amount(d) == x && StripZeros(d.mantissa, 5) == (q, places)
    ensures PrintReal(x) == SpellDigits(q, places, d.exponent) && Printed(x) == x
    ensures PrintReal(-x) == "-" + SpellDigits(q, places, d.exponent)
  {
    SixDigitsExact(d);
  }

  lemma PrintsHalves()
    ensures PrintReal(1.5) == "1.5" && Printed(1.5) == 1.5
  {
    ShiftFive(150000.0, -5);
    assert StripZeros(150000, 5) == StripZeros(1500, 3) == (15, 1);
    PrintsExact(Scientific(150000, 0), 1.5, 15, 1);
    assert Digits(1) == "1" && Padded(15, 1) == "5";
  }

  lemma PrintsQuarters()
    ensures PrintReal(0.25) == "0.25" && Printed(0.25) == 0.25
  {
    ShiftFive(250000.0, -6);
    assert StripZeros(250000, 5) == StripZeros(2500, 3) == (25, 1);
    PrintsExact(Scientific(250000, -1), 0.25, 25, 1);
    assert Padded(2, 1) == "2" && Padded(25, 2) == "25" && Digits(0) == "0";
  }

  lemma PrintsTens()
    ensures PrintReal(-30.0) == "-30"
  {
    ShiftFive(300000.0, -4);
    assert StripZeros(300000, 5) == StripZeros(3000, 3) == StripZeros(30, 1) == (3, 0);
    PrintsExact(Scientific(300000, 1), 30.0, 3, 0);
    assert Scaled(3, 1) == 30 && Digits(3) == "3" && Digits(30) == "30";
  }

  lemma PrintsSmall()
    ensures PrintReal(0.00001) == "1e-05"
  {
    ShiftFive(100000.0, -5);
    ShiftFive(100000.0, -10);
    assert StripZeros(100000, 5) == StripZeros(1000, 3) == StripZeros(10, 1) == (1, 0);
    PrintsExact(Scientific(100000, -5), 0.00001, 1, 0);
    assert Digits(1) == "1" && ExponentText(-5) == "e-05";
  }

  lemma LargeDigits()
    ensures SixDigits(1999999.0) == Scientific(200000, 6)
  {
    ShiftFive(1999999.0, -6);
    ExponentIs(1999999.0, 6);
    ShiftStep(1999999.0, -1);
    assert Shift(1999999.0, 0) == 1999999.0;
  }

  lemma PrintsLarge()
    ensures PrintReal(1999999.0) == "2e+06"
  {
    LargeDigits();
    assert StripZeros(200000, 5) == StripZeros(2000, 3) == StripZeros(20, 1) == (2, 0);
    assert Digits(6) == "6" && ExponentText(6) == "e+06" && Digits(2) == "2";
  }

  /** Fixed notation, of either sign, and scientific notation for small numbers and for large ones,
      rounded. */
  lemma PrintsAs()
    ensures PrintReal(1.5) == "1.5" && PrintReal(0.25) == "0.25" && PrintReal(-30.0) == "-30"
    ensures PrintReal(0.00001) == "1e-05" && PrintReal(1999999.0) == "2e+06"
  {
    PrintsHalves();
    PrintsQuarters();
    PrintsTens();
    PrintsSmall();
    PrintsLarge();
  }

  // ---------- Reading back ----------

  lemma ExponentDigitsReadBack(n: nat)
    ensures |ExponentDigits(n)| > 0 && AllDigits(ExponentDigits(n)) && Value(ExponentDigits(n)) == n
  {
    DigitsReadBack(n);
    LeadingZero(Digits(n));
  }

  lemma ExponentReadBack(e: int)
    ensures ReadExponent(ExponentText(e)) == e
  {
    var d := ExponentDigits(if e < 0 then -e else e);
    ExponentDigitsReadBack(if e < 0 then -e else e);
    assert ExponentText(e)[1..][1..] == d;
    assert d[..|d|] == d;
    DigitRunIs(d, |d|);
  }

  /** A digit string followed by something else is read exactly that far. */
  lemma RunOfPrefix(digits: string, rest: string)
    requires AllDigits(digits)
    requires rest == "" || !IsDigit(rest[0])
    ensures DigitRun(digits + rest) == |digits|
    ensures (digits + rest)[..|digits|] == digits && (digits + rest)[|digits|..] == rest
  {
    assert (digits + rest)[..|digits|] == digits;
    DigitRunIs(digits + rest, |digits|);
  }

  /** Where the digits before the point end, and what follows them. */
  lemma LayoutParts(n: nat, places: nat, suffix: string)
    requires suffix != "" ==> suffix[0] == 'e'
    ensures var after := Fraction(n, places) + suffix;
            FractionDigits(after) == Padded(n, places) && AfterFraction(after) == suffix &&
            (after == "" || !IsDigit(after[0]))
  {
    PaddedShape(n, places);
    if places == 0 {
      assert Fraction(n, places) + suffix == suffix;
    } else {
      assert Fraction(n, places) + suffix == "." + (Padded(n, places) + suffix);
      FractionParts(Padded(n, places), suffix, Fraction(n, places) + suffix);
    }
  }

  lemma LayoutReadBack(n: nat, places: nat, suffix: string)
    requires suffix != "" ==> suffix[0] == 'e'
    ensures ReadReal(Layout(n, places, suffix)) == Some(Magnitude(n, places, ReadExponent(suffix)))
  {
    var whole := Digits(Dropped(n, places));
    DigitsReadBack(Dropped(n, places));
    CutReadBack(n, places);
    PaddedShape(n, places);
    LayoutParts(n, places, suffix);
    PartsReadBack(whole, Padded(n, places), Fraction(n, places) + suffix, suffix);
  }

  lemma PartsReadBack(whole: string, frac: string, after: string, suffix: string)
    requires whole != "" && AllDigits(whole) && (after == "" || !IsDigit(after[0]))
    requires FractionDigits(after) == frac && AfterFraction(after) == suffix
    ensures ReadReal(whole + after) == Some(Magnitude(Value(whole + frac), |frac|, ReadExponent(suffix)))
  {
    RunOfPrefix(whole, after);
  }

  lemma FractionParts(frac: string, suffix: string, after: string)
    requires AllDigits(frac) && (suffix != "" ==> suffix[0] == 'e') && after == "." + (frac + suffix)
    ensures FractionDigits(after) == frac && AfterFraction(after) == suffix
  {
    assert after[1..] == frac + suffix;
    RunOfPrefix(frac, suffix);
  }

  lemma {:induction false} StripZerosAmount(q: nat, places: nat, e: int)
    ensures Magnitude(StripZeros(q, places).0, StripZeros(q, places).1, e) == Magnitude(q, places, e)
  {
    if places > 0 && q % 10 == 0 {
      StripZerosAmount(q / 10, places - 1, e);
      ShiftTen((q / 10) as real, e - places);
    }
  }

  /** A reader that is right on every layout. */
  ghost predicate ReadsLayouts(read: string -> Option<real>) {
    forall n: nat, places: nat, suffix: string {:trigger Layout(n, places, suffix)} ::
      (suffix != "" ==> suffix[0] == 'e') ==>
      read(Layout(n, places, suffix)) == Some(Magnitude(n, places, ReadExponent(suffix)))
  }

  lemma SpellScientific(read: string -> Option<real>, q: nat, places: nat, e: int)
    requires ReadsLayouts(read) && (e < -4 || e >= 6)
    ensures read(SpellDigits(q, places, e)) == Some(Magnitude(q, places, e))
  {
    ExponentReadBack(e);
  }

  lemma SpellWhole(read: string -> Option<real>, q: nat, places: nat, e: int)
    requires ReadsLayouts(read) && -4 <= e < 6 && places <= e
    ensures read(SpellDigits(q, places, e)) == Some(Magnitude(q, places, e))
  {
    ShiftWhole(q, e - places);
    assert ReadExponent("") == 0;
    assert Magnitude(Scaled(q, e - places), 0, 0) == Scaled(q, e - places) as real;
  }

  lemma SpellPoint(read: string -> Option<real>, q: nat, places: nat, e: int)
    requires ReadsLayouts(read) && -4 <= e < 6 && places > e
    ensures read(SpellDigits(q, places, e)) == Some(Magnitude(q, places, e))
  {
    assert ReadExponent("") == 0;
  }

  lemma SpellReadBack(read: string -> Option<real>, d: Scientific)
    requires ReadsLayouts(read)
    ensures read(Spell(d)) == Some(Amount(d))
  {
    var (q, places) := StripZeros(d.mantissa, 5);
    if d.exponent < -4 || d.exponent >= 6 {
      SpellScientific(read, q, places, d.exponent);
    } else if places <= d.exponent {
      SpellWhole(read, q, places, d.exponent);
    } else {
      SpellPoint(read, q, places, d.exponent);
    }
    StripZerosAmount(d.mantissa, 5, d.exponent);
  }

  lemma RealsReadBack()
    ensures ReadsLayouts(ReadReal)
  {
    forall n: nat, places: nat, suffix: string | suffix != "" ==> suffix[0] == 'e'
      ensures ReadReal(Layout(n, places, suffix)) == Some(Magnitude(n, places, ReadExponent(suffix)))
    {
      LayoutReadBack(n, places, suffix);
    }
  }

  predicate StartsWithDigit(u: string) { u != "" && IsDigit(u[0]) }

  lemma LayoutStarts(n: nat, places: nat, suffix: string)
    ensures StartsWithDigit(Layout(n, places, suffix))
  {
    DigitsReadBack(Dropped(n, places));
  }

  /** What holds of every layout holds of what is spelled. */
  lemma SpelledHas(P: string -> bool, d: Scientific)
    requires forall n: nat, places: nat, suffix: string {:trigger Layout(n, places, suffix)} ::
               P(Layout(n, places, suffix))
    ensures P(Spell(d))
  {}

  lemma SpellStarts(d: Scientific)
    ensures StartsWithDigit(Spell(d))
  {
    forall n: nat, places: nat, suffix: string ensures StartsWithDigit(Layout(n, places, suffix)) {
      LayoutStarts(n, places, suffix);
    }
    SpelledHas(StartsWithDigit, d);
  }

  lemma SignParts(u: string)
    requires StartsWithDigit(u)
    ensures SkipSpaces(u) == u && Unsigned(u) == u && !Negative(u)
    ensures SkipSpaces("-" + u) == "-" + u && Unsigned("-" + u) == u && Negative("-" + u)
  {
    assert ("-" + u)[1..] == u;
  }

  lemma SignedReadBack(read: string -> Option<real>, range: real -> bool, u: string, v: real)
    requires StartsWithDigit(u) && read(u) == Some(v)
    ensures SignedReal(read, range, u) == Checked(range, v) && SignedReal(read, range, "-" + u) == Checked(range, -v)
  {
    SignParts(u);
  }

  lemma ZeroReads(read: string -> Option<real>, range: real -> bool)
    requires ReadsLayouts(read)
    ensures SignedReal(read, range, "0") == Checked(range, 0.0)
  {
    assert Layout(0, 0, "") == "0";
    assert Magnitude(0, 0, 0) == 0.0;
    SignedReadBack(read, range, "0", 0.0);
  }

  lemma SpelledReads(read: string -> Option<real>, range: real -> bool, d: Scientific)
    requires ReadsLayouts(read)
    ensures SignedReal(read, range, Spell(d)) == Checked(range, Amount(d))
    ensures SignedReal(read, range, "-" + Spell(d)) == Checked(range, -Amount(d))
  {
    SpellReadBack(read, d);
    SpellStarts(d);
    SignedReadBack(read, range, Spell(d), Amount(d));
  }

  /** A reader that is right on zero and on whatever is spelled is right on what is printed. */
  lemma PrintedSomehow(read: string -> Option<real>, range: real -> bool, x: real)
    requires read("0") == Checked(range, 0.0)
    requires forall d {:trigger Spell(d)} ::
               read(Spell(d)) == Checked(range, Amount(d)) && read("-" + Spell(d)) == Checked(range, -Amount(d))
    ensures read(PrintReal(x)) == Checked(range, Printed(x))
  {}

  lemma PrintedReads(read: string -> Option<real>, range: real -> bool, x: real)
    requires ReadsLayouts(read)
    ensures SignedReal(read, range, PrintReal(x)) == Checked(range, Printed(x))
  {
    var signed := (s: string) => SignedReal(read, range, s);
    ZeroReads(read, range);
    forall d
      ensures signed(Spell(d)) == Checked(range, Amount(d)) && signed("-" + Spell(d)) == Checked(range, -Amount(d))
    {
      SpelledReads(read, range, d);
    }
    PrintedSomehow(signed, range, x);
  }

  /** std::stod reads a printed double as its six-digit rounding, unless that is out of range. */
  lemma StodReadsPrinted(x: real)
    ensures Stod(PrintReal(x)) == if InRange(Printed(x)) then Some(Printed(x)) else None
  {
    RealsReadBack();
    PrintedReads(ReadReal, InRange, x);
  }

  /** Printing the rounded value prints the same text again. */
  lemma PrintStable(x: real)
    ensures PrintReal(Printed(x)) == PrintReal(x)
  {
    if x < 0.0 {
      SixDigitsExact(SixDigits(-x));
    } else if x > 0.0 {
      SixDigitsExact(SixDigits(x));
    }
  }

  // ---------- Shape and size ----------

  predicate NumberChar(c: char) { IsDigit(c) || c == '.' || c == '-' || c == '+' || c == 'e' }

  ghost predicate NumberText(s: string) { forall k :: 0 <= k < |s| ==> NumberChar(s[k]) }

  lemma LayoutShape(n: nat, places: nat, suffix: string)
    requires NumberText(suffix)
    ensures NumberText(Layout(n, places, suffix))
  {
    DigitsReadBack(Dropped(n, places));
    PaddedShape(n, places);
  }

  lemma SpellShape(q: nat, places: nat, e: int)
    ensures NumberText(SpellDigits(q, places, e))
  {
    ExponentDigitsReadBack(if e < 0 then -e else e);
    if e < -4 || e >= 6 {
      LayoutShape(q, places, ExponentText(e));
    } else if places <= e {
      LayoutShape(Scaled(q, e - places), 0, "");
    } else {
      LayoutShape(q, places - e, "");
    }
  }

  lemma PrintedShape(x: real)
    ensures NumberText(PrintReal(x))
  {
    if x != 0.0 {
      var d := SixDigits(if x < 0.0 then -x else x);
      SpellShape(StripZeros(d.mantissa, 5).0, StripZeros(d.mantissa, 5).1, d.exponent);
    }
  }

  lemma PrintedIntShape(i: int)
    ensures NumberText(PrintInt(i))
  {
    DigitsReadBack(if i < 0 then -i else i);
  }

  lemma {:induction false} StripZerosBound(q: nat, places: nat)
    requires q < Pow10(places + 1)
    ensures StripZeros(q, places).0 < Pow10(StripZeros(q, places).1 + 1)
  {
    if places > 0 && q % 10 == 0 {
      assert q / 10 < Pow10(places);
      StripZerosBound(q / 10, places - 1);
    }
  }

  lemma LayoutLength(n: nat, places: nat, suffix: string, whole: nat)
    requires whole > 0 && n < Pow10(whole + places)
    ensures |Layout(n, places, suffix)| <= whole + (if places == 0 then 0 else 1 + places) + |suffix|
  {
    DroppedBelow(n, places, whole);
    DigitsLength(Dropped(n, places), whole);
    PaddedShape(n, places);
  }

  lemma ExponentTextLength(e: int)
    requires -1000 < e < 1000
    ensures |ExponentText(e)| <= 5
  {
    var n := if e < 0 then -e else e;
    assert Pow10(3) == 1000;
    DigitsLength(n, 3);
    DigitsLength(n, 1);
    assert n < 10 ==> |Digits(n)| == 1;
  }

  lemma SpellDigitsLength(q: nat, places: nat, e: int)
    requires places <= 5 && q < Pow10(places + 1) && -1000 < e < 1000
    ensures |SpellDigits(q, places, e)| <= 12
  {
    if e < -4 || e >= 6 {
      ExponentTextLength(e);
      LayoutLength(q, places, ExponentText(e), 1);
    } else if places <= e {
      ScaledBelow(q, places + 1, e - places);
      LayoutLength(Scaled(q, e - places), 0, "", e + 1);
    } else if 0 <= e {
      LayoutLength(q, places - e, "", e + 1);
    } else {
      Pow10Grows(places + 1, -e);
      LayoutLength(q, places - e, "", 1);
    }
  }

  lemma {:induction false} ScaledBelow(q: nat, a: nat, k: nat)
    requires q < Pow10(a)
    ensures Scaled(q, k) < Pow10(a + k)
  {
    if k > 0 {
      ScaledBelow(q, a, k - 1);
      assert Pow10(a + k) == 10 * Pow10(a + (k - 1));
    }
  }

  lemma {:induction false} Pow10Grows(a: nat, b: nat)
    ensures Pow10(a) <= Pow10(a + b)
  {
    if b > 0 {
      Pow10Grows(a, b - 1);
      assert Pow10(a + b) == 10 * Pow10(a + (b - 1));
    }
  }

  lemma SpellLength(d: Scientific)
    requires d.mantissa < 1000000 && -1000 < d.exponent < 1000
    ensures |Spell(d)| <= 12
  {
    var (q, places) := StripZeros(d.mantissa, 5);
    assert Pow10(6) == 1000000;
    StripZerosBound(d.mantissa, 5);
    SpellDigitsLength(q, places, d.exponent);
  }

  /** Zero, or of a size a 64-bit double can hold. */
  predicate DoubleSized(x: real) {
    x == 0.0 || -324 <= Exponent(if x < 0.0 then -x else x) <= 308
  }

  lemma PrintedLength(x: real)
    requires DoubleSized(x)
    ensures |PrintReal(x)| <= 13
  {
    if x != 0.0 {
      SpellLength(SixDigits(if x < 0.0 then -x else x));
    }
  }
}
