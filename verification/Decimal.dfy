/** Decimal text: what an output stream prints for integers and doubles, and what
    std::stoi, std::stoull and std::stod read back. Doubles are modelled as reals. */
module Decimal {

  import opened Options

  // ---------- Digits ----------

  predicate IsDigit(c: char) { '0' <= c <= '9' }

  ghost predicate AllDigits(s: string) { forall k :: 0 <= k < |s| ==> IsDigit(s[k]) }

  function DigitChar(d: nat): (c: char)
    requires d < 10
    ensures IsDigit(c) && c as int - '0' as int == d
  {
    ('0' as int + d) as char
  }

  function Pow10(k: nat): (p: nat)
    ensures p > 0
  {
    if k == 0 then 1 else 10 * Pow10(k - 1)
  }

  /** `n` without leading zeros. */
  function Digits(n: nat): string {
    if n < 10 then [DigitChar(n)] else Digits(n / 10) + [DigitChar(n % 10)]
  }

  /** The last `j` digits of `n`, with leading zeros. */
  function Padded(n: nat, j: nat): string {
    if j == 0 then "" else Padded(n / 10, j - 1) + [DigitChar(n % 10)]
  }

  function Value(s: string): nat {
    if s == "" then 0
    else
      var c := s[|s| - 1];
      10 * Value(s[..|s| - 1]) + if IsDigit(c) then c as int - '0' as int else 0
  }

  lemma ValueSnoc(s: string, d: nat)
    requires d < 10
    ensures Value(s + [DigitChar(d)]) == 10 * Value(s) + d
  {
    assert (s + [DigitChar(d)])[..|s|] == s;
  }

  lemma {:induction false} DigitsReadBack(n: nat)
    ensures |Digits(n)| > 0 && AllDigits(Digits(n)) && Value(Digits(n)) == n
  {
    if n < 10 {
      ValueSnoc("", n);
    } else {
      DigitsReadBack(n / 10);
      ValueSnoc(Digits(n / 10), n % 10);
    }
  }

  /** A number has at most `d` digits exactly when it is below the `d`-th power of ten. */
  lemma {:induction false} DigitsLength(n: nat, d: nat)
    requires d > 0
    ensures |Digits(n)| <= d <==> n < Pow10(d)
    decreases n
  {
    DigitsReadBack(n);
    if n >= 10 {
      if d == 1 {
        DigitsReadBack(n / 10);
        assert Pow10(1) == 10 * Pow10(0);
      } else {
        DigitsLength(n / 10, d - 1);
        assert n / 10 < Pow10(d - 1) <==> n < 10 * Pow10(d - 1);
      }
    }
  }

  /** `n` without its last `j` digits. */
  function Dropped(n: nat, j: nat): nat {
    if j == 0 then n else Dropped(n / 10, j - 1)
  }

  lemma {:induction false} PaddedShape(n: nat, j: nat)
    ensures |Padded(n, j)| == j && AllDigits(Padded(n, j))
  {
    if j > 0 {
      PaddedShape(n / 10, j - 1);
    }
  }

  lemma ValueAppended(s: string, t: string, d: nat)
    requires d < 10
    ensures Value(s + (t + [DigitChar(d)])) == 10 * Value(s + t) + d
  {
    ValueSnoc(s + t, d);
    assert s + (t + [DigitChar(d)]) == (s + t) + [DigitChar(d)];
  }

  /** The dropped digits and the padded ones spell the number again. */
  lemma {:induction false} CutReadBack(n: nat, j: nat)
    ensures Value(Digits(Dropped(n, j)) + Padded(n, j)) == n
  {
    var whole := Digits(Dropped(n, j));
    if j == 0 {
      DigitsReadBack(n);
      assert whole + "" == whole;
    } else {
      CutReadBack(n / 10, j - 1);
      ValueAppended(whole, Padded(n / 10, j - 1), n % 10);
    }
  }

  lemma {:induction false} DroppedBelow(n: nat, j: nat, d: nat)
    requires n < Pow10(d + j)
    ensures Dropped(n, j) < Pow10(d)
  {
    if j > 0 {
      assert n / 10 < Pow10(d + (j - 1));
      DroppedBelow(n / 10, j - 1, d);
    }
  }

  lemma {:induction false} LeadingZero(s: string)
    ensures Value("0" + s) == Value(s)
  {
    if s == "" {
      ValueSnoc("", 0);
      assert "0" + s == "" + [DigitChar(0)];
    } else {
      assert ("0" + s)[..|s|] == "0" + s[..|s| - 1];
      LeadingZero(s[..|s| - 1]);
    }
  }

  // ---------- Scanning ----------

  /** The length of the longest prefix made of digits. */
  function DigitRun(s: string): (n: nat)
    ensures n <= |s| && AllDigits(s[..n])
    ensures n < |s| ==> !IsDigit(s[n])
  {
    if s == "" || !IsDigit(s[0]) then 0
    else
      var n := 1 + DigitRun(s[1..]);
      assert s[..n] == [s[0]] + s[1..][..n - 1];
      n
  }

  lemma {:induction false} DigitRunIs(s: string, n: nat)
    requires n <= |s| && AllDigits(s[..n])
    requires n < |s| ==> !IsDigit(s[n])
    ensures DigitRun(s) == n
  {
    if n > 0 {
      assert s[1..][..n - 1] == s[..n][1..];
      assert s[..n][0] == s[0];
      DigitRunIs(s[1..], n - 1);
    }
  }

  predicate IsSpace(c: char) { c == ' ' || 9 <= c as int <= 13 }

  function SkipSpaces(s: string): string {
    if s != "" && IsSpace(s[0]) then SkipSpaces(s[1..]) else s
  }

  predicate Negative(s: string) { s != "" && s[0] == '-' }

  function Unsigned(s: string): string {
    if s != "" && (s[0] == '-' || s[0] == '+') then s[1..] else s
  }

  // ---------- Integers ----------

  type Int32 = i: int | -0x8000_0000 <= i < 0x8000_0000
  type UInt64 = i: int | 0 <= i < 0x1_0000_0000_0000_0000

  /** Decimal strtol: spaces, a sign, then at least one digit; what follows is ignored. */
  function ReadMagnitude(s: string): Option<nat> {
    var u := Unsigned(SkipSpaces(s));
    var n := DigitRun(u);
    if n == 0 then None else Some(Value(u[..n]))
  }

  /** std::stoi: None is an exception, either for no digits or for a value outside 32 bits. */
  function Stoi(s: string): Option<Int32> {
    match ReadMagnitude(s)
    case None => None
    case Some(v) =>
      var i: int := if Negative(SkipSpaces(s)) then -(v as int) else v;
      if -0x8000_0000 <= i < 0x8000_0000 then Some(i) else None
  }

  /** std::stoull: a minus sign negates modulo 2^64. */
  function Stoull(s: string): Option<UInt64> {
    match ReadMagnitude(s)
    case None => None
    case Some(v) =>
      if v >= 0x1_0000_0000_0000_0000 then None
      else if Negative(SkipSpaces(s)) && v != 0 then Some(0x1_0000_0000_0000_0000 - v)
      else Some(v)
  }

  function PrintInt(i: int): string {
    if i < 0 then "-" + Digits(-i) else Digits(i)
  }

  lemma ReadPrinted(i: int)
    ensures Negative(SkipSpaces(PrintInt(i))) <==> i < 0
    ensures ReadMagnitude(PrintInt(i)) == Some(if i < 0 then -i else i)
  {
    var n := if i < 0 then -i else i;
    var d := Digits(n);
    DigitsReadBack(n);
    assert IsDigit(d[0]);
    assert ("-" + d)[1..] == d;
    assert d[..|d|] == d;
    DigitRunIs(d, |d|);
  }

  lemma StoiReadsPrinted(i: Int32)
    ensures Stoi(PrintInt(i)) == Some(i)
  {
    ReadPrinted(i);
  }

  lemma StoullReadsPrinted(i: UInt64)
    ensures Stoull(PrintInt(i)) == Some(i)
  {
    ReadPrinted(i);
  }

  /** Any other integer: std::stoi refuses one outside 32 bits, and std::stoull one whose magnitude
      takes more than 64, but reads a negative one modulo 2^64. */
  lemma OthersRead(i: int)
    ensures !(-0x8000_0000 <= i < 0x8000_0000) ==> Stoi(PrintInt(i)) == None
    ensures i >= 0x1_0000_0000_0000_0000 || -i >= 0x1_0000_0000_0000_0000 ==> Stoull(PrintInt(i)) == None
    ensures -0x1_0000_0000_0000_0000 < i < 0 ==> Stoull(PrintInt(i)) == Some(0x1_0000_0000_0000_0000 + i)
  {
    ReadPrinted(i);
  }

  // ---------- Moving the decimal point ----------

  /** `x` times ten to the `k`. */
  function Shift(x: real, k: int): real
    decreases if k < 0 then -k else k
  {
    if k == 0 then x else if k > 0 then 10.0 * Shift(x, k - 1) else Shift(x, k + 1) / 10.0
  }

  lemma ShiftStep(x: real, k: int)
    ensures Shift(x, k + 1) == 10.0 * Shift(x, k)
  {}

  lemma {:induction false} ShiftTen(x: real, k: int)
    ensures Shift(10.0 * x, k) == Shift(x, k + 1)
    decreases if k < 0 then -k else k
  {
    if k > 0 {
      ShiftTen(x, k - 1);
    } else if k < 0 {
      ShiftTen(x, k + 1);
      ShiftStep(x, k + 1);
    }
  }

  lemma {:induction false} ShiftAdd(x: real, a: int, b: int)
    ensures Shift(Shift(x, a), b) == Shift(x, a + b)
    decreases if b < 0 then -b else b
  {
    if b > 0 {
      ShiftAdd(x, a, b - 1);
      ShiftStep(x, a + b - 1);
    } else if b < 0 {
      ShiftAdd(x, a, b + 1);
      ShiftStep(x, a + b);
    }
  }

  lemma {:induction false} ShiftMonotone(x: real, y: real, k: int)
    requires x <= y
    ensures Shift(x, k) <= Shift(y, k)
    ensures x < y ==> Shift(x, k) < Shift(y, k)
    decreases if k < 0 then -k else k
  {
    if k > 0 {
      ShiftMonotone(x, y, k - 1);
    } else if k < 0 {
      ShiftMonotone(x, y, k + 1);
    }
  }

  lemma {:induction false} ShiftUp(x: real, k: nat)
    requires x >= 0.0
    ensures Shift(x, k) >= x
  {
    if k > 0 {
      ShiftUp(x, k - 1);
    }
  }

  lemma {:induction false} ShiftPositive(x: real, k: int)
    requires x > 0.0
    ensures Shift(x, k) > 0.0
    decreases if k < 0 then -k else k
  {
    if k > 0 {
      ShiftPositive(x, k - 1);
    } else if k < 0 {
      ShiftPositive(x, k + 1);
    }
  }

  lemma {:induction false} ShiftDifference(x: real, y: real, k: int)
    ensures Shift(x, k) - Shift(y, k) == Shift(x - y, k)
    decreases if k < 0 then -k else k
  {
    if k > 0 {
      ShiftDifference(x, y, k - 1);
    } else if k < 0 {
      ShiftDifference(x, y, k + 1);
    }
  }

  lemma ShiftFive(x: real, k: int)
    ensures Shift(x, k + 5) == 100000.0 * Shift(x, k)
  {
    ShiftStep(x, k);
    ShiftStep(x, k + 1);
    ShiftStep(x, k + 2);
    ShiftStep(x, k + 3);
    ShiftStep(x, k + 4);
  }

  /** A whole number with zeros appended. */
  function Scaled(q: nat, k: nat): nat { if k == 0 then q else 10 * Scaled(q, k - 1) }

  lemma {:induction false} ShiftWhole(q: nat, k: nat)
    ensures Shift(q as real, k) == Scaled(q, k) as real
  {
    if k > 0 {
      ShiftWhole(q, k - 1);
    }
  }

  // ---------- Doubles: reading ----------

  /** The exponent part: 'e' or 'E', a sign and digits; without digits there is none. */
  function ReadExponent(s: string): int {
    if s == "" || (s[0] != 'e' && s[0] != 'E') then 0
    else
      var u := Unsigned(s[1..]);
      var n := DigitRun(u);
      var v: int := Value(u[..n]);
      if n == 0 then 0 else if Negative(s[1..]) then -v else v
  }

  function Magnitude(mantissa: nat, places: nat, exponent: int): real {
    Shift(mantissa as real, exponent - places)
  }

  /** The digits after a point, if there is one. */
  function FractionDigits(s: string): string {
    if s != "" && s[0] == '.' then s[1..][..DigitRun(s[1..])] else ""
  }

  function AfterFraction(s: string): string {
    if s != "" && s[0] == '.' then s[1..][DigitRun(s[1..])..] else s
  }

  /** The unsigned part of std::stod: digits with at most one point, then an exponent. */
  function ReadReal(u: string): Option<real> {
    var n := DigitRun(u);
    var frac := FractionDigits(u[n..]);
    if u[..n] + frac == "" then None
    else Some(Magnitude(Value(u[..n] + frac), |frac|, ReadExponent(AfterFraction(u[n..]))))
  }

  /** Neither too large for a 64-bit double nor so small that it loses precision: between the
      smallest normal one and the largest, by the exponent of the first digit. */
  predicate InRange(x: real) {
    x == 0.0 ||
    var size := if x < 0.0 then -x else x;
    var e := Exponent(size);
    (e > -308 || (e == -308 && Shift(size, -e) >= 2.2250738585072014)) &&
    (e < 308 || (e == 308 && Shift(size, -e) <= 1.7976931348623157))
  }

  function Checked(range: real -> bool, x: real): Option<real> { if range(x) then Some(x) else None }

  /** A sign, then what `read` makes of the rest, if that is in range. */
  function SignedReal(read: string -> Option<real>, range: real -> bool, s: string): Option<real> {
    match read(Unsigned(SkipSpaces(s)))
    case None => None
    case Some(v) => Checked(range, if Negative(SkipSpaces(s)) then -v else v)
  }

  /** std::stod on decimal spellings; what follows the number is ignored. None is an exception,
      either for no number or for one out of range. */
  function Stod(s: string): Option<real> { SignedReal(ReadReal, InRange, s) }

  // ---------- Doubles: printing with six significant digits ----------

  lemma ReciprocalShrinks(x: real)
    requires 0.0 < x < 1.0
    ensures (1.0 / (10.0 * x)).Floor < (1.0 / x).Floor
    ensures 0 < (1.0 / x).Floor
  {
    var y := 1.0 / x;
    assert y > 1.0;
    assert 1.0 / (10.0 * x) == y / 10.0;
  }

  function Measure(x: real): nat
    requires x > 0.0
  {
    if x >= 10.0 then x.Floor else if x < 1.0 then (1.0 / x).Floor + 1 else 0
  }

  /** The decimal exponent of a positive number. */
  function Exponent(x: real): int
    requires x > 0.0
    decreases Measure(x)
  {
    if x >= 10.0 then Exponent(x / 10.0) + 1
    else if x < 1.0 then
      ReciprocalShrinks(x);
      Exponent(10.0 * x) - 1
    else 0
  }

  lemma {:induction false} ExponentBrackets(x: real)
    requires x > 0.0
    ensures 1.0 <= Shift(x, -Exponent(x)) < 10.0
    decreases Measure(x)
  {
    if x >= 10.0 {
      ExponentBrackets(x / 10.0);
      ShiftTen(x / 10.0, -Exponent(x));
    } else if x < 1.0 {
      ReciprocalShrinks(x);
      ExponentBrackets(10.0 * x);
      ShiftTen(x, -Exponent(10.0 * x));
    }
  }

  lemma BracketUnique(x: real, e: int, f: int)
    requires 1.0 <= Shift(x, -e) < 10.0 && 1.0 <= Shift(x, -f) < 10.0
    ensures e <= f
  {
    if f < e {
      ShiftAdd(x, -e, e - f - 1);
      ShiftUp(Shift(x, -e), e - f - 1);
      ShiftStep(x, -f - 1);
      assert false;
    }
  }

  lemma ExponentIs(x: real, e: int)
    requires x > 0.0 && 1.0 <= Shift(x, -e) < 10.0
    ensures Exponent(x) == e
  {
    ExponentBrackets(x);
    BracketUnique(x, e, Exponent(x));
    BracketUnique(x, Exponent(x), e);
  }

  function RoundHalfEven(x: real): (r: int)
    ensures -0.5 <= x - r as real <= 0.5
  {
    var f := x.Floor;
    var d := x - f as real;
    if d < 0.5 || (d == 0.5 && f % 2 == 0) then f else f + 1
  }

  /** A six-digit mantissa and the decimal exponent of its first digit. */
  datatype Scientific = Scientific(mantissa: nat, exponent: int)

  function Amount(d: Scientific): real { Shift(d.mantissa as real, d.exponent - 5) }

  lemma ScaledMantissa(x: real)
    requires x > 0.0
    ensures 100000.0 <= Shift(x, 5 - Exponent(x)) < 1000000.0
  {
    ExponentBrackets(x);
    ShiftFive(x, -Exponent(x));
  }

  /** Rounding up to seven digits moves the first digit one place. */
  function Normalised(m: nat, e: int): Scientific {
    if m == 1000000 then Scientific(100000, e + 1) else Scientific(m, e)
  }

  lemma NormalisedAmount(m: nat, e: int)
    ensures Amount(Normalised(m, e)) == Shift(m as real, e - 5)
  {
    ShiftTen(100000.0, e - 5);
  }

  function SixDigits(x: real): (d: Scientific)
    requires x > 0.0
    ensures 100000 <= d.mantissa < 1000000
  {
    ScaledMantissa(x);
    Normalised(RoundHalfEven(Shift(x, 5 - Exponent(x))), Exponent(x))
  }

  /** A number that already has six digits is its own rounding. */
  lemma SixDigitsExact(d: Scientific)
    requires 100000 <= d.mantissa < 1000000
    ensures Amount(d) > 0.0 && SixDigits(Amount(d)) == d
  {
    var m, x := d.mantissa as real, Amount(d);
    ShiftPositive(m, d.exponent - 5);
    ShiftAdd(m, d.exponent - 5, 5 - d.exponent);
    ShiftFive(x, -d.exponent);
    ExponentIs(x, d.exponent);
  }

  /** The value a double shows once printed: rounded to six significant digits. */
  function Printed(x: real): real {
    if x == 0.0 then 0.0 else if x < 0.0 then -Amount(SixDigits(-x)) else Amount(SixDigits(x))
  }

  /** Printing is off by at most half a unit of the sixth digit. */
  lemma PrintedIsClose(x: real)
    requires x != 0.0
    ensures var half := Shift(0.5, Exponent(if x < 0.0 then -x else x) - 5);
            -half <= x - Printed(x) <= half
  {
    PositiveIsClose(if x < 0.0 then -x else x);
  }

  lemma PositiveIsClose(x: real)
    requires x > 0.0
    ensures -Shift(0.5, Exponent(x) - 5) <= x - Printed(x) <= Shift(0.5, Exponent(x) - 5)
  {
    var e := Exponent(x);
    var y := Shift(x, 5 - e);
    var m := RoundHalfEven(y);
    ScaledMantissa(x);
    NormalisedAmount(m, e);
    ShiftAdd(x, 5 - e, e - 5);
    ShiftDifference(y, m as real, e - 5);
    ShiftDifference(m as real, y, e - 5);
    ShiftMonotone(y - m as real, 0.5, e - 5);
    ShiftMonotone(m as real - y, 0.5, e - 5);
  }

  /** So it changes no number by more than half. */
  lemma PrintedWithinHalf(x: real)
    requires x > 0.0
    ensures x / 2.0 <= Printed(x) <= 2.0 * x
  {
    var e := Exponent(x);
    PositiveIsClose(x);
    ExponentBrackets(x);
    ShiftFive(0.5, e - 5);
    ShiftAdd(x, -e, e);
    ShiftMonotone(0.5, Shift(x, -e), e);
    ShiftPositive(0.5, e - 5);
  }

  lemma {:induction false} ExponentAtMost(x: real, k: nat)
    requires 0.0 < x < Shift(10.0, k)
    ensures Exponent(x) <= k
    decreases k
  {
    if x >= 10.0 {
      ExponentAtMost(x / 10.0, k - 1);
    } else if x < 1.0 {
      ExponentBelowOne(x);
    }
  }

  lemma {:induction false} ExponentAtLeast(x: real, k: nat)
    requires x > 0.0 && x >= Shift(1.0, -(k as int))
    ensures Exponent(x) >= -(k as int)
    decreases k
  {
    if x >= 10.0 {
      ExponentAboveOne(x);
    } else if x < 1.0 {
      assert k > 0;
      ExponentAtLeast(10.0 * x, k - 1);
    }
  }

  lemma {:induction false} ExponentAboveOne(x: real)
    requires x >= 1.0
    ensures Exponent(x) >= 0
    decreases x.Floor
  {
    if x >= 10.0 {
      ExponentAboveOne(x / 10.0);
    }
  }

  lemma OrdinaryInRange(y: real)
    requires 0.0000000001 <= y < 100000000000.0
    ensures InRange(y) && InRange(-y)
  {
    ShiftFive(10.0, 0);
    ShiftFive(10.0, 5);
    ShiftFive(1.0, -5);
    ShiftFive(1.0, -10);
    ExponentAtMost(y, 10);
    ExponentAtLeast(y, 10);
  }

  /** A count of nanoseconds on a 64-bit clock, in seconds, prints in range. */
  lemma ClockInRange(ns: int)
    requires -0x1_0000_0000_0000_0000 < ns < 0x1_0000_0000_0000_0000
    ensures InRange(Printed(ns as real / 1000000000.0))
  {
    if ns > 0 {
      PositiveClock(ns);
    } else if ns < 0 {
      PositiveClock(-ns);
    }
  }

  lemma PositiveClock(ns: nat)
    requires 0 < ns < 0x1_0000_0000_0000_0000
    ensures InRange(Printed(ns as real / 1000000000.0)) && InRange(Printed(-(ns as real) / 1000000000.0))
  {
    var x := ns as real / 1000000000.0;
    assert -(ns as real) / 1000000000.0 == -x;
    assert 0.000000001 <= x <= 20000000000.0;
    PrintedWithinHalf(x);
    OrdinaryInRange(Printed(x));
  }

  /** A number below the smallest normal double prints as itself and is out of range. */
  lemma TinyOutOfRange(k: nat)
    requires k > 308
    ensures var x := Shift(1.0, -(k as int)); 0.0 < x <= 1.0 && Printed(x) == x && !InRange(x)
  {
    var e := -(k as int);
    var x := Shift(1.0, e);
    ShiftPositive(1.0, e);
    ShiftAdd(1.0, e, k);
    ShiftUp(x, k);
    ExponentIs(x, e);
    ShiftFive(1.0, 0);
    ShiftAdd(1.0, 5, e - 5);
    SixDigitsExact(Scientific(100000, e));
  }

  lemma PrintedIdempotent(x: real)
    ensures Printed(Printed(x)) == Printed(x)
  {
    if x < 0.0 {
      SixDigitsExact(SixDigits(-x));
    } else if x > 0.0 {
      SixDigitsExact(SixDigits(x));
    }
  }

  /** Printing keeps numbers from 0 to 1 there. */
  lemma PrintedInUnit(x: real)
    requires 0.0 <= x <= 1.0
    ensures 0.0 <= Printed(x) <= 1.0 && (x == 0.0 ==> Printed(x) == 0.0)
  {
    if x > 0.0 {
      var d := SixDigits(x);
      SixDigitsExact(d);
      if x == 1.0 {
        assert Exponent(x) == 0;
        OneIsExact();
      } else {
        var e := Exponent(x);
        ExponentBrackets(x);
        ExponentBelowOne(x);
        var m := RoundHalfEven(Shift(x, 5 - e));
        ScaledMantissa(x);
        NormalisedAmount(m, e);
        ShiftMonotone(m as real, 1000000.0, e - 5);
        ShiftSix(e);
      }
    }
  }

  lemma ExponentBelowOne(x: real)
    requires 0.0 < x < 1.0
    ensures Exponent(x) < 0
  {
    ReciprocalShrinks(x);
    var e := Exponent(x);
    if e >= 0 {
      ExponentBrackets(x);
      ShiftAdd(x, -e, e);
      ShiftMonotone(1.0, Shift(x, -e), e);
      ShiftUp(1.0, e);
      assert false;
    }
  }

  /** A million shifted five places below a negative exponent is at most one. */
  lemma ShiftSix(e: int)
    requires e < 0
    ensures Shift(1000000.0, e - 5) <= 1.0
  {
    ShiftTen(100000.0, e - 5);
    ShiftTen(10000.0, e - 4);
    ShiftTen(1000.0, e - 3);
    ShiftTen(100.0, e - 2);
    ShiftTen(10.0, e - 1);
    ShiftTen(1.0, e);
    ShiftAdd(1.0, e + 1, -e - 1);
    ShiftPositive(1.0, e + 1);
    ShiftUp(Shift(1.0, e + 1), -e - 1);
  }

  lemma OneIsExact()
    ensures Printed(1.0) == 1.0
  {
    ShiftFive(1.0, 0);
    ShiftFive(100000.0, -5);
    assert RoundHalfEven(100000.0) == 100000;
  }
}
