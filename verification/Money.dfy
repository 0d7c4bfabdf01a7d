/** Decimal amounts as (coefficient, exponent) pairs, their exact value in units of 10^-4, and how they are printed. */
module Money {
  /** The value coef * 10^exp. */
  datatype Decimal = Decimal(coef: int, exp: int)

  const ZERO := Decimal(0, 0)

  function Pow10(n: nat): (r: int)
    ensures r >= 1
  {
    if n == 0 then 1 else 10 * Pow10(n - 1)
  }

  /** Division that truncates toward zero. */
  function Quo(x: int, y: int): int
    requires y > 0
  {
    if x >= 0 then x / y else -((-x) / y)
  }

  function Rescale(d: Decimal, exp: int): Decimal {
    if exp <= d.exp then Decimal(d.coef * Pow10(d.exp - exp), exp) else Decimal(Quo(d.coef, Pow10(exp - d.exp)), exp)
  }

  function Min(a: int, b: int): int {
    if a < b then a else b
  }

  function Add(a: Decimal, b: Decimal): Decimal {
    var e := Min(a.exp, b.exp);
    Decimal(Rescale(a, e).coef + Rescale(b, e).coef, e)
  }

  function Sub(a: Decimal, b: Decimal): Decimal {
    var e := Min(a.exp, b.exp);
    Decimal(Rescale(a, e).coef - Rescale(b, e).coef, e)
  }

  function Cmp(a: Decimal, b: Decimal): int {
    var e := Min(a.exp, b.exp);
    var x, y := Rescale(a, e).coef, Rescale(b, e).coef;
    if x < y then -1 else if x > y then 1 else 0
  }

  // ---------- Exact value ----------

  /** At most four decimal places, as the handlers require. */
  predicate Scaled(d: Decimal) {
    d.exp >= -4
  }

  /** The value in units of 10^-4. */
  function Units(d: Decimal): int
    requires Scaled(d)
  {
    d.coef * Pow10(d.exp + 4)
  }

  /** How an amount is read back from a NUMERIC(19,4) column. */
  function FromUnits(u: int): Decimal {
    Decimal(u, -4)
  }

  lemma {:induction false} PowAdd(m: nat, n: nat)
    ensures Pow10(m + n) == Pow10(m) * Pow10(n)
  {
    if m == 0 {
    } else {
      PowAdd(m - 1, n);
      assert Pow10(m + n) == 10 * Pow10(m - 1 + n);
      MulAssoc(10, Pow10(m - 1), Pow10(n));
    }
  }

  lemma MulAssoc(x: int, y: int, z: int)
    ensures x * (y * z) == (x * y) * z
  {
  }

  /** The value in units of 10^e. */
  function UnitsAt(d: Decimal, e: int): int
    requires e <= d.exp
  {
    d.coef * Pow10(d.exp - e)
  }

  /** Lowering the exponent does not change the value. */
  lemma RescaleExact(d: Decimal, to: int, e: int)
    requires e <= to <= d.exp
    ensures UnitsAt(Rescale(d, to), e) == UnitsAt(d, e)
  {
    PowAdd(d.exp - to, to - e);
    MulAssoc(d.coef, Pow10(d.exp - to), Pow10(to - e));
  }

  lemma MulDistributes(x: int, y: int, z: int)
    ensures (x + y) * z == x * z + y * z
    ensures (x - y) * z == x * z - y * z
  {
  }

  lemma MulPositive(x: int, z: int)
    requires x >= 1 && z >= 1
    ensures x * z >= 1
  {
  }

  lemma MulMonotone(x: int, y: int, z: int)
    requires z >= 1
    ensures x < y <==> x * z < y * z
  {
    if x < y {
      MulDistributes(y, x, z);
      MulPositive(y - x, z);
    } else if y < x {
      MulDistributes(x, y, z);
      MulPositive(x - y, z);
    }
  }

  /** Addition, subtraction and comparison are exact, on all decimals. */
  lemma Exact(a: Decimal, b: Decimal, e: int)
    requires e <= a.exp && e <= b.exp
    ensures e <= Add(a, b).exp && UnitsAt(Add(a, b), e) == UnitsAt(a, e) + UnitsAt(b, e)
    ensures e <= Sub(a, b).exp && UnitsAt(Sub(a, b), e) == UnitsAt(a, e) - UnitsAt(b, e)
    ensures Cmp(a, b) > 0 <==> UnitsAt(a, e) > UnitsAt(b, e)
    ensures Cmp(a, b) < 0 <==> UnitsAt(a, e) < UnitsAt(b, e)
  {
    var m := Min(a.exp, b.exp);
    var x, y := Rescale(a, m).coef, Rescale(b, m).coef;
    RescaleExact(a, m, e);
    RescaleExact(b, m, e);
    MulDistributes(x, y, Pow10(m - e));
    MulMonotone(x, y, Pow10(m - e));
    MulMonotone(y, x, Pow10(m - e));
  }

  /** On accepted amounts they are those of the integer units. */
  lemma ArithmeticIsExact(a: Decimal, b: Decimal)
    requires Scaled(a) && Scaled(b)
    ensures Scaled(Add(a, b)) && Units(Add(a, b)) == Units(a) + Units(b)
    ensures Scaled(Sub(a, b)) && Units(Sub(a, b)) == Units(a) - Units(b)
    ensures Cmp(a, b) > 0 <==> Units(a) > Units(b)
    ensures Cmp(a, b) < 0 <==> Units(a) < Units(b)
  {
    Exact(a, b, -4);
  }

  lemma UnitsOfColumn(u: int)
    ensures Scaled(FromUnits(u)) && Units(FromUnits(u)) == u
  {
  }

  lemma ColumnValue(d: Decimal, e: int)
    requires Scaled(d) && e <= -4
    ensures UnitsAt(d, e) == Units(d) * Pow10(-4 - e)
  {
    PowAdd(d.exp + 4, -4 - e);
    MulAssoc(d.coef, Pow10(d.exp + 4), Pow10(-4 - e));
  }

  /** Comparing any decimal with a sum or difference of amounts is comparing it with the units. */
  lemma CompareByUnits(a: Decimal, b: Decimal)
    requires Scaled(b)
    ensures Cmp(a, b) > 0 <==> Cmp(a, FromUnits(Units(b))) > 0
    ensures Cmp(a, b) < 0 <==> Cmp(a, FromUnits(Units(b))) < 0
  {
    var e := Min(a.exp, -4);
    Exact(a, b, e);
    Exact(a, FromUnits(Units(b)), e);
    ColumnValue(b, e);
  }

  /** A total reaches an amount when its last summand covers what remained. */
  lemma TotalReaches(total: Decimal, last: Decimal, amount: int)
    requires Scaled(total)
    ensures Cmp(Add(total, last), FromUnits(amount)) >= 0 <==> Cmp(last, FromUnits(amount - Units(total))) >= 0
  {
    var e := Min(last.exp, -4);
    Exact(total, last, e);
    Exact(Add(total, last), FromUnits(amount), e);
    Exact(last, FromUnits(amount - Units(total)), e);
    ColumnValue(total, e);
    MulDistributes(amount, Units(total), Pow10(-4 - e));
  }

  // ---------- Printing ----------

  /** The last digit is rounded off, half away from zero. */
  function DropDigit(x: int): int {
    var bumped := if x < 0 then x - 5 else x + 5;
    Quo(bumped, 10)
  }

  /** Decimal.Round(4): half away from zero, computed on one digit more. */
  function Round4(d: Decimal): Decimal {
    if d.exp == -4 then d else Decimal(DropDigit(Rescale(d, -5).coef), -4)
  }

  /** Rounding to four places leaves an accepted amount exactly as it is. */
  lemma RoundKeeps(d: Decimal)
    requires Scaled(d)
    ensures Round4(d) == Decimal(Units(d), -4)
  {
    if d.exp != -4 {
      var u := Units(d);
      PowAdd(1, d.exp + 4);
      assert Pow10(1) == 10;
      assert Pow10(d.exp + 5) == 10 * Pow10(d.exp + 4);
      MulAssoc(d.coef, Pow10(d.exp + 4), 10);
      assert Rescale(d, -5).coef == 10 * u;
      if u < 0 {
        assert (10 * u - 5) / 10 == u - 1 && (10 * u - 5) % 10 == 5;
      } else {
        assert (10 * u + 5) / 10 == u;
      }
    }
  }

  /** What a NUMERIC(19,4) column keeps of an amount, in units of 10^-4: it rounds half away from zero. */
  function Column(d: Decimal): int {
    Round4(d).coef
  }

  lemma QuotientBrackets(x: int, y: int, z: int)
    requires z >= 1
    ensures x <= y * z ==> x / z <= y
    ensures x >= y * z ==> x / z >= y
  {
    if x / z > y {
      MulDistributes(x / z, y, z);
      MulPositive(x / z - y, z);
      assert x / z * z <= x && x / z * z >= y * z + z;
    } else if x / z < y {
      MulDistributes(y, x / z + 1, z);
      assert (y - (x / z + 1)) * z >= 0 by {
        if y - (x / z + 1) >= 1 {
          MulPositive(y - (x / z + 1), z);
        }
      }
      MulDistributes(x / z, 1, z);
      assert x < x / z * z + z;
    }
  }

  /** Rounding does not carry an amount across a value of the column. */
  lemma RoundBrackets(d: Decimal, u: int)
    requires d.coef >= 0
    ensures Cmp(d, FromUnits(u)) <= 0 ==> Column(d) <= u
    ensures Cmp(d, FromUnits(u)) >= 0 ==> Column(d) >= u
  {
    if Scaled(d) {
      RoundKeeps(d);
      ArithmeticIsExact(d, FromUnits(u));
      UnitsOfColumn(u);
    } else {
      FineBrackets(d, u);
    }
  }

  lemma FineBrackets(d: Decimal, u: int)
    requires d.coef >= 0 && d.exp <= -5
    ensures Cmp(d, FromUnits(u)) <= 0 ==> Column(d) <= u
    ensures Cmp(d, FromUnits(u)) >= 0 ==> Column(d) >= u
  {
    var z := Pow10(-5 - d.exp);
    FineUnits(d, u);
    QuotientBrackets(d.coef, u * 10, z);
    TensBracket(d.coef / z, u);
  }

  lemma TensBracket(q: int, u: int)
    ensures q <= u * 10 ==> (q + 5) / 10 <= u
    ensures q >= u * 10 ==> (q + 5) / 10 >= u
  {
  }

  lemma DividedByOne(x: int)
    ensures x * 1 == x / 1
  {
  }

  lemma FineRescale(d: Decimal)
    requires d.coef >= 0 && d.exp <= -5
    ensures Rescale(d, -5).coef == d.coef / Pow10(-5 - d.exp)
  {
    if d.exp == -5 {
      assert Pow10(0) == 1;
      DividedByOne(d.coef);
    }
  }

  lemma QuotientNonNegative(x: int, z: int)
    requires x >= 0 && z >= 1
    ensures x / z >= 0
  {
    QuotientBrackets(x, 0, z);
  }

  /** Rounding a finer amount, in units of its own last place. */
  lemma FineColumn(d: Decimal)
    requires d.coef >= 0 && d.exp <= -5
    ensures Column(d) == (d.coef / Pow10(-5 - d.exp) + 5) / 10
  {
    FineRescale(d);
    QuotientNonNegative(d.coef, Pow10(-5 - d.exp));
  }

  lemma ProductSymmetric(x: int, z: int)
    ensures -x * z == -(x * z)
  {
  }

  lemma QuoSymmetric(x: int, y: int)
    requires y > 0
    ensures Quo(-x, y) == -Quo(x, y)
  {
    if x == 0 {
      QuotientBrackets(x, 0, y);
    }
  }

  lemma DropSymmetric(x: int)
    ensures DropDigit(-x) == -DropDigit(x)
  {
  }

  lemma RescaleSymmetric(d: Decimal, exp: int)
    ensures Rescale(Decimal(-d.coef, d.exp), exp).coef == -Rescale(d, exp).coef
  {
    if exp <= d.exp {
      ProductSymmetric(d.coef, Pow10(d.exp - exp));
    } else {
      QuoSymmetric(d.coef, Pow10(exp - d.exp));
    }
  }

  /** Rounding treats both signs alike. */
  lemma RoundSymmetric(d: Decimal)
    ensures Round4(Decimal(-d.coef, d.exp)) == Decimal(-Round4(d).coef, -4)
  {
    RescaleSymmetric(d, -5);
    DropSymmetric(Rescale(d, -5).coef);
  }

  lemma DropsNearest(q: nat)
    ensures 10 * DropDigit(q) - 5 <= q < 10 * DropDigit(q) + 5
  {
  }

  lemma QuotientBounds(x: nat, z: nat, lo: int, hi: int)
    requires z >= 1 && lo <= x / z < hi
    ensures lo * z <= x < hi * z
  {
    if hi * z <= x {
      QuotientBrackets(x, hi, z);
    } else if x < lo * z {
      assert x <= lo * z - 1;
      MulDistributes(x / z, lo, z);
      if x / z > lo {
        MulPositive(x / z - lo, z);
      }
    }
  }

  /** Rounding goes to the nearest value of the column, and up halfway between two. */
  lemma RoundsNearest(d: Decimal)
    requires d.coef >= 0 && d.exp <= -5
    ensures var z := Pow10(-5 - d.exp); (10 * Column(d) - 5) * z <= d.coef < (10 * Column(d) + 5) * z
  {
    var z := Pow10(-5 - d.exp);
    FineRescale(d);
    QuotientNonNegative(d.coef, z);
    DropsNearest(d.coef / z);
    QuotientBounds(d.coef, z, 10 * Column(d) - 5, 10 * Column(d) + 5);
  }

  lemma FineUnit(u: int, k: nat)
    ensures u * Pow10(k + 1) == u * 10 * Pow10(k)
  {
    MulAssoc(u, 10, Pow10(k));
  }

  /** Comparing and rounding, in units of the amount's own last place. */
  lemma FineUnits(d: Decimal, u: int)
    requires d.coef >= 0 && d.exp <= -5
    ensures var z := Pow10(-5 - d.exp);
      && (Cmp(d, FromUnits(u)) > 0 <==> d.coef > u * 10 * z)
      && (Cmp(d, FromUnits(u)) < 0 <==> d.coef < u * 10 * z)
      && Column(d) == (d.coef / z + 5) / 10
  {
    FineColumn(d);
    FineUnit(u, -5 - d.exp);
    Exact(d, FromUnits(u), d.exp);
    assert UnitsAt(d, d.exp) == d.coef && UnitsAt(FromUnits(u), d.exp) == u * Pow10(-4 - d.exp);
  }

  predicate IsDigit(c: char) {
    '0' <= c <= '9'
  }

  predicate AllDigits(s: string) {
    forall i :: 0 <= i < |s| ==> IsDigit(s[i])
  }

  function DigitChar(n: nat): (c: char)
    requires n < 10
    ensures IsDigit(c) && DigitValue(c) == n
  {
    '0' + n as char
  }

  function DigitValue(c: char): nat
    requires IsDigit(c)
  {
    (c - '0') as nat
  }

  /** The decimal digits of `n`, without leading zeros. */
  function Digits(n: nat): (s: string)
    ensures s != "" && AllDigits(s) && (s[0] == '0' ==> n == 0 && |s| == 1)
  {
    if n < 10 then [DigitChar(n)] else Digits(n / 10) + [DigitChar(n % 10)]
  }

  /** How many digits a number has. */
  lemma {:induction false} DigitsWithin(n: nat, k: nat)
    requires k >= 1
    ensures |Digits(n)| <= k <==> n < Pow10(k)
  {
    assert Pow10(k) == 10 * Pow10(k - 1);
    if n < 10 {
    } else if k == 1 {
      assert Pow10(0) == 1 && Digits(n / 10) != "";
    } else {
      DigitsWithin(n / 10, k - 1);
    }
  }

  function Zeros(n: nat): (s: string)
    ensures |s| == n && forall i :: 0 <= i < n ==> s[i] == '0'
  {
    if n == 0 then "" else Zeros(n - 1) + "0"
  }

  function Abs(n: int): nat {
    if n < 0 then -n else n
  }

  /** The part before the decimal point. */
  function Whole(str: string, places: nat): string {
    if |str| > places then str[..|str| - places] else "0"
  }

  /** The part after the decimal point. */
  function Fraction(str: string, places: nat): string {
    if |str| > places then str[|str| - places..] else Zeros(places - |str|) + str
  }

  function Sign(coef: int): string {
    if coef < 0 then "-" else ""
  }

  /** Decimal.string(false), for a number with decimal places. */
  function Format(d: Decimal): string
    requires d.exp < 0
  {
    var str := Digits(Abs(d.coef));
    Sign(d.coef) + Whole(str, -d.exp) + "." + Fraction(str, -d.exp)
  }

  /** Amount.MarshalJSON and Amount.String: StringFixed(4). */
  function MarshalJSON(d: Decimal): string {
    var r := Round4(d);
    Format(r)
  }

  /** Section 6 of RFC 8259 without exponent, with exactly four fraction digits: [ "-" ] int "." 4DIGIT. */
  predicate JsonFixed4(s: string) {
    var t := if s != "" && s[0] == '-' then s[1..] else s;
    && |t| >= 6 && t[|t| - 5] == '.'
    && AllDigits(t[..|t| - 5]) && AllDigits(t[|t| - 4..])
    && (t[0] == '0' ==> |t| == 6)
  }

  // ---------- Digits ----------

  function ParseDigits(s: string): nat
    requires AllDigits(s)
  {
    if s == "" then 0 else 10 * ParseDigits(s[..|s| - 1]) + DigitValue(s[|s| - 1])
  }

  lemma {:induction false} DigitsParse(n: nat)
    ensures ParseDigits(Digits(n)) == n
  {
    if n < 10 {
    } else {
      DigitsParse(n / 10);
      assert Digits(n)[..|Digits(n)| - 1] == Digits(n / 10);
    }
  }

  lemma {:induction false} ZerosParse(k: nat, s: string)
    requires AllDigits(s)
    ensures AllDigits(Zeros(k) + s) && ParseDigits(Zeros(k) + s) == ParseDigits(s)
    decreases k, |s|
  {
    if s == "" {
      assert Zeros(k) + s == Zeros(k);
      if k > 0 {
        ZerosParse(k - 1, s);
        assert Zeros(k - 1) + s == Zeros(k - 1);
        assert Zeros(k)[..k - 1] == Zeros(k - 1);
      }
    } else {
      ZerosParse(k, s[..|s| - 1]);
      assert (Zeros(k) + s)[..k + |s| - 1] == Zeros(k) + s[..|s| - 1];
    }
  }

  /** The two parts of the printed number: all digits, no superfluous zero in front, and together they denote it. */
  lemma PartsParse(n: nat)
    ensures var whole, fraction := Whole(Digits(n), 4), Fraction(Digits(n), 4);
      && whole != "" && |fraction| == 4 && (whole[0] == '0' ==> |whole| == 1)
      && AllDigits(whole + fraction) && ParseDigits(whole + fraction) == n
  {
    var str := Digits(n);
    var whole, fraction := Whole(str, 4), Fraction(str, 4);
    DigitsParse(n);
    if |str| > 4 {
      assert whole + fraction == str;
    } else {
      ZerosParse(5 - |str|, str);
      LeadingZero(4 - |str|);
      assert whole + fraction == Zeros(5 - |str|) + str;
    }
  }

  lemma {:induction false} LeadingZero(k: nat)
    ensures Zeros(k + 1) == "0" + Zeros(k)
  {
    if k == 0 {
    } else {
      LeadingZero(k - 1);
    }
  }

  lemma SplitDigits(s: string, t: string)
    requires AllDigits(s + t)
    ensures AllDigits(s) && AllDigits(t)
  {
    assert forall i :: 0 <= i < |s| ==> s[i] == (s + t)[i];
    assert forall i :: 0 <= i < |t| ==> t[i] == (s + t)[|s| + i];
  }

  /** What is printed: a sign, the digits before the point, and four after it. */
  lemma Printed(d: Decimal) returns (whole: string, fraction: string)
    ensures MarshalJSON(d) == Sign(Column(d)) + whole + "." + fraction
    ensures whole != "" && |fraction| == 4 && (whole[0] == '0' ==> |whole| == 1)
    ensures AllDigits(whole) && AllDigits(fraction)
    ensures AllDigits(whole + fraction) && ParseDigits(whole + fraction) == Abs(Column(d))
  {
    var str := Digits(Abs(Column(d)));
    whole, fraction := Whole(str, 4), Fraction(str, 4);
    PartsParse(Abs(Column(d)));
    SplitDigits(whole, fraction);
  }

  lemma FixedShape(sign: string, whole: string, fraction: string)
    requires sign == "" || sign == "-"
    requires whole != "" && |fraction| == 4 && (whole[0] == '0' ==> |whole| == 1)
    requires AllDigits(whole) && AllDigits(fraction)
    ensures JsonFixed4(sign + whole + "." + fraction)
  {
    var s, t := sign + whole + "." + fraction, whole + "." + fraction;
    assert t[..|t| - 5] == whole && t[|t| - 4..] == fraction;
    assert if sign == "" then s == t else s[1..] == t;
  }

  /** What is printed is a JSON number with exactly four fraction digits. */
  lemma PrintsJsonNumber(d: Decimal)
    ensures JsonFixed4(MarshalJSON(d))
  {
    var whole, fraction := Printed(d);
    FixedShape(Sign(Column(d)), whole, fraction);
  }
}
