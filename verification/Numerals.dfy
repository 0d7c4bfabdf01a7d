/** Reading amounts: what decimal.NewFromString and the JSON decoding do, and what every text denotes. */
module Numerals {
  import opened Base
  import opened Text
  import opened Money

  // ---------- The parser ----------

  /** An optional sign and at least one digit. */
  function ParseInteger(s: string): Option<int> {
    var signed := s != "" && (s[0] == '-' || s[0] == '+');
    var digits := if signed then s[1..] else s;
    if digits == "" || !AllDigits(digits) then None
    else
      var v: int := ParseDigits(digits);
      Some(if signed && s[0] == '-' then -v else v)
  }

  datatype Cut = Uncut | CutAt(before: string, mark: char, after: string)

  predicate Without(s: string, x: char, y: char) {
    forall k :: 0 <= k < |s| ==> s[k] != x && s[k] != y
  }

  /** The text cut at the first of two characters. */
  function CutFirst(s: string, x: char, y: char): (c: Cut)
    ensures c.Uncut? ==> Without(s, x, y)
    ensures c.CutAt? ==> s == c.before + [c.mark] + c.after && (c.mark == x || c.mark == y) && Without(c.before, x, y)
  {
    if s == "" then Uncut
    else if s[0] == x || s[0] == y then CutAt("", s[0], s[1..])
    else
      match CutFirst(s[1..], x, y)
      case Uncut => Uncut
      case CutAt(before, mark, after) => CutAt([s[0]] + before, mark, after)
  }

  const INT32_MIN := -0x8000_0000
  const INT32_MAX := 0x7FFF_FFFF

  predicate InInt32(n: int) {
    INT32_MIN <= n <= INT32_MAX
  }

  function Scale(coef: Option<int>, exp: int): Option<Decimal> {
    if coef.Some? && InInt32(exp) then Some(Decimal(coef.value, exp)) else None
  }

  /** The part before the exponent: one point may stand among the digits. */
  function ParseMantissa(s: string, power: int): Option<Decimal> {
    match CutFirst(s, '.', '.')
    case Uncut => Scale(ParseInteger(s), power)
    case CutAt(left, _, right) => if '.' in right then None else Scale(ParseInteger(left + right), power - |right|)
  }

  /** decimal.NewFromString. */
  function ParseDecimal(s: string): Option<Decimal> {
    match CutFirst(s, 'e', 'E')
    case Uncut => ParseMantissa(s, 0)
    case CutAt(mantissa, _, exponent) =>
      var power := ParseInteger(exponent);
      if power.Some? && InInt32(power.value) then ParseMantissa(mantissa, power.value) else None
  }

  function Unquoted(t: string): (r: string)
    ensures r == t || t == "\"" + r + "\""
  {
    if |t| >= 2 && t[0] == '"' && t[|t| - 1] == '"' then t[1..|t| - 1] else t
  }

  /** Amount.UnmarshalJSON: null is zero, and quotes are allowed. */
  function UnmarshalJSON(data: string): Option<Decimal> {
    var t := Trim(data);
    if t == "null" then Some(ZERO) else ParseDecimal(Unquoted(t))
  }

  // ---------- Numerals ----------

  /**
    The digits of a numeral: alone, with a point among, before or behind them, or in the one unusual form that is read
    as well, with the sign behind the point.
  */
  datatype Mantissa =
    | Bare(sign: string, digits: string)
    | Pointed(sign: string, whole: string, fraction: string)
    | Inside(sign: string, digits: string)

  datatype Numeral = Fixed(m: Mantissa) | Scientific(m: Mantissa, mark: char, powerSign: string, power: string)

  predicate IsSign(s: string) {
    s == "" || s == "-" || s == "+"
  }

  predicate IsNumber(digits: string) {
    digits != "" && AllDigits(digits)
  }

  predicate IsMantissa(m: Mantissa) {
    && IsSign(m.sign)
    && match m
       case Bare(_, digits) => IsNumber(digits)
       case Pointed(_, whole, fraction) => IsNumber(whole + fraction)
       case Inside(sign, digits) => IsNumber(digits) && sign != ""
  }

  predicate IsNumeral(n: Numeral) {
    && IsMantissa(n.m)
    && (n.Scientific? ==> (n.mark == 'e' || n.mark == 'E') && IsSign(n.powerSign) && IsNumber(n.power))
  }

  function MantissaText(m: Mantissa): string {
    match m
    case Bare(sign, digits) => sign + digits
    case Pointed(sign, whole, fraction) => sign + whole + "." + fraction
    case Inside(sign, digits) => "." + (sign + digits)
  }

  /** The numeral as it is written. */
  function Written(n: Numeral): string {
    match n
    case Fixed(m) => MantissaText(m)
    case Scientific(m, mark, sign, power) => MantissaText(m) + [mark] + (sign + power)
  }

  function Signed(sign: string, v: int): int {
    if sign == "-" then -v else v
  }

  /** The digits on both sides of the point. */
  function AllOf(m: Mantissa): string {
    if m.Pointed? then m.whole + m.fraction else m.digits
  }

  /** Every place behind the point divides by ten; a sign that stands there counts as a place. */
  function Places(m: Mantissa): nat {
    match m
    case Bare(_, _) => 0
    case Pointed(_, _, fraction) => |fraction|
    case Inside(_, digits) => |digits| + 1
  }

  function Power(n: Numeral): int
    requires IsNumeral(n)
  {
    if n.Fixed? then 0 else Signed(n.powerSign, ParseDigits(n.power))
  }

  /** The integer that `digits` denote, with its sign, scaled up by `power` and down by `places`. */
  function Value(sign: string, digits: string, power: int, places: nat): Option<Decimal>
    requires AllDigits(digits)
  {
    Scale(Some(Signed(sign, ParseDigits(digits))), power - places)
  }

  function Denoted(n: Numeral): Option<Decimal>
    requires IsNumeral(n)
  {
    if InInt32(Power(n)) then Value(n.m.sign, AllOf(n.m), Power(n), Places(n.m)) else None
  }

  // ---------- Digits ----------

  lemma JoinDigits(s: string, t: string)
    requires AllDigits(s) && AllDigits(t)
    ensures AllDigits(s + t)
  {
  }

  /** Each digit stands for its position among the ten. */
  lemma DigitsInOrder(c: char)
    requires IsDigit(c)
    ensures DigitValue(c) < 10 && "0123456789"[DigitValue(c)] == c
  {
    var digits := "0123456789";
    assert forall k :: 0 <= k < 10 ==> digits[k] == DigitChar(k) by {
      assert digits[0] == '0' && digits[1] == '1' && digits[2] == '2' && digits[3] == '3' && digits[4] == '4';
      assert digits[5] == '5' && digits[6] == '6' && digits[7] == '7' && digits[8] == '8' && digits[9] == '9';
    }
  }

  /** Digits in front of others count ten times as much for every place. */
  lemma {:induction false} PlaceValue(s: string, t: string)
    requires AllDigits(s) && AllDigits(t)
    ensures AllDigits(s + t) && ParseDigits(s + t) == ParseDigits(s) * Pow10(|t|) + ParseDigits(t)
    decreases |t|
  {
    JoinDigits(s, t);
    if t == "" {
      assert s + t == s;
    } else {
      var init, n := t[..|t| - 1], |t| - 1;
      PlaceValue(s, init);
      assert (s + t)[..|s| + n] == s + init;
      MulAssoc(10, ParseDigits(s), Pow10(n));
      MulAssoc(ParseDigits(s), 10, Pow10(n));
    }
  }

  // ---------- Reading a numeral ----------

  lemma ReadsInteger(sign: string, digits: string)
    requires IsSign(sign) && AllDigits(digits) && digits != ""
    ensures ParseInteger(sign + digits) == Some(Signed(sign, ParseDigits(digits)))
  {
    if sign == "" {
      assert sign + digits == digits;
    } else {
      assert (sign + digits)[0] == sign[0] && (sign + digits)[1..] == digits;
    }
  }

  lemma FirstCut(before: string, mark: char, after: string, x: char, y: char)
    requires Without(before, x, y) && (mark == x || mark == y)
    ensures CutFirst(before + [mark] + after, x, y) == CutAt(before, mark, after)
  {
    var s := before + [mark] + after;
    assert s[|before|] == mark;
    var c := CutFirst(s, x, y);
    assert forall k :: 0 <= k < |before| ==> s[k] == before[k];
    assert forall k :: 0 <= k < |c.before| ==> s[k] == c.before[k];
    assert s[|c.before|] == c.mark;
    assert |c.before| == |before|;
    assert c.before == s[..|before|] == before && c.after == s[|before| + 1..] == after;
  }

  lemma NoCut(s: string, x: char, y: char)
    requires Without(s, x, y)
    ensures CutFirst(s, x, y) == Uncut
  {
  }

  /** One point, with digits and perhaps a sign around it. */
  lemma ReadsPointed(left: string, right: string, power: int)
    requires Without(left, '.', '.') && Without(right, '.', '.')
    ensures ParseMantissa(left + "." + right, power) == Scale(ParseInteger(left + right), power - |right|)
  {
    FirstCut(left, '.', right, '.', '.');
  }

  lemma NoPoint(sign: string, digits: string)
    requires IsSign(sign) && AllDigits(digits)
    ensures Without(sign, '.', '.') && Without(digits, '.', '.') && Without(sign + digits, '.', '.')
  {
  }

  lemma ReadsBare(sign: string, digits: string, power: int)
    requires IsSign(sign) && IsNumber(digits)
    ensures ParseMantissa(sign + digits, power) == Value(sign, digits, power, 0)
  {
    NoPoint(sign, digits);
    NoCut(sign + digits, '.', '.');
    ReadsInteger(sign, digits);
  }

  lemma ReadsAround(sign: string, whole: string, fraction: string, power: int)
    requires IsSign(sign) && IsNumber(whole + fraction)
    ensures ParseMantissa(sign + whole + "." + fraction, power) == Value(sign, whole + fraction, power, |fraction|)
  {
    SplitDigits(whole, fraction);
    NoPoint(sign, whole);
    NoPoint(sign, fraction);
    assert (sign + whole) + fraction == sign + (whole + fraction);
    ReadsInteger(sign, whole + fraction);
    ReadsPointed(sign + whole, fraction, power);
  }

  lemma ReadsBehind(right: string, power: int)
    requires Without(right, '.', '.')
    ensures ParseMantissa("." + right, power) == Scale(ParseInteger(right), power - |right|)
  {
    assert "" + "." + right == "." + right && "" + right == right;
    ReadsPointed("", right, power);
  }

  lemma ReadsInside(sign: string, digits: string, power: int)
    requires IsSign(sign) && sign != "" && IsNumber(digits)
    ensures ParseMantissa("." + (sign + digits), power) == Value(sign, digits, power, |digits| + 1)
  {
    NoPoint(sign, digits);
    ReadsInteger(sign, digits);
    ReadsBehind(sign + digits, power);
  }

  lemma ReadsMantissa(m: Mantissa, power: int)
    requires IsMantissa(m)
    ensures ParseMantissa(MantissaText(m), power) == Value(m.sign, AllOf(m), power, Places(m))
  {
    match m
    case Bare(sign, digits) => ReadsBare(sign, digits, power);
    case Pointed(sign, whole, fraction) => ReadsAround(sign, whole, fraction, power);
    case Inside(sign, digits) => ReadsInside(sign, digits, power);
  }

  lemma MantissaUnmarked(m: Mantissa)
    requires IsMantissa(m)
    ensures Without(MantissaText(m), 'e', 'E')
  {
    match m
    case Bare(sign, digits) =>
    case Pointed(sign, whole, fraction) => SplitDigits(whole, fraction);
    case Inside(sign, digits) =>
  }

  lemma ReadsScientific(m: string, mark: char, exponent: string, power: int)
    requires Without(m, 'e', 'E') && (mark == 'e' || mark == 'E') && ParseInteger(exponent) == Some(power)
    ensures ParseDecimal(m + [mark] + exponent) == if InInt32(power) then ParseMantissa(m, power) else None
  {
    FirstCut(m, mark, exponent, 'e', 'E');
  }

  /**
    Every numeral is read as the integer its digits denote, with its sign, scaled by its exponent less the places behind
    the point; it is refused exactly when an exponent does not fit 32 bits.
  */
  lemma ReadsNumeral(n: Numeral)
    requires IsNumeral(n)
    ensures ParseDecimal(Written(n)) == Denoted(n)
  {
    MantissaUnmarked(n.m);
    ReadsMantissa(n.m, Power(n));
    match n
    case Fixed(m) => NoCut(MantissaText(m), 'e', 'E');
    case Scientific(m, mark, sign, power) =>
      ReadsInteger(sign, power);
      ReadsScientific(MantissaText(m), mark, sign + power, Power(n));
  }

  // ---------- Nothing else is read ----------

  lemma IntegerParts(s: string) returns (sign: string, digits: string)
    requires ParseInteger(s).Some?
    ensures IsSign(sign) && IsNumber(digits) && s == sign + digits
  {
    var signed := s[0] == '-' || s[0] == '+';
    sign, digits := if signed then s[..1] else "", if signed then s[1..] else s;
  }

  /** Two ways to cut a text in two: where the second does not come later, it cuts off a prefix of the rest. */
  lemma CutsAgree(left: string, right: string, sign: string, digits: string) returns (whole: string)
    requires left + right == sign + digits && |sign| <= |left|
    ensures left == sign + whole && digits == whole + right
  {
    whole := left[|sign|..];
    assert sign == (sign + digits)[..|sign|] == (left + right)[..|sign|];
    assert digits == (sign + digits)[|sign|..] == (left + right)[|sign|..];
  }

  lemma AroundPoint(left: string, right: string, sign: string, digits: string) returns (m: Mantissa)
    requires IsSign(sign) && IsNumber(digits) && left + right == sign + digits && |sign| <= |left|
    ensures IsMantissa(m) && MantissaText(m) == left + "." + right
  {
    var whole := CutsAgree(left, right, sign, digits);
    m := Pointed(sign, whole, right);
  }

  lemma BehindPoint(right: string) returns (m: Mantissa)
    requires ParseInteger(right).Some?
    ensures IsMantissa(m) && MantissaText(m) == "." + right
  {
    var sign, digits := IntegerParts(right);
    if sign == "" {
      m := Pointed("", "", digits);
      assert "" + "" + "." + digits == "." + digits && "" + digits == digits;
    } else {
      m := Inside(sign, digits);
    }
  }

  lemma BeforePoint(left: string, right: string) returns (m: Mantissa)
    requires left != "" && ParseInteger(left + right).Some?
    ensures IsMantissa(m) && MantissaText(m) == left + "." + right
  {
    var sign, digits := IntegerParts(left + right);
    m := AroundPoint(left, right, sign, digits);
  }

  lemma EmptyFirst(s: string)
    ensures "" + s == s && "" + "." + s == "." + s
  {
  }

  lemma PointedParts(left: string, right: string) returns (m: Mantissa)
    requires ParseInteger(left + right).Some?
    ensures IsMantissa(m) && MantissaText(m) == left + "." + right
  {
    if left == "" {
      EmptyFirst(right);
      m := BehindPoint(right);
    } else {
      m := BeforePoint(left, right);
    }
  }

  lemma BareParts(s: string) returns (m: Mantissa)
    requires ParseInteger(s).Some?
    ensures IsMantissa(m) && MantissaText(m) == s
  {
    var sign, digits := IntegerParts(s);
    m := Bare(sign, digits);
  }

  lemma MantissaParts(s: string, power: int) returns (m: Mantissa)
    requires ParseMantissa(s, power).Some?
    ensures IsMantissa(m) && MantissaText(m) == s
  {
    match CutFirst(s, '.', '.')
    case Uncut => m := BareParts(s);
    case CutAt(left, _, right) => m := PointedParts(left, right);
  }

  lemma NumeralParts(s: string) returns (n: Numeral)
    requires ParseDecimal(s).Some?
    ensures IsNumeral(n) && Written(n) == s
  {
    match CutFirst(s, 'e', 'E')
    case Uncut =>
      var m := MantissaParts(s, 0);
      n := Fixed(m);
    case CutAt(mantissa, mark, exponent) =>
      var m := MantissaParts(mantissa, ParseInteger(exponent).value);
      var sign, power := IntegerParts(exponent);
      n := Scientific(m, mark, sign, power);
  }

  /** Every text that is read is a numeral. */
  lemma OnlyNumerals(s: string) returns (n: Numeral)
    requires ParseDecimal(s).Some?
    ensures IsNumeral(n) && Written(n) == s && Denoted(n) == ParseDecimal(s)
  {
    n := NumeralParts(s);
    ReadsNumeral(n);
  }

  /** A text is read as `d` exactly when it is a numeral that denotes `d`. */
  lemma ReadsExactly(s: string, d: Decimal)
    ensures ParseDecimal(s) == Some(d) <==> exists n :: IsNumeral(n) && Written(n) == s && Denoted(n) == Some(d)
  {
    if ParseDecimal(s) == Some(d) {
      var n := OnlyNumerals(s);
    }
    forall n | IsNumeral(n) && Written(n) == s
      ensures ParseDecimal(s) == Denoted(n)
    {
      ReadsNumeral(n);
    }
  }

  // ---------- In a request ----------

  /** Trimming takes the padding off a text with none of its own. */
  lemma TrimsPadding(left: string, s: string, right: string)
    requires Blank(left) && Blank(right) && Trimmed(s) && s != ""
    ensures Trim(left + s + right) == s
  {
    var t := left + s + right;
    var i, j := TrimIsSlice(t);
    assert t[|left|] == s[0] && t[|left| + |s| - 1] == s[|s| - 1];
    assert forall k :: 0 <= k < |left| ==> t[k] == left[k];
    assert forall k :: |left| + |s| <= k < |t| ==> t[k] == right[k - |left| - |s|];
    assert t[i] == Trim(t)[0] && t[j - 1] == Trim(t)[j - i - 1];
    assert i == |left| && j == |left| + |s|;
    assert t[i..j] == s;
  }

  /** The characters numerals are made of. */
  predicate Sober(s: string) {
    forall k :: 0 <= k < |s| ==> IsDigit(s[k]) || s[k] in {'-', '+', '.', 'e', 'E'}
  }

  lemma MantissaSober(m: Mantissa)
    requires IsMantissa(m)
    ensures MantissaText(m) != "" && Sober(MantissaText(m))
  {
    match m
    case Bare(sign, digits) =>
    case Pointed(sign, whole, fraction) => SplitDigits(whole, fraction);
    case Inside(sign, digits) =>
  }

  lemma NumeralSober(n: Numeral)
    requires IsNumeral(n)
    ensures Written(n) != "" && Sober(Written(n))
  {
    MantissaSober(n.m);
  }

  lemma NumeralEnds(n: Numeral)
    requires IsNumeral(n)
    ensures Trimmed(Written(n)) && Written(n) != "" && Written(n)[0] != '"' && Written(n)[0] != 'n'
  {
    NumeralSober(n);
  }

  /** With no padding and no quotes, a numeral is read as it stands. */
  lemma ReadsUnpadded(n: Numeral)
    requires IsNumeral(n)
    ensures UnmarshalJSON(Written(n)) == Denoted(n)
  {
    NumeralEnds(n);
    TrimmedIffFixed(Written(n));
    ReadsNumeral(n);
  }

  lemma ReadsPadded(left: string, s: string, right: string)
    requires Blank(left) && Blank(right) && Trimmed(s) && s != "" && s[0] != '"' && s[0] != 'n'
    ensures UnmarshalJSON(left + s + right) == ParseDecimal(s)
  {
    TrimsPadding(left, s, right);
  }

  lemma ReadsQuoted(left: string, s: string, right: string)
    requires Blank(left) && Blank(right)
    ensures UnmarshalJSON(left + ("\"" + s + "\"") + right) == ParseDecimal(s)
  {
    var quoted := "\"" + s + "\"";
    assert quoted[1..|quoted| - 1] == s;
    TrimsPadding(left, quoted, right);
  }

  /** In a request, a numeral is read the same quoted and unquoted, whatever white space surrounds it. */
  lemma RequestAmount(n: Numeral, left: string, right: string)
    requires IsNumeral(n) && Blank(left) && Blank(right)
    ensures UnmarshalJSON(left + Written(n) + right) == Denoted(n)
    ensures UnmarshalJSON(left + ("\"" + Written(n) + "\"") + right) == Denoted(n)
  {
    ReadsNumeral(n);
    NumeralEnds(n);
    ReadsPadded(left, Written(n), right);
    ReadsQuoted(left, Written(n), right);
  }

  lemma NullIsZero(left: string, right: string)
    requires Blank(left) && Blank(right)
    ensures UnmarshalJSON(left + "null" + right) == Some(ZERO)
  {
    TrimsPadding(left, "null", right);
  }

  /** Nothing else is read: within the padding stands null, or a numeral that may be quoted. */
  lemma OnlyAmounts(data: string) returns (n: Numeral)
    requires UnmarshalJSON(data).Some? && Trim(data) != "null"
    ensures IsNumeral(n) && Denoted(n) == UnmarshalJSON(data)
    ensures Trim(data) == Written(n) || Trim(data) == "\"" + Written(n) + "\""
  {
    n := OnlyNumerals(Unquoted(Trim(data)));
  }

  lemma WholeIsNumeral(s: string)
    requires IsNumber(s)
    ensures IsNumeral(Fixed(Bare("", s))) && Written(Fixed(Bare("", s))) == s
  {
    assert "" + s == s;
  }

  /** A run of digits is the integer it denotes: 100 is a hundred. */
  lemma ReadsWhole(s: string)
    requires IsNumber(s)
    ensures UnmarshalJSON(s) == Some(Decimal(ParseDigits(s), 0))
  {
    WholeIsNumeral(s);
    ReadsUnpadded(Fixed(Bare("", s)));
  }

  lemma FixedDenotes(u: int, whole: string, fraction: string)
    requires IsNumber(whole + fraction) && ParseDigits(whole + fraction) == Abs(u) && |fraction| == 4
    ensures var n := Fixed(Pointed(Sign(u), whole, fraction)); IsNumeral(n) && Denoted(n) == Some(FromUnits(u))
  {
  }

  lemma ReadsFixed(u: int, whole: string, fraction: string)
    requires IsNumber(whole + fraction) && ParseDigits(whole + fraction) == Abs(u) && |fraction| == 4
    ensures UnmarshalJSON(Sign(u) + whole + "." + fraction) == Some(FromUnits(u))
  {
    FixedDenotes(u, whole, fraction);
    ReadsUnpadded(Fixed(Pointed(Sign(u), whole, fraction)));
  }

  /** Parsing what was printed gives back the amount rounded to four places; an accepted amount keeps its value. */
  lemma PrintThenParse(d: Decimal)
    ensures UnmarshalJSON(MarshalJSON(d)) == Some(FromUnits(Column(d)))
    ensures Scaled(d) ==> Column(d) == Units(d)
  {
    var whole, fraction := Printed(d);
    ReadsFixed(Column(d), whole, fraction);
    if Scaled(d) {
      RoundKeeps(d);
    }
  }
}
