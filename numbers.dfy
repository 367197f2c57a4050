/**
  The slice of JavaScript numbers the storefront uses: product ids and prices are
  integers, and `Number(...)` of a string that is not numeric is NaN.
  Conversions: `Number(s)` on strings and `n.toString()` / `${n}` on integers.
*/
module Numbers {
  import opened Wrappers

  /** An integral JavaScript number, or NaN. Datatype equality is the SameValueZero
      comparison of `Array.prototype.includes` (NaN equals NaN, -0 equals 0). */
  datatype Number = Int(value: int) | NaN

  /** `x === n` for an integer `n`: NaN is strictly equal to nothing. */
  predicate StrictEquals(x: Number, n: int) {
    x == Int(n)
  }

  /** A prop typed `string | number`, as the Catalog component passes ids. */
  datatype IdValue = NumId(num: Number) | StrId(str: string)

  predicate IsDigit(c: char) {
    '0' <= c <= '9'
  }

  predicate AllDigits(s: string) {
    forall i :: 0 <= i < |s| ==> IsDigit(s[i])
  }

  function DigitChar(d: nat): (c: char)
    requires d < 10
    ensures IsDigit(c)
  {
    ('0' as int + d) as char
  }

  function DigitValue(c: char): (d: nat)
    requires IsDigit(c)
    ensures d < 10 && DigitChar(d) == c
  {
    c as int - '0' as int
  }

  /** The value of a string of decimal digits, most significant digit first. */
  function DigitsValue(s: string): nat
    requires AllDigits(s)
    decreases |s|
  {
    if s == [] then 0 else DigitsValue(s[..|s| - 1]) * 10 + DigitValue(s[|s| - 1])
  }

  /** A decimal integer literal: an optional sign followed by at least one digit. */
  predicate IsDecimalLiteral(s: string) {
    (|s| > 0 && AllDigits(s)) || (|s| > 1 && (s[0] == '-' || s[0] == '+') && AllDigits(s[1..]))
  }

  /** The integer a decimal literal denotes; None for any other string. */
  function ParseDecimal(s: string): (r: Option<int>)
    ensures r.Some? <==> IsDecimalLiteral(s)
    ensures r.Some? && AllDigits(s) ==> r.value >= 0
    ensures r.Some? && s[0] == '-' ==> r.value <= 0
    ensures r.Some? && AllDigits(s) ==> r.value == DigitsValue(s)
    ensures r.Some? && !AllDigits(s) ==>
              r.value == (if s[0] == '-' then -(DigitsValue(s[1..]) as int) else DigitsValue(s[1..]))
  {
    if |s| > 0 && AllDigits(s) then Some(DigitsValue(s))
    else if |s| > 1 && s[0] == '-' && AllDigits(s[1..]) then Some(-(DigitsValue(s[1..]) as int))
    else if |s| > 1 && s[0] == '+' && AllDigits(s[1..]) then Some(DigitsValue(s[1..]))
    else None
  }

  /** `Number(s)`: the empty string is 0, a decimal literal its value, anything else NaN. */
  function StringToNumber(s: string): (r: Number)
    ensures s == "" ==> r == Int(0)
    ensures s != "" && AllDigits(s) ==> r == Int(DigitsValue(s))
    ensures s != "" && IsDecimalLiteral(s) ==> r == Int(ParseDecimal(s).value)
    ensures s != "" && !IsDecimalLiteral(s) ==> r == NaN
  {
    if s == "" then Int(0)
    else match ParseDecimal(s)
      case Some(n) => Int(n)
      case None => NaN
  }

  /** `Number(v)` on a `string | number` value: a number is left as it is. */
  function ToNumber(v: IdValue): (r: Number)
    ensures v.NumId? ==> r == v.num
    ensures v.StrId? ==> r == StringToNumber(v.str)
  {
    match v
    case NumId(x) => x
    case StrId(s) => StringToNumber(s)
  }

  /** Decimal digits of a natural number, without leading zeros. */
  function NatToString(n: nat): (r: string)
    ensures |r| > 0 && AllDigits(r)
    ensures r[0] == '0' ==> n == 0 && r == "0"
    decreases n
  {
    if n < 10 then [DigitChar(n)] else NatToString(n / 10) + [DigitChar(n % 10)]
  }

  /** `n.toString()` for an integer: a minus sign before the digits of a negative value. */
  function IntToString(n: int): (r: string)
    ensures |r| > 0
    ensures n >= 0 <==> AllDigits(r)
    ensures n < 0 <==> r[0] == '-'
  {
    if n < 0 then
      var r := "-" + NatToString(-n);
      assert !IsDigit(r[0]);
      r
    else NatToString(n)
  }

  /** `x.toString()` and `${x}` for a number. */
  function NumberToString(x: Number): (r: string)
    ensures r != ""
  {
    match x
    case Int(n) => IntToString(n)
    case NaN => "NaN"
  }

  /** `${v}` for a `string | number` value: a string as it is, a number as text
      that `Number` reads back as that number. */
  function IdText(v: IdValue): (r: string)
    ensures v.StrId? ==> r == v.str
    ensures v.NumId? ==> r != "" && StringToNumber(r) == v.num
  {
    match v
    case NumId(x) => NumberRoundTrip(x); NumberToString(x)
    case StrId(s) => s
  }

  /** Reading back the digits written for `n` gives `n`. */
  lemma {:induction false} DigitsOfNatToString(n: nat)
    ensures DigitsValue(NatToString(n)) == n
    decreases n
  {
    var r := NatToString(n);
    if n >= 10 {
      var prefix := NatToString(n / 10);
      assert r == prefix + [DigitChar(n % 10)];
      assert r[..|r| - 1] == prefix;
      DigitsOfNatToString(n / 10);
    }
  }

  /** Parsing `n.toString()` gives back `n`, for every integer. */
  lemma ParseIntToString(n: int)
    ensures ParseDecimal(IntToString(n)) == Some(n)
  {
    var s := IntToString(n);
    if n < 0 {
      assert s[1..] == NatToString(-n);
      assert !IsDigit(s[0]);
      DigitsOfNatToString(-n);
    } else {
      DigitsOfNatToString(n);
    }
  }

  /** `Number(x.toString())` is `x` again, NaN included. */
  lemma NumberRoundTrip(x: Number)
    ensures StringToNumber(NumberToString(x)) == x
  {
    match x
    case Int(n) =>
      ParseIntToString(n);
    case NaN =>
      assert !IsDigit("NaN"[0]);
  }

  /** The other direction: a digit string without leading zeros is what
      `toString` writes for the value it denotes. */
  lemma {:induction false} NatToStringOfDigits(s: string)
    requires |s| > 0 && AllDigits(s)
    requires s[0] == '0' ==> |s| == 1
    ensures NatToString(DigitsValue(s)) == s
    decreases |s|
  {
    if |s| > 1 {
      var prefix := s[..|s| - 1];
      var d := DigitValue(s[|s| - 1]);
      NatToStringOfDigits(prefix);
      var v := DigitsValue(prefix);
      assert v != 0;
      assert DigitsValue(s) == v * 10 + d;
      assert DigitsValue(s) / 10 == v && DigitsValue(s) % 10 == d;
      assert s == prefix + [s[|s| - 1]];
    }
  }

  /** `toString` is injective, so distinct ids have distinct strings. */
  lemma NumberToStringInjective(x: Number, y: Number)
    requires NumberToString(x) == NumberToString(y)
    ensures x == y
  {
    NumberRoundTrip(x);
    NumberRoundTrip(y);
  }
}
