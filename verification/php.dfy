/**
 * The slice of PHP's runtime that the ticket core depends on: its values,
 * `empty()`, `trim()` and the string-to-integer conversion behind
 * `intval()` and WordPress's `absint()`.
 */
module Php {

  datatype Option<+T> = None | Some(value: T)

  /** Keys of a PHP array, which is an ordered map from int or string keys. */
  datatype Key = IntKey(n: int) | StrKey(s: string)

  /**
   * The PHP values that cross the core's boundaries. Floats and resources
   * are not modelled; an object is the ordered list of its properties.
   */
  datatype Value =
    | Null
    | Bool(b: bool)
    | Int(i: int)
    | Str(s: string)
    | Arr(entries: seq<(Key, Value)>)
    | Obj(props: seq<(string, Value)>)

  /** Bounds of a 64-bit PHP integer. */
  const PHP_INT_MAX: int := 0x7FFF_FFFF_FFFF_FFFF
  const PHP_INT_MIN: int := -0x8000_0000_0000_0000

  /** The two strings PHP considers empty. */
  predicate IsEmptyString(s: string) {
    s == "" || s == "0"
  }

  /**
   * PHP's `empty()`, which for these values is also `!(bool) $v`: exactly
   * null, `false`, 0, "", "0" and the empty array are empty; an object never is.
   */
  function IsEmpty(v: Value): (empty: bool)
    ensures empty <==> v == Null || v == Bool(false) || v == Int(0) || v == Str("") || v == Str("0") || v == Arr([])
  {
    match v
    case Null => true
    case Bool(b) => !b
    case Int(i) => i == 0
    case Str(s) => IsEmptyString(s)
    case Arr(entries) => entries == []
    case Obj(_) => false
  }

  /** Characters removed by `trim()` with its default character list. */
  predicate IsTrimChar(c: char) {
    c == ' ' || c == '\t' || c == '\n' || c == '\r' || c == '\0' || c == '\U{0B}'
  }

  function TrimLeft(s: string): (r: string)
    ensures |r| <= |s| && r == s[|s| - |r|..]
    ensures forall i :: 0 <= i < |s| - |r| ==> IsTrimChar(s[i])
    ensures r == [] || !IsTrimChar(r[0])
  {
    if s != [] && IsTrimChar(s[0]) then TrimLeft(s[1..]) else s
  }

  function TrimRight(s: string): (r: string)
    ensures |r| <= |s| && r == s[..|r|]
    ensures forall i :: |r| <= i < |s| ==> IsTrimChar(s[i])
    ensures r == [] || !IsTrimChar(r[|r| - 1])
  {
    if s != [] && IsTrimChar(s[|s| - 1]) then TrimRight(s[..|s| - 1]) else s
  }

  /**
   * PHP's `trim()`: the result is a slice of the input, everything cut off
   * on either side is a trim character, and the slice neither starts nor
   * ends with one.
   */
  function Trim(s: string): (r: string)
    ensures exists i, j :: 0 <= i <= j <= |s| && r == s[i..j]
                           && (forall k :: 0 <= k < i ==> IsTrimChar(s[k]))
                           && (forall k :: j <= k < |s| ==> IsTrimChar(s[k]))
    ensures r == [] || (!IsTrimChar(r[0]) && !IsTrimChar(r[|r| - 1]))
  {
    var left := TrimLeft(s);
    var r := TrimRight(left);
    var i := |s| - |left|;
    assert r == s[i..i + |r|];
    r
  }

  /** Whitespace skipped by C's `strtol`, which PHP uses for `intval()` on strings. */
  predicate IsSpace(c: char) {
    c == ' ' || c == '\t' || c == '\n' || c == '\U{0B}' || c == '\U{0C}' || c == '\r'
  }

  predicate IsDigit(c: char) {
    '0' <= c <= '9'
  }

  function DigitValue(c: char): nat
    requires IsDigit(c)
  {
    c as int - '0' as int
  }

  function SkipSpace(s: string): (r: string)
    ensures r == [] || !IsSpace(r[0])
  {
    if s != [] && IsSpace(s[0]) then SkipSpace(s[1..]) else s
  }

  /** The longest prefix of `s` made of decimal digits. */
  function LeadingDigits(s: string): (r: string)
    ensures |r| <= |s| && r == s[..|r|]
    ensures forall k :: 0 <= k < |r| ==> IsDigit(r[k])
    ensures |r| == |s| || !IsDigit(s[|r|])
  {
    if s != [] && IsDigit(s[0]) then [s[0]] + LeadingDigits(s[1..]) else []
  }

  /** The number a string of decimal digits denotes, read most significant digit first. */
  function DecimalValue(d: string): nat
    requires forall k :: 0 <= k < |d| ==> IsDigit(d[k])
  {
    if d == [] then 0 else 10 * DecimalValue(d[..|d| - 1]) + DigitValue(d[|d| - 1])
  }

  /** Saturation to the 64-bit range, as `strtol` does on overflow. */
  function Saturate(n: int): (r: int)
    ensures PHP_INT_MIN <= r <= PHP_INT_MAX
    ensures PHP_INT_MIN <= n <= PHP_INT_MAX ==> r == n
    ensures n > PHP_INT_MAX ==> r == PHP_INT_MAX
    ensures n < PHP_INT_MIN ==> r == PHP_INT_MIN
  {
    if n > PHP_INT_MAX then PHP_INT_MAX else if n < PHP_INT_MIN then PHP_INT_MIN else n
  }

  /**
   * `intval($s)` for a string: leading whitespace, an optional sign, then
   * the longest run of digits; anything after it is ignored and a string
   * without digits there gives 0.
   */
  function IntVal(s: string): (r: int)
    ensures PHP_INT_MIN <= r <= PHP_INT_MAX
  {
    var t := SkipSpace(s);
    if t != [] && t[0] == '-' then Saturate(-(DecimalValue(LeadingDigits(t[1..])) as int))
    else if t != [] && t[0] == '+' then Saturate(DecimalValue(LeadingDigits(t[1..])))
    else Saturate(DecimalValue(LeadingDigits(t)))
  }

  /** WordPress's `absint()`: the absolute value of `intval()`. */
  function AbsInt(s: string): (r: nat)
    ensures r <= -PHP_INT_MIN
    ensures r == IntVal(s) || r == -IntVal(s)
  {
    var n := IntVal(s);
    if n < 0 then -n else n
  }

  /** The canonical decimal rendering of a natural number, used to state round trips. */
  function DecimalString(n: nat): (r: string)
    ensures r != [] && forall k :: 0 <= k < |r| ==> IsDigit(r[k])
  {
    var c := ('0' as int + n % 10) as char;
    if n < 10 then [c] else DecimalString(n / 10) + [c]
  }

  lemma {:induction false} DecimalValueOfString(n: nat)
    ensures DecimalValue(DecimalString(n)) == n
  {
    var d := DecimalString(n);
    if n >= 10 {
      DecimalValueOfString(n / 10);
      assert d[..|d| - 1] == DecimalString(n / 10);
    }
  }

  lemma {:induction false} LeadingDigitsOfDigits(d: string, rest: string)
    requires forall k :: 0 <= k < |d| ==> IsDigit(d[k])
    requires rest == [] || !IsDigit(rest[0])
    ensures LeadingDigits(d + rest) == d
  {
    if d != [] {
      LeadingDigitsOfDigits(d[1..], rest);
      assert (d + rest)[1..] == d[1..] + rest;
    }
  }

  lemma ReadsDigitsBack(n: nat, rest: string)
    requires rest == [] || !IsDigit(rest[0])
    ensures DecimalValue(LeadingDigits(DecimalString(n) + rest)) == n
  {
    DecimalValueOfString(n);
    LeadingDigitsOfDigits(DecimalString(n), rest);
  }

  lemma IntValUnsigned(t: string)
    requires t != [] && IsDigit(t[0])
    ensures IntVal(t) == Saturate(DecimalValue(LeadingDigits(t)))
  {
    assert SkipSpace(t) == t;
  }

  lemma IntValMinus(t: string)
    requires t != [] && IsDigit(t[0])
    ensures IntVal("-" + t) == Saturate(-(DecimalValue(LeadingDigits(t)) as int))
  {
    var u := "-" + t;
    assert u[0] == '-';
    assert SkipSpace(u) == u;
    assert u[1..] == t;
  }

  /**
   * `intval()` reads back any number in range from its decimal rendering,
   * with or without a minus sign, and ignores whatever non-digit text
   * follows it.
   */
  lemma {:induction false} IntValOfDecimal(n: nat, rest: string)
    requires rest == [] || !IsDigit(rest[0])
    ensures n <= PHP_INT_MAX ==> IntVal(DecimalString(n) + rest) == n
    ensures n <= -PHP_INT_MIN ==> IntVal("-" + DecimalString(n) + rest) == -(n as int)
  {
    var d := DecimalString(n);
    var t := d + rest;
    ReadsDigitsBack(n, rest);
    assert t[0] == d[0];
    if n <= PHP_INT_MAX {
      IntValUnsigned(t);
    }
    if n <= -PHP_INT_MIN {
      IntValMinus(t);
      assert "-" + d + rest == "-" + t;
    }
  }

  /**
   * A decimal rendering beyond the 64-bit range does not wrap around:
   * `intval()` reads it as `PHP_INT_MAX`, or as `PHP_INT_MIN` behind a minus sign.
   */
  lemma IntValSaturates(n: nat, rest: string)
    requires rest == [] || !IsDigit(rest[0])
    ensures n > PHP_INT_MAX ==> IntVal(DecimalString(n) + rest) == PHP_INT_MAX
    ensures n > -PHP_INT_MIN ==> IntVal("-" + DecimalString(n) + rest) == PHP_INT_MIN
  {
    var d := DecimalString(n);
    var t := d + rest;
    ReadsDigitsBack(n, rest);
    assert t[0] == d[0];
    if n > PHP_INT_MAX {
      IntValUnsigned(t);
    }
    if n > -PHP_INT_MIN {
      IntValMinus(t);
      assert "-" + d + rest == "-" + t;
    }
  }
}
