/**
 * The PHP values that flow through the configuration and the cache, and the
 * few language rules the core relies on: `empty()`, truthiness, conversion to
 * string, `is_numeric` and the `(int)` cast of a string.
 * Floats and objects are not modelled.
 */
module PhpValue {
  import opened Wrappers
  import opened PhpArray

  datatype Value =
    | Null
    | Bool(b: bool)
    | Int(i: int)
    | Str(s: string)
    | Arr(entries: seq<(string, Value)>)

  /** The values PHP converts to false. */
  predicate Falsy(v: Value)
  {
    match v
    case Null => true
    case Bool(b) => !b
    case Int(i) => i == 0
    case Str(s) => s == "" || s == "0"
    case Arr(e) => e == []
  }

  /** `empty($x)` for an array element that may be unset (None). */
  predicate IsEmpty(x: Option<Value>)
  {
    x.None? || Falsy(x.value)
  }

  /**
   * `$v['key']` as read by `empty()` and `isset()`: the element of an array;
   * a scalar has no such element.
   */
  function Field(v: Value, key: string): Option<Value>
  {
    if v.Arr? then Lookup(v.entries, key) else None
  }

  predicate IsDigit(c: char)
  {
    '0' <= c <= '9'
  }

  predicate AllDigits(s: string)
  {
    forall i :: 0 <= i < |s| ==> IsDigit(s[i])
  }

  function DigitChar(d: nat): (c: char)
    requires d < 10
    ensures IsDigit(c)
  {
    (('0' as int) + d) as char
  }

  function DigitValue(c: char): (d: nat)
    requires IsDigit(c)
    ensures d < 10 && DigitChar(d) == c
  {
    (c as int) - ('0' as int)
  }

  /** Decimal text of a natural number, most significant digit first. */
  function NatToString(n: nat): (s: string)
    ensures |s| > 0 && AllDigits(s)
    decreases n
  {
    if n < 10 then [DigitChar(n)]
    else
      var s := NatToString(n / 10) + [DigitChar(n % 10)];
      assert forall i :: 0 <= i < |s| - 1 ==> s[i] == NatToString(n / 10)[i];
      s
  }

  /** PHP's decimal text of an integer (`(string)$n`, `"{$n}"`). */
  function IntToString(n: int): string
  {
    if n < 0 then "-" + NatToString(-n) else NatToString(n)
  }

  /**
   * PHP's conversion of a value to string: an integer becomes numeric text,
   * `true` the numeric "1" and `false` and null the empty text; a string is
   * itself, and an array the word "Array".
   */
  function Text(v: Value): (r: string)
    ensures v.Int? ==> IsNumericString(r)
    ensures v.Bool? ==> (IsNumericString(r) <==> v.b)
    ensures v.Null? ==> r == []
    ensures v.Str? ==> r == v.s
    ensures v.Arr? ==> !IsNumericString(r)
  {
    match v
    case Null => ""
    case Bool(b) => if b then "1" else ""
    case Int(i) => IntToStringIsNumeric(i); IntToString(i)
    case Str(s) => s
    case Arr(_) => "Array"
  }

  /**
   * `is_numeric` on a string, restricted to optionally signed decimal
   * integers: such text starts with a digit or a sign and ends with a digit.
   */
  function IsNumericString(s: string): (r: bool)
    ensures r ==> |s| > 0 && IsDigit(s[|s| - 1])
    ensures r ==> IsDigit(s[0]) || s[0] == '+' || s[0] == '-'
  {
    if |s| > 0 && (s[0] == '+' || s[0] == '-') then |s| > 1 && AllDigits(s[1..])
    else |s| > 0 && AllDigits(s)
  }

  /** `is_numeric($v)`: integers and numeric strings. */
  predicate IsNumeric(v: Value)
  {
    v.Int? || (v.Str? && IsNumericString(v.s))
  }

  /** The value of a run of decimal digits. */
  function DigitsValue(d: string): nat
    requires AllDigits(d)
  {
    if d == [] then 0 else DigitsValue(d[..|d| - 1]) * 10 + DigitValue(d[|d| - 1])
  }

  /** The longest prefix of `s` made of digits. */
  function DigitRun(s: string): (d: string)
    ensures AllDigits(d) && d <= s
    ensures |d| < |s| ==> !IsDigit(s[|d|])
  {
    if s != [] && IsDigit(s[0]) then [s[0]] + DigitRun(s[1..]) else []
  }

  /** The white space PHP skips before the number in a `(int)` cast. */
  predicate IsSpace(c: char)
  {
    c == ' ' || c == '\t' || c == '\n' || c == '\r' || c == 11 as char || c == 12 as char
  }

  function TrimStart(s: string): (t: string)
    ensures |t| <= |s|
    ensures t != [] ==> !IsSpace(t[0])
  {
    if s != [] && IsSpace(s[0]) then TrimStart(s[1..]) else s
  }

  /** What follows an optional leading sign. */
  function Unsigned(t: string): string
  {
    if t != [] && (t[0] == '-' || t[0] == '+') then t[1..] else t
  }

  /**
   * `(int)$s`: the integer that leads the string after white space, with an
   * optional sign; 0 when no digit leads.
   */
  function IntCast(s: string): (r: int)
    ensures DigitRun(Unsigned(TrimStart(s))) == [] ==> r == 0
    ensures r < 0 ==> TrimStart(s) != [] && TrimStart(s)[0] == '-'
  {
    var t := TrimStart(s);
    if t != [] && t[0] == '-' then -(DigitsValue(DigitRun(t[1..])) as int)
    else if t != [] && t[0] == '+' then DigitsValue(DigitRun(t[1..]))
    else DigitsValue(DigitRun(t))
  }

  lemma {:induction false} DigitRunOfDigits(d: string, rest: string)
    requires AllDigits(d)
    requires rest == [] || !IsDigit(rest[0])
    ensures DigitRun(d + rest) == d
  {
    if d != [] {
      assert (d + rest)[1..] == d[1..] + rest;
      DigitRunOfDigits(d[1..], rest);
      assert d == [d[0]] + d[1..];
    } else {
      assert d + rest == rest;
    }
  }

  lemma {:induction false} DigitsValueOfNat(n: nat)
    ensures DigitsValue(NatToString(n)) == n
    decreases n
  {
    var s := NatToString(n);
    if n >= 10 {
      DigitsValueOfNat(n / 10);
      assert s[..|s| - 1] == NatToString(n / 10);
    }
  }

  lemma TrimStartOfNonSpace(t: string)
    requires t != [] && !IsSpace(t[0])
    ensures TrimStart(t) == t
  {
  }

  lemma DigitRunAfterSign(sign: char, digits: string, rest: string)
    requires AllDigits(digits)
    requires rest == [] || !IsDigit(rest[0])
    ensures DigitRun(([sign] + (digits + rest))[1..]) == digits
  {
    assert ([sign] + (digits + rest))[1..] == digits + rest;
    DigitRunOfDigits(digits, rest);
  }

  lemma CastOfDigits(digits: string, rest: string)
    requires |digits| > 0 && AllDigits(digits)
    requires rest == [] || !IsDigit(rest[0])
    ensures IntCast(digits + rest) == DigitsValue(digits)
  {
    assert (digits + rest)[0] == digits[0];
    TrimStartOfNonSpace(digits + rest);
    DigitRunOfDigits(digits, rest);
  }

  lemma CastOfNegatedDigits(digits: string, rest: string)
    requires |digits| > 0 && AllDigits(digits)
    requires rest == [] || !IsDigit(rest[0])
    ensures IntCast(['-'] + (digits + rest)) == -(DigitsValue(digits) as int)
  {
    TrimStartOfNonSpace(['-'] + (digits + rest));
    DigitRunAfterSign('-', digits, rest);
  }

  /**
   * The `(int)` cast reads back the integer that `IntToString` wrote, also
   * when a non-digit (a unit letter, say) follows it.
   */
  lemma {:induction false} IntCastOfIntToString(n: int, rest: string)
    requires rest == [] || !IsDigit(rest[0])
    ensures IntCast(IntToString(n) + rest) == n
  {
    if n < 0 {
      DigitsValueOfNat(-n);
      CastOfNegatedDigits(NatToString(-n), rest);
      assert IntToString(n) + rest == ['-'] + (NatToString(-n) + rest);
    } else {
      DigitsValueOfNat(n);
      CastOfDigits(NatToString(n), rest);
    }
  }

  /** Every integer's decimal text is a numeric string. */
  lemma IntToStringIsNumeric(n: int)
    ensures IsNumericString(IntToString(n))
  {
    var m: nat := if n < 0 then -n else n;
    assert IsDigit(NatToString(m)[0]);
    if n < 0 {
      assert IntToString(n)[1..] == NatToString(m);
    }
  }
}
