/**
 * Values shared by every widget model: the dynamically typed option values
 * that the widgets receive as keyword arguments, the keyword-argument map
 * itself, Python's truthiness and Python's `int(...)` coercion.
 */
module Values {

  /** A Python value as an option can hold it: None, a bool, an int or a str. */
  datatype Value = NoneV | Bool(b: bool) | Int(i: int) | Str(s: string)

  /** The `**kwargs` dictionary of a constructor or of `configure`. */
  type Options = map<string, Value>

  /**
   * What a widget's `cget` answers: a value of the widget's own, or
   * Delegated when the key is handed on to the toolkit's base widget.
   */
  datatype Lookup = Found(value: Value) | Delegated

  datatype Option<T> = None | Some(value: T)

  datatype Result<T, E> = Ok(value: T) | Err(error: E)

  /** a is b with some characters deleted (and none reordered or added). */
  predicate IsSubsequence(a: string, b: string)
    decreases |b|
  {
    if b == [] then a == []
    else (a != [] && a[0] == b[0] && IsSubsequence(a[1..], b[1..])) || IsSubsequence(a, b[1..])
  }

  /** Python truthiness of a value, as `if value:` decides it. */
  predicate Truthy(v: Value) {
    match v
    case NoneV => false
    case Bool(b) => b
    case Int(i) => i != 0
    case Str(s) => s != ""
  }

  /** `kwargs.pop(key, default)`: the passed value, or the default when the key is absent. */
  function PopOr(opts: Options, key: string, default: Value): Value {
    if key in opts then opts[key] else default
  }

  /** `dict.get(key)`: the stored value, or None when the key is absent. */
  function GetOrNone(opts: Options, key: string): Value {
    if key in opts then opts[key] else NoneV
  }

  predicate IsDigit(c: char) {
    '0' <= c <= '9'
  }

  predicate AllDigits(s: string) {
    forall i :: 0 <= i < |s| ==> IsDigit(s[i])
  }

  function DigitValue(c: char): nat
    requires IsDigit(c)
  {
    c as int - '0' as int
  }

  function DigitChar(d: nat): (c: char)
    requires d < 10
    ensures IsDigit(c) && DigitValue(c) == d
  {
    ('0' as int + d) as char
  }

  /** The number a non-empty run of ASCII digits denotes, read most significant digit first. */
  function DigitsValue(s: string): nat
    requires AllDigits(s)
  {
    if s == [] then 0 else DigitsValue(s[..|s| - 1]) * 10 + DigitValue(s[|s| - 1])
  }

  /** The text `int(text)` accepts: an optional sign followed by at least one ASCII digit. */
  predicate IsIntegerLiteral(s: string) {
    if |s| > 0 && (s[0] == '-' || s[0] == '+') then
      |s| > 1 && AllDigits(s[1..])
    else
      |s| > 0 && AllDigits(s)
  }

  /** `int(text)` on a string: the value of a signed decimal literal, or None (ValueError). */
  function ParseInt(s: string): (r: Option<int>)
    ensures r.Some? <==> IsIntegerLiteral(s)
    ensures r.Some? && s[0] == '-' ==> r.value <= 0
    ensures r.Some? && s[0] != '-' ==> r.value >= 0
  {
    if |s| > 0 && (s[0] == '-' || s[0] == '+') then
      if |s| > 1 && AllDigits(s[1..]) then
        Some(if s[0] == '-' then 0 - DigitsValue(s[1..]) as int else DigitsValue(s[1..]))
      else None
    else if |s| > 0 && AllDigits(s) then Some(DigitsValue(s))
    else None
  }

  /**
   * Python's `int(value)` for the values an option can hold: an int is kept,
   * a bool is 0 or 1, a string is parsed, None raises (None here).
   */
  function ToInt(v: Value): (r: Option<int>)
    ensures v.Int? ==> r == Some(v.i)
    ensures v.Bool? ==> r == Some(if v.b then 1 else 0)
    ensures v.NoneV? ==> r.None?
    ensures v.Str? ==> (r.Some? <==> IsIntegerLiteral(v.s))
  {
    match v
    case NoneV => None
    case Bool(b) => Some(if b then 1 else 0)
    case Int(i) => Some(i)
    case Str(s) => ParseInt(s)
  }

  /** The decimal digits of a natural number, without leading zeros (`str(n)` for n >= 0). */
  function NatDecimal(n: nat): (s: string)
    ensures |s| > 0 && AllDigits(s)
    ensures |s| > 1 ==> s[0] != '0'
  {
    if n < 10 then [DigitChar(n)] else NatDecimal(n / 10) + [DigitChar(n % 10)]
  }

  /** `str(i)` for an int: a minus sign for negative numbers, then the digits. */
  function Decimal(i: int): string {
    if i < 0 then "-" + NatDecimal(-i) else NatDecimal(i)
  }

  /** Reading back the digits of a natural number gives the number. */
  lemma {:induction false} DigitsOfNatDecimal(n: nat)
    ensures DigitsValue(NatDecimal(n)) == n
  {
    if n >= 10 {
      var s := NatDecimal(n);
      assert s[..|s| - 1] == NatDecimal(n / 10);
      DigitsOfNatDecimal(n / 10);
    }
  }

  /** `int(str(i)) == i`: the integer coercion undoes the decimal rendering of every int. */
  lemma ParseDecimal(i: int)
    ensures ParseInt(Decimal(i)) == Some(i)
    ensures ToInt(Str(Decimal(i))) == Some(i)
  {
    if i < 0 {
      var s := Decimal(i);
      assert s[1..] == NatDecimal(-i);
      DigitsOfNatDecimal(-i);
    } else {
      DigitsOfNatDecimal(i);
    }
  }
}
