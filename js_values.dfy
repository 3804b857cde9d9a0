/** The few JavaScript value rules the pages rely on: the scalar values kept in forms and
    records, truthiness, `||`, `*`, `+`, conversion to a string in a template literal,
    `Number(...)`, `parseInt(..., radix)` and `String.prototype.trim`.
    Numbers are integers in this model. */
module JsValues {
  import opened Wrappers

  /** A scalar JavaScript value. NaN is kept apart because arithmetic on a missing field
      produces it. */
  datatype Value = Undefined | Null | Str(s: string) | Num(n: int) | NaN

  /** JavaScript truthiness: the empty string, 0, NaN, null and undefined are falsy. */
  predicate Truthy(v: Value) {
    match v
    case Str(s) => s != ""
    case Num(n) => n != 0
    case _ => false
  }

  /** `a || b`. */
  function Or(a: Value, b: Value): (r: Value)
    ensures Truthy(a) ==> r == a
    ensures !Truthy(a) ==> r == b
  {
    if Truthy(a) then a else b
  }

  // ---------------------------------------------------------------- characters

  predicate IsDigit(c: char) {
    '0' <= c <= '9'
  }

  predicate AllDigits(s: string) {
    forall i :: 0 <= i < |s| ==> IsDigit(s[i])
  }

  /** The white space and line terminators that `trim` and `parseInt` skip. */
  predicate IsWhitespace(c: char) {
    || c == '\t' || c == '\n' || c == '\U{0B}' || c == '\U{0C}' || c == '\r' || c == ' '
    || c == '\U{A0}' || c == '\U{1680}' || ('\U{2000}' <= c <= '\U{200A}')
    || c == '\U{2028}' || c == '\U{2029}' || c == '\U{202F}' || c == '\U{205F}'
    || c == '\U{3000}' || c == '\U{FEFF}'
  }

  /** The value of a character read as a digit in some radix up to 36 (digits, then
      letters of either case); 36 for a character that is a digit in no radix. */
  function DigitOf(c: char): (d: nat)
    ensures d <= 36
    ensures d < 10 <==> IsDigit(c)
  {
    if '0' <= c <= '9' then c as int - '0' as int
    else if 'a' <= c <= 'z' then c as int - 'a' as int + 10
    else if 'A' <= c <= 'Z' then c as int - 'A' as int + 10
    else 36
  }

  predicate AllDigitsIn(s: string, radix: nat) {
    forall i :: 0 <= i < |s| ==> DigitOf(s[i]) < radix
  }

  /** The positional value of a digit string, most significant digit first. */
  function Positional(s: string, radix: nat): nat
    requires AllDigitsIn(s, radix)
  {
    if s == [] then 0 else Positional(s[..|s| - 1], radix) * radix + DigitOf(s[|s| - 1])
  }

  function DigitChar(d: nat): (c: char)
    requires d < 10
    ensures IsDigit(c) && DigitOf(c) == d
  {
    ('0' as int + d) as char
  }

  // ---------------------------------------------------------------- to string

  /** The decimal digits of a natural number, without leading zeros. */
  function DecimalString(n: nat): (r: string)
    ensures 1 <= |r| && AllDigits(r)
    ensures |r| > 1 ==> r[0] != '0'
  {
    if n < 10 then [DigitChar(n)] else DecimalString(n / 10) + [DigitChar(n % 10)]
  }

  /** Reading the decimal digits back gives the number. */
  lemma {:induction false} DecimalRoundTrip(n: nat)
    ensures AllDigitsIn(DecimalString(n), 10)
    ensures Positional(DecimalString(n), 10) == n
  {
    var s := DecimalString(n);
    if n >= 10 {
      DecimalRoundTrip(n / 10);
      assert s[..|s| - 1] == DecimalString(n / 10);
    }
  }

  function IntToString(n: int): string {
    if n < 0 then "-" + DecimalString(-n) else DecimalString(n)
  }

  /** `${v}`: the string a template literal shows for the value. */
  function ToString(v: Value): string {
    match v
    case Undefined => "undefined"
    case Null => "null"
    case Str(s) => s
    case Num(n) => IntToString(n)
    case NaN => "NaN"
  }

  // ---------------------------------------------------------------- arithmetic

  /** `Number(s)` for a string: an optional sign followed by decimal digits; the empty
      string is 0. */
  function StringToNumber(s: string): (r: Option<int>)
    ensures AllDigits(s) ==> r == Some(Positional(s, 10))
    ensures |s| >= 2 && s[0] == '-' && AllDigits(s[1..]) ==> r == Some(-(Positional(s[1..], 10) as int))
    ensures |s| >= 2 && s[0] == '+' && AllDigits(s[1..]) ==> r == Some(Positional(s[1..], 10))
    ensures r.Some? ==> forall i :: 0 < i < |s| ==> IsDigit(s[i])
  {
    if AllDigits(s) then Some(Positional(s, 10))
    else if |s| >= 2 && (s[0] == '-' || s[0] == '+') && AllDigits(s[1..]) then
      Some(if s[0] == '-' then -(Positional(s[1..], 10) as int) else Positional(s[1..], 10))
    else None
  }

  /** `Number(v)`, with None for NaN. */
  function ToNumber(v: Value): (r: Option<int>)
    ensures v.Num? ==> r == Some(v.n)
    ensures v.Null? ==> r == Some(0)
    ensures v.Str? ==> r == StringToNumber(v.s)
    ensures v.Undefined? || v.NaN? ==> r.None?
  {
    match v
    case Undefined => None
    case Null => Some(0)
    case Str(s) => StringToNumber(s)
    case Num(n) => Some(n)
    case NaN => None
  }

  /** `Number(`${n}`)`: the text of an integer converts back to it, negative or not. */
  lemma NumberOfIntToString(n: int)
    ensures ToNumber(Str(IntToString(n))) == Some(n)
  {
    if n < 0 {
      NegativeText(-n);
    } else {
      DecimalRoundTrip(n);
      assert StringToNumber(DecimalString(n)) == Some(Positional(DecimalString(n), 10));
    }
  }

  lemma NegativeText(m: nat)
    requires m > 0
    ensures StringToNumber("-" + DecimalString(m)) == Some(-(m as int))
  {
    var d := DecimalString(m);
    DecimalRoundTrip(m);
    var t := "-" + d;
    assert t[1..] == d;
    assert |t| >= 2 && t[0] == '-' && AllDigits(t[1..]);
  }

  /** `a * b`: both operands are converted to numbers; NaN is contagious. */
  function Mul(a: Value, b: Value): (r: Value)
    ensures r.Num? || r.NaN?
    ensures r.Num? <==> ToNumber(a).Some? && ToNumber(b).Some?
    ensures r.Num? ==> r.n == ToNumber(a).value * ToNumber(b).value
  {
    match (ToNumber(a), ToNumber(b))
    case (Some(x), Some(y)) => Num(x * y)
    case _ => NaN
  }

  /** `a + b`: string concatenation when either operand is a string, numeric addition
      otherwise. */
  function Add(a: Value, b: Value): (r: Value)
    ensures a.Str? || b.Str? ==> r == Str(ToString(a) + ToString(b))
    ensures !a.Str? && !b.Str? ==> (r.Num? <==> ToNumber(a).Some? && ToNumber(b).Some?)
    ensures r.Num? ==> r.n == ToNumber(a).value + ToNumber(b).value
  {
    if a.Str? || b.Str? then Str(ToString(a) + ToString(b))
    else match (ToNumber(a), ToNumber(b))
      case (Some(x), Some(y)) => Num(x + y)
      case _ => NaN
  }

  // ---------------------------------------------------------------- trim

  /** Drop leading white space. */
  function TrimStart(s: string): (r: string)
    ensures |r| <= |s| && r == s[|s| - |r|..]
    ensures r != [] ==> !IsWhitespace(r[0])
    ensures forall i :: 0 <= i < |s| - |r| ==> IsWhitespace(s[i])
  {
    if s != [] && IsWhitespace(s[0]) then TrimStart(s[1..]) else s
  }

  /** Drop trailing white space. */
  function TrimEnd(s: string): (r: string)
    ensures |r| <= |s| && r == s[..|r|]
    ensures r != [] ==> !IsWhitespace(r[|r| - 1])
    ensures forall i :: |r| <= i < |s| ==> IsWhitespace(s[i])
  {
    if s != [] && IsWhitespace(s[|s| - 1]) then TrimEnd(s[..|s| - 1]) else s
  }

  /** `String.prototype.trim`. */
  function Trim(s: string): string {
    TrimEnd(TrimStart(s))
  }

  // ---------------------------------------------------------------- parseInt

  /** The length of the longest prefix of s made of digits of the radix. */
  function DigitRun(s: string, radix: nat): (k: nat)
    ensures k <= |s| && AllDigitsIn(s[..k], radix)
    ensures k < |s| ==> DigitOf(s[k]) >= radix
  {
    if s == [] || DigitOf(s[0]) >= radix then 0
    else
      var k := 1 + DigitRun(s[1..], radix);
      assert s[..k] == [s[0]] + s[1..][..k - 1];
      k
  }

  /** `parseInt(s, radix)`: skip white space, read an optional sign, then the longest run
      of digits of the radix; NaN (None) when that run is empty. Radix 16, whose `0x`
      prefix parseInt also skips, is not covered. */
  function ParseInt(s: string, radix: nat): Option<int>
    requires 2 <= radix <= 36 && radix != 16
  {
    var t := TrimStart(s);
    var negative := |t| > 0 && t[0] == '-';
    var body := if |t| > 0 && (t[0] == '-' || t[0] == '+') then t[1..] else t;
    var k := DigitRun(body, radix);
    if k == 0 then None
    else
      var v: int := Positional(body[..k], radix);
      Some(if negative then -v else v)
  }

  lemma {:induction false} DigitRunWhole(s: string, radix: nat)
    requires AllDigitsIn(s, radix)
    ensures DigitRun(s, radix) == |s|
  {
    if s != [] {
      DigitRunWhole(s[1..], radix);
    }
  }

  /** A non-empty string of digits of the radix parses to its positional value. */
  lemma ParseIntOfDigits(s: string, radix: nat)
    requires 2 <= radix <= 36 && radix != 16
    requires s != [] && AllDigitsIn(s, radix)
    ensures ParseInt(s, radix) == Some(Positional(s, radix))
  {
    assert DigitOf(s[0]) < 36;
    assert !IsWhitespace(s[0]) && s[0] != '-' && s[0] != '+';
    assert TrimStart(s) == s;
    DigitRunWhole(s, radix);
    assert s[..|s|] == s;
  }

  /** parseInt in radix 10 reads back what a decimal template literal wrote. */
  lemma ParseIntDecimalRoundTrip(n: nat)
    ensures ParseInt(DecimalString(n), 10) == Some(n)
  {
    DecimalRoundTrip(n);
    ParseIntOfDigits(DecimalString(n), 10);
  }
}
