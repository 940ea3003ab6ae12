/** Python-level building blocks shared by the instrument drivers: the exceptions
    they raise, the conversions int() and float() applied to the values the GUI
    and the configuration hand to the setters, Python's round() and math.ceil(),
    and str() of an integer. */
module PyBase {

  /** The exceptions the drivers raise (ValueError carries a short reason). */
  datatype Error =
    | ValueError(reason: string)
    | IndexError
    | TypeError
    | ZeroDivisionError
    | StructError   // struct.pack/struct.unpack refusing a value or a buffer length

  datatype Option<+T> = None | Some(value: T)

  /** A computation that either returns a value or raises. */
  datatype Result<+T> = Ok(value: T) | Err(error: Error)

  /** A statement that either completes or raises. */
  datatype Outcome = Pass | Fail(error: Error)

  /** A value as a setter receives it: an int, a float, or the text of an entry field. */
  datatype PyValue = PyInt(i: int) | PyFloat(x: real) | PyStr(s: string)

  // ---------------------------------------------------------------------------
  // Decimal digits

  predicate IsDigit(c: char) { '0' <= c <= '9' }

  predicate AllDigits(s: string) { forall k :: 0 <= k < |s| ==> IsDigit(s[k]) }

  function DigitChar(d: int): (c: char)
    requires 0 <= d < 10
    ensures IsDigit(c) && c as int - '0' as int == d
  {
    ('0' as int + d) as char
  }

  /** The number a string of decimal digits denotes, most significant digit
      first, or None when one of its characters is not a digit. */
  function DigitsValue(s: string): Option<nat>
  {
    if |s| == 0 then Some(0)
    else if !IsDigit(s[|s| - 1]) then None
    else
      match DigitsValue(s[..|s| - 1])
      case None => None
      case Some(n) => Some(n * 10 + (s[|s| - 1] as int - '0' as int))
  }

  // ---------------------------------------------------------------------------
  // str() of an integer

  /** Decimal text of a natural number, without leading zeros. */
  function NatToDecimal(n: nat): (s: string)
    ensures |s| > 0 && AllDigits(s)
    ensures s[0] == '0' ==> n == 0
  {
    if n < 10 then [DigitChar(n)] else NatToDecimal(n / 10) + [DigitChar(n % 10)]
  }

  /** str(n) for a Python int. */
  function IntToDecimal(n: int): (s: string)
    ensures |s| > 0
  {
    if n < 0 then "-" + NatToDecimal(-n) else NatToDecimal(n)
  }

  // ---------------------------------------------------------------------------
  // int() and float() of a string

  /** int(s) for text: an optional sign followed by at least one decimal digit. */
  function ParseInt(s: string): Option<int>
  {
    var negative := |s| > 0 && s[0] == '-';
    var body := if |s| > 0 && (s[0] == '-' || s[0] == '+') then s[1..] else s;
    if |body| == 0 then None
    else
      match DigitsValue(body)
      case None => None
      case Some(n) => var i: int := n; Some(if negative then -i else i)
  }

  /** Position of the first '.' in s, or |s| when there is none. */
  function DotIndex(s: string): (i: nat)
    ensures i <= |s|
  {
    if |s| == 0 then 0 else if s[0] == '.' then 0 else 1 + DotIndex(s[1..])
  }

  /** The value of the digits after a decimal point ("25" is 0.25), or None
      when one of them is not a digit. */
  function FractionValue(s: string): Option<real>
  {
    if |s| == 0 then Some(0.0)
    else if !IsDigit(s[0]) then None
    else
      match FractionValue(s[1..])
      case None => None
      case Some(x) => Some(((s[0] as int - '0' as int) as real + x) / 10.0)
  }

  /** Unsigned decimal: digits, optionally a point and more digits, one digit at least. */
  function ParseUnsignedDecimal(s: string): Option<real>
  {
    var i := DotIndex(s);
    var fraction := if i < |s| then s[i + 1..] else "";
    if i + |fraction| == 0 then None
    else
      match (DigitsValue(s[..i]), FractionValue(fraction))
      case (Some(n), Some(x)) => Some(n as real + x)
      case _ => None
  }

  /** float(s) for text in plain decimal notation with an optional sign. */
  function ParseFloat(s: string): Option<real>
  {
    if |s| > 0 && (s[0] == '-' || s[0] == '+') then
      match ParseUnsignedDecimal(s[1..])
      case None => None
      case Some(x) => Some(if s[0] == '-' then -x else x)
    else ParseUnsignedDecimal(s)
  }

  // ---------------------------------------------------------------------------
  // Numeric conversions of Python values

  /** int(x) of a float truncates toward zero. */
  function Trunc(x: real): (n: int)
    ensures x >= 0.0 ==> n as real <= x < n as real + 1.0
    ensures x < 0.0 ==> n as real - 1.0 < x <= n as real
  {
    if x >= 0.0 then x.Floor else -((-x).Floor)
  }

  /** int(v); None stands for the ValueError Python raises. */
  function IntOf(v: PyValue): Option<int>
  {
    match v
    case PyInt(i) => Some(i)
    case PyFloat(x) => Some(Trunc(x))
    case PyStr(s) => ParseInt(s)
  }

  /** float(v); None stands for the ValueError Python raises. */
  function FloatOf(v: PyValue): Option<real>
  {
    match v
    case PyInt(i) => Some(i as real)
    case PyFloat(x) => Some(x)
    case PyStr(s) => ParseFloat(s)
  }

  /** v == k in Python for an int literal k: ints and floats compare by value, text never equals a number. */
  predicate EqualsInt(v: PyValue, k: int)
  {
    match v
    case PyInt(i) => i == k
    case PyFloat(x) => x == k as real
    case PyStr(_) => false
  }

  // ---------------------------------------------------------------------------
  // Rounding

  /** Python's round(x): nearest integer, ties to the even neighbour. */
  function RoundHalfEven(x: real): (r: int)
    ensures -0.5 <= r as real - x <= 0.5
    ensures (r as real - x == 0.5 || x - r as real == 0.5) ==> r % 2 == 0
  {
    var f := x.Floor;
    var frac := x - f as real;
    if frac < 0.5 then f
    else if frac > 0.5 then f + 1
    else if f % 2 == 0 then f else f + 1
  }

  /** math.ceil(x). */
  function Ceil(x: real): (r: int)
    ensures x <= r as real < x + 1.0
  {
    -((-x).Floor)
  }

  /** Python's round(x, 1): the nearest multiple of 0.1, ties to the even tenth. */
  function RoundToTenth(x: real): (r: real)
    ensures -0.05 <= r - x <= 0.05
    ensures (r * 10.0).Floor as real == r * 10.0
  {
    RoundHalfEven(x * 10.0) as real / 10.0
  }

  // ---------------------------------------------------------------------------
  // Properties

  lemma {:induction false} DigitsValueOfDecimal(n: nat)
    ensures DigitsValue(NatToDecimal(n)) == Some(n)
  {
    if n >= 10 {
      var s := NatToDecimal(n / 10);
      DigitsValueOfDecimal(n / 10);
      assert (s + [DigitChar(n % 10)])[..|s|] == s;
    }
  }

  /** int(str(n)) == n. */
  lemma ParseIntOfDecimal(n: int)
    ensures ParseInt(IntToDecimal(n)) == Some(n)
  {
    if n < 0 {
      var body := NatToDecimal(-n);
      assert ("-" + body)[1..] == body;
      DigitsValueOfDecimal(-n);
    } else {
      DigitsValueOfDecimal(n);
    }
  }

  /** Only digit strings have a value. */
  lemma {:induction false} DigitsValueOfDigits(s: string)
    requires DigitsValue(s).Some?
    ensures AllDigits(s)
  {
    if |s| > 0 {
      DigitsValueOfDigits(s[..|s| - 1]);
      assert forall k :: 0 <= k < |s| - 1 ==> s[k] == s[..|s| - 1][k];
    }
  }

  lemma {:induction false} DotIndexOfDigits(s: string)
    requires AllDigits(s)
    ensures DotIndex(s) == |s|
  {
    if |s| > 0 {
      DotIndexOfDigits(s[1..]);
    }
  }

  /** Text that int() accepts is accepted by float() with the same value. */
  lemma ParseFloatExtendsParseInt(s: string)
    requires ParseInt(s).Some?
    ensures ParseFloat(s) == Some(ParseInt(s).value as real)
  {
    var body := if s[0] == '-' || s[0] == '+' then s[1..] else s;
    DigitsValueOfDigits(body);
    DotIndexOfDigits(body);
    assert body[..|body|] == body;
  }
}
