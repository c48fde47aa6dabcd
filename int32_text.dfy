/**
  Base-10 text for 32-bit integers: what `Int32.ToString()` produces for a
  non-negative value, and what `Int32.Parse` / `Int32.TryParse` make of a string.
  Only digit strings are modelled as parseable; signs, white space and culture
  settings are not.
*/
module Int32Text {
  import opened Wrappers

  /** Int32.MaxValue */
  const INT32_MAX_VALUE: int := 0x7FFF_FFFF

  /** The exceptions Int32.Parse throws, as far as this model goes. */
  datatype ParseError = FormatError | OverflowError | ArgumentNullError

  predicate IsDigit(c: char) {
    '0' <= c <= '9'
  }

  predicate AllDigits(s: string) {
    forall i :: 0 <= i < |s| ==> IsDigit(s[i])
  }

  /** A non-empty string of decimal digits. */
  predicate IsDigitString(s: string) {
    |s| > 0 && AllDigits(s)
  }

  /** A digit string without superfluous leading zeros, the form ToString() writes. */
  predicate IsCanonical(s: string) {
    IsDigitString(s) && (s[0] == '0' ==> |s| == 1)
  }

  function DigitValue(c: char): (d: nat)
    requires IsDigit(c)
    ensures d < 10
  {
    c as int - '0' as int
  }

  function DigitChar(d: nat): (c: char)
    requires d < 10
    ensures IsDigit(c) && DigitValue(c) == d
    ensures (c == '0') == (d == 0)
  {
    ('0' as int + d) as char
  }

  /** The number a string of digits denotes, most significant digit first. */
  function DigitsValue(s: string): nat
    requires AllDigits(s)
    decreases |s|
  {
    if s == [] then 0 else 10 * DigitsValue(s[..|s| - 1]) + DigitValue(s[|s| - 1])
  }

  /** The decimal rendering of a non-negative number. */
  function ToDecimal(n: nat): (s: string)
    ensures IsCanonical(s)
    ensures (s[0] == '0') == (n == 0)
    ensures n >= 10 ==> |s| >= 2
  {
    if n < 10 then [DigitChar(n)] else ToDecimal(n / 10) + [DigitChar(n % 10)]
  }

  /** Int32.Parse on a non-null string: a digit string parses to its value
      unless that value exceeds Int32.MaxValue; anything else is a format error. */
  function Int32Parse(s: string): (r: Result<int, ParseError>)
    ensures r.Success? ==> 0 <= r.value <= INT32_MAX_VALUE
  {
    if !IsDigitString(s) then Failure(FormatError)
    else if DigitsValue(s) > INT32_MAX_VALUE then Failure(OverflowError)
    else Success(DigitsValue(s))
  }

  /** Int32.Parse on a possibly null string: null throws ArgumentNullException,
      and only null does; a non-null string succeeds exactly when it is a
      digit string within range, with the value its digits denote. */
  function Int32ParseNullable(s: Option<string>): (r: Result<int, ParseError>)
    ensures r.Failure? ==> (r.error == ArgumentNullError <==> s.None?)
    ensures r.Success? <==> s.Some? && IsDigitString(s.value) && DigitsValue(s.value) <= INT32_MAX_VALUE
    ensures r.Success? ==> r.value == DigitsValue(s.value)
  {
    match s
    case None => Failure(ArgumentNullError)
    case Some(t) => Int32Parse(t)
  }

  /** Int32.TryParse: the success flag, and the out value, which is the parsed
      number on success and 0 on every kind of failure, null included. */
  function Int32TryParse(s: Option<string>): (r: (bool, int))
    ensures r.0 <==> Int32ParseNullable(s).Success?
    ensures r.0 ==> r.1 == Int32ParseNullable(s).value
    ensures !r.0 ==> r.1 == 0
    ensures r.0 <==> s.Some? && IsDigitString(s.value) && DigitsValue(s.value) <= INT32_MAX_VALUE
  {
    match Int32ParseNullable(s)
    case Success(v) => (true, v)
    case Failure(_) => (false, 0)
  }

  /** Reading back a rendering gives the number again. */
  lemma {:induction false} DigitsValueOfToDecimal(n: nat)
    ensures DigitsValue(ToDecimal(n)) == n
  {
    if n >= 10 {
      var s := ToDecimal(n);
      assert s[..|s| - 1] == ToDecimal(n / 10);
      DigitsValueOfToDecimal(n / 10);
    }
  }

  /** Round trip: parsing the rendering of n gives n back, or overflows when n
      is beyond Int32.MaxValue. */
  lemma ParseToDecimal(n: nat)
    ensures Int32Parse(ToDecimal(n)) == if n <= INT32_MAX_VALUE then Success(n) else Failure(OverflowError)
  {
    DigitsValueOfToDecimal(n);
  }

  /** A digit string that starts with a non-zero digit denotes a positive number. */
  lemma {:induction false} LeadingDigitPositive(s: string)
    requires IsDigitString(s) && s[0] != '0'
    ensures DigitsValue(s) > 0
  {
    if |s| > 1 {
      LeadingDigitPositive(s[..|s| - 1]);
    }
  }

  /** The other direction of the round trip: a canonical digit string is the
      rendering of the number it denotes. */
  lemma {:induction false} ToDecimalOfDigitsValue(s: string)
    requires IsCanonical(s)
    ensures ToDecimal(DigitsValue(s)) == s
  {
    var last := s[|s| - 1];
    var p := s[..|s| - 1];
    var v := DigitsValue(s);
    assert v == 10 * DigitsValue(p) + DigitValue(last);
    if |s| == 1 {
      assert DigitsValue(p) == 0;
      assert ToDecimal(v) == [DigitChar(v)];
      assert DigitChar(DigitValue(last)) == last;
    } else {
      assert p[0] == s[0] && s[0] != '0';
      assert IsCanonical(p);
      LeadingDigitPositive(p);
      ToDecimalOfDigitsValue(p);
      assert v / 10 == DigitsValue(p) && v % 10 == DigitValue(last);
      assert DigitChar(DigitValue(last)) == last;
      assert s == p + [last];
    }
  }

  /** A string that holds a character other than a digit is a format error,
      never a value; so is the empty string. */
  lemma NonDigitIsFormatError(s: string)
    ensures (exists i :: 0 <= i < |s| && !IsDigit(s[i])) ==> Int32Parse(s) == Failure(FormatError)
    ensures Int32Parse("") == Failure(FormatError)
  {
  }
}
