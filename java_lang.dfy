/** The parts of the Java platform the user-record layer relies on: nullable
    references, exceptions, 32-bit `int`, `Integer.toString`,
    `Integer.parseInt` and the string hash used by `Objects.hash`. */
module JavaLang {

  /** A Java reference that may be `null`. */
  datatype Option<+T> = None | Some(value: T)

  /** A call that either returns a value or throws. */
  datatype Result<+T, +E> = Ok(value: T) | Err(error: E)

  /** The exceptions the modelled code can raise or catch. */
  datatype Exception =
    | NullPointerException
    | NumberFormatException
    | JsonProcessingException
    | DynamoDbException

  const INT_MIN: int := -0x8000_0000
  const INT_MAX: int := 0x7fff_ffff
  const TWO_32: int := 0x1_0000_0000

  /** Java's `int`. */
  type int32 = x: int | INT_MIN <= x <= INT_MAX

  /** Two's-complement wrap-around of a Java `int` expression. */
  function Wrap32(x: int): (r: int32)
    ensures (x - r) % TWO_32 == 0
    ensures INT_MIN <= x <= INT_MAX ==> r == x
  {
    (x - INT_MIN) % TWO_32 + INT_MIN
  }

  predicate IsDigit(c: char) {
    '0' <= c <= '9'
  }

  predicate AllDigits(s: string) {
    forall i :: 0 <= i < |s| ==> IsDigit(s[i])
  }

  function DigitChar(d: nat): (c: char)
    requires d < 10
    ensures IsDigit(c) && c as int - '0' as int == d
  {
    ('0' as int + d) as char
  }

  /** The value of a string of decimal digits, most significant first. */
  function DigitsValue(s: string): nat
    requires AllDigits(s)
  {
    if s == [] then 0
    else 10 * DigitsValue(s[..|s| - 1]) + (s[|s| - 1] as int - '0' as int)
  }

  /** The shortest decimal spelling of a natural number. */
  function NatToString(n: nat): string
    decreases n
  {
    if n < 10 then [DigitChar(n)]
    else NatToString(n / 10) + [DigitChar(n % 10)]
  }

  /** `Integer.toString(int)`: a minus sign for negative values, then the digits. */
  function IntToString(n: int32): string {
    if n < 0 then "-" + NatToString(-(n as int)) else NatToString(n)
  }

  /** `Integer.parseInt(String)`: an optional sign, at least one digit, and a
      value inside the `int` range; anything else (null included) throws
      `NumberFormatException`. */
  function ParseInt(s: Option<string>): (r: Result<int32, Exception>)
    ensures r.Err? ==> r.error == NumberFormatException
  {
    match s
    case None => Err(NumberFormatException)
    case Some(str) =>
      if |str| == 0 then Err(NumberFormatException)
      else
        var signed := str[0] == '-' || str[0] == '+';
        var digits := if signed then str[1..] else str;
        if |digits| == 0 || !AllDigits(digits) then Err(NumberFormatException)
        else
          var mag: int := DigitsValue(digits);
          var v := if str[0] == '-' then -mag else mag;
          if INT_MIN <= v <= INT_MAX then Ok(v) else Err(NumberFormatException)
  }

  lemma {:induction false} NatToStringDigits(n: nat)
    ensures |NatToString(n)| > 0 && AllDigits(NatToString(n))
    ensures IsDigit(NatToString(n)[0])
    ensures DigitsValue(NatToString(n)) == n
    decreases n
  {
    if n >= 10 {
      NatToStringDigits(n / 10);
      var s := NatToString(n);
      assert s == NatToString(n / 10) + [DigitChar(n % 10)];
      assert s[..|s| - 1] == NatToString(n / 10);
    }
  }

  /** Decimal printing and parsing are inverse on every `int`. */
  lemma ParseIntToString(n: int32)
    ensures ParseInt(Some(IntToString(n))) == Ok(n)
  {
    if n < 0 {
      NatToStringDigits(-(n as int));
      assert ("-" + NatToString(-(n as int)))[1..] == NatToString(-(n as int));
    } else {
      NatToStringDigits(n);
    }
  }

  /** `String.hashCode()`: `h = 31 * h + c` over the characters, in `int` arithmetic. */
  function StringHash(s: string): int32 {
    if s == [] then 0
    else Wrap32(31 * StringHash(s[..|s| - 1]) + s[|s| - 1] as int)
  }

  /** `Objects.hash(x)` for a single argument: `31 * 1 + (x == null ? 0 : x.hashCode())`. */
  function ObjectsHash(x: Option<string>): int32 {
    Wrap32(31 + (if x.None? then 0 else StringHash(x.value)))
  }
}
