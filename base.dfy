/** Shared vocabulary: optional values (Java's null), results (Java's exceptions),
    bytes, and the Java library behaviour the component relies on for text:
    decimal formatting and parsing (Integer/Long.toString, Integer/Long.parseInt)
    and String.equalsIgnoreCase. */
module Base {

  /** A possibly-null Java reference. */
  datatype Option<+T> = None | Some(value: T) {
    function GetOr(default: T): T {
      match this
      case Some(v) => v
      case None => default
    }
  }

  /** The exceptions the modelled code raises or lets through. */
  datatype Error =
    | IllegalArgument(reason: string)      // IllegalArgumentException
    | NumberFormat(text: string)           // NumberFormatException from a parse
    | UnsupportedType                      // ArithmeticException("type") of the typed header getter
    | NullPointer                          // a dereference of null
    | Io(reason: string)                   // IOException (files, streams)
    | Transfer(reason: string)             // SMEVRuntimeException raised by the FTP transport
    | Broker(reason: string)               // SMEVException / runtime exception from the SMEV client
    | Execution(reason: string)            // CamelExecutionException: the handler failed
    | UnexpectedAttachment                 // "Unexpected attachment type"
    | Conversion(key: string)              // a parameter or property that does not convert to its type
    | ClassCast                            // ClassCastException: a data handler of another strategy's kind
    | Bare                                 // a `new Exception()` without a message
    | MalformedXml(text: string)           // body text that does not parse as an XML document

  /** Either a value or the exception that was raised instead. */
  datatype Result<+T> = Ok(value: T) | Err(error: Error) {
    predicate IsFailure() { Err? }
    function PropagateFailure<U>(): Result<U>
      requires Err?
    {
      Err(error)
    }
    function Extract(): T
      requires Ok?
    {
      value
    }
  }

  /** A void call that either returns or raises. */
  datatype Outcome = Pass | Fail(error: Error)

  type Byte = b: int | 0 <= b < 256
  type Bytes = seq<Byte>

  // ---------------------------------------------------------------------------
  // Java integer ranges

  const INT_MIN: int := -0x8000_0000
  const INT_MAX: int := 0x7FFF_FFFF
  const LONG_MIN: int := -0x8000_0000_0000_0000
  const LONG_MAX: int := 0x7FFF_FFFF_FFFF_FFFF

  /** Number.intValue() of an integral number: its low 32 bits as a two's
      complement int. */
  function IntValue(n: int): (r: int)
    ensures INT_MIN <= r <= INT_MAX
    ensures (r - n) % 0x1_0000_0000 == 0
  {
    var low := n % 0x1_0000_0000;
    if low <= INT_MAX then low else low - 0x1_0000_0000
  }

  /** Narrowing leaves an int-range value as it is, and is the only int in its class. */
  lemma IntValueOfInt(n: int)
    requires INT_MIN <= n <= INT_MAX
    ensures IntValue(n) == n
  {
    var r := IntValue(n);
    var k := (r - n) / 0x1_0000_0000;
    assert r - n == k * 0x1_0000_0000;
  }

  // ---------------------------------------------------------------------------
  // Decimal text (ASCII digits)

  predicate IsDigit(c: char) {
    '0' <= c <= '9'
  }

  predicate AllDigits(s: string) {
    forall i :: 0 <= i < |s| ==> IsDigit(s[i])
  }

  function DigitChar(d: nat): (c: char)
    requires d < 10
    ensures IsDigit(c) && (c as int) - ('0' as int) == d
  {
    ['0', '1', '2', '3', '4', '5', '6', '7', '8', '9'][d]
  }

  /** The value of a string of decimal digits, most significant first. */
  function DigitsValue(s: string): nat
    requires AllDigits(s)
  {
    if s == [] then 0
    else DigitsValue(s[..|s| - 1]) * 10 + ((s[|s| - 1] as int) - ('0' as int))
  }

  /** The shortest decimal digit string of n (no leading zeros). */
  function NatDigits(n: nat): (s: string)
    ensures |s| > 0
    ensures AllDigits(s)
    ensures DigitsValue(s) == n
    ensures |s| > 1 ==> s[0] != '0'
  {
    if n < 10 then [DigitChar(n)]
    else
      var high := NatDigits(n / 10);
      var s := high + [DigitChar(n % 10)];
      assert s[..|s| - 1] == high;
      s
  }

  /** Integer.toString / Long.toString: an optional minus sign followed by the digits. */
  function Decimal(n: int): (s: string)
    ensures |s| > 0
    ensures n < 0 <==> s[0] == '-'
    ensures n >= 0 ==> AllDigits(s)
    ensures n < 0 ==> |s| > 1 && AllDigits(s[1..])
  {
    if n < 0 then "-" + NatDigits(-n) else NatDigits(n)
  }

  /** Integer.parseInt (lo, hi = INT_MIN, INT_MAX) and Long.parseLong (LONG_MIN, LONG_MAX):
      one optional sign, then at least one digit, and the value must be in range;
      None stands for the NumberFormatException. */
  function ParseDecimal(s: string, lo: int, hi: int): (r: Option<int>)
    ensures r.Some? ==> lo <= r.value <= hi
    ensures r.Some? ==> |s| > 0
    ensures s == [] ==> r.None?
  {
    if s == [] then None
    else
      var signed := s[0] == '-' || s[0] == '+';
      var digits := if signed then s[1..] else s;
      if digits == [] || !AllDigits(digits) then None
      else
        var v: int := if s[0] == '-' then 0 - (DigitsValue(digits) as int) else DigitsValue(digits);
        if lo <= v <= hi then Some(v) else None
  }

  /** What Integer.parseInt accepts is exactly the text of some in-range integer,
      up to sign spelling and leading zeros; here: every formatted value parses back. */
  lemma {:induction false} DecimalRoundTrip(n: int, lo: int, hi: int)
    requires lo <= n <= hi
    ensures ParseDecimal(Decimal(n), lo, hi) == Some(n)
  {
    var s := Decimal(n);
    if n < 0 {
      assert s[0] == '-';
      assert s[1..] == NatDigits(-n);
    } else {
      var d := NatDigits(n);
      assert s == d;
      assert IsDigit(d[0]);
    }
  }

  /** A parsed value is determined by the digits: text whose digits are not all decimal never parses. */
  lemma ParseRejectsNonDigits(s: string, lo: int, hi: int, k: nat)
    requires 0 < k < |s| && !IsDigit(s[k])
    ensures ParseDecimal(s, lo, hi).None?
  {
    var signed := s[0] == '-' || s[0] == '+';
    var digits := if signed then s[1..] else s;
    if signed {
      assert digits[k - 1] == s[k];
    } else {
      assert digits[k] == s[k];
    }
  }

  // ---------------------------------------------------------------------------
  // Hexadecimal digits (ASCII), as Integer.parseInt(s, 16) reads them

  predicate IsHexDigit(c: char) {
    IsDigit(c) || 'a' <= c <= 'f' || 'A' <= c <= 'F'
  }

  predicate AllHexDigits(s: string) {
    forall i :: 0 <= i < |s| ==> IsHexDigit(s[i])
  }

  function HexDigitValue(c: char): (v: nat)
    requires IsHexDigit(c)
    ensures v < 16
  {
    if IsDigit(c) then (c as int) - ('0' as int)
    else if 'a' <= c <= 'f' then (c as int) - ('a' as int) + 10
    else (c as int) - ('A' as int) + 10
  }

  /** The value of a string of hexadecimal digits, most significant first. */
  function HexValue(s: string): nat
    requires AllHexDigits(s)
  {
    if s == [] then 0
    else HexValue(s[..|s| - 1]) * 16 + HexDigitValue(s[|s| - 1])
  }

  // ---------------------------------------------------------------------------
  // String.equalsIgnoreCase against the ASCII names the component compares with

  /** The case-folded form of a character as far as Java's equalsIgnoreCase relates
      it to an ASCII letter: ASCII capitals fold to lower case, and the two non-ASCII
      characters whose Java case mapping lands on an ASCII letter of the names used
      here fold too (KELVIN SIGN to 'k', LATIN SMALL LETTER LONG S to 's'). */
  function Fold(c: char): char {
    if 'A' <= c <= 'Z' then ((c as int) + 32) as char
    else if c == '\U{212A}' then 'k'
    else if c == '\U{017F}' then 's'
    else c
  }

  predicate EqualsIgnoreCase(a: string, b: string) {
    |a| == |b| && forall i :: 0 <= i < |a| ==> Fold(a[i]) == Fold(b[i])
  }

  /** A string never fails to match itself. */
  lemma EqualsIgnoreCaseReflexive(a: string)
    ensures EqualsIgnoreCase(a, a)
  {
  }

  /** Two names that differ after folding cannot both match one input. */
  lemma EqualsIgnoreCaseExclusive(s: string, a: string, b: string, k: nat)
    requires k < |a| == |b| && Fold(a[k]) != Fold(b[k])
    ensures !(EqualsIgnoreCase(s, a) && EqualsIgnoreCase(s, b))
  {
  }

  // ---------------------------------------------------------------------------
  // Sequences of strings

  predicate StartsWith(s: string, prefix: string) {
    |prefix| <= |s| && s[..|prefix|] == prefix
  }

  /** Concatenation regroups freely. */
  lemma ConcatAssoc<T>(a: seq<T>, b: seq<T>, c: seq<T>)
    ensures (a + b) + c == a + (b + c)
  {
  }
}
