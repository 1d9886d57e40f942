/** Java's fixed-width primitive types, the narrowing and wrapping conversions the
    benchmark relies on, and the decimal rendering that string concatenation applies
    to a long or an int. Floating-point values are kept as raw bit patterns. */
module JavaTypes {

  newtype int8 = x: int | -0x80 <= x < 0x80
  newtype int16 = x: int | -0x8000 <= x < 0x8000
  newtype int32 = x: int | -0x8000_0000 <= x < 0x8000_0000
  newtype int64 = x: int | -0x8000_0000_0000_0000 <= x < 0x8000_0000_0000_0000

  /** The IEEE 754 bit pattern of a Java float. */
  type FloatBits = bv32
  /** The IEEE 754 bit pattern of a Java double. */
  type DoubleBits = bv64

  const LongModulus: int := 0x1_0000_0000_0000_0000
  const ShortModulus: int := 0x1_0000

  /** The long that Java's 64-bit two's-complement arithmetic yields for the exact
      integer x: the one representable value congruent to x modulo 2^64. */
  function WrapLong(x: int): (r: int64)
    ensures (r as int - x) % LongModulus == 0
    ensures -0x8000_0000_0000_0000 <= x < 0x8000_0000_0000_0000 ==> r as int == x
  {
    ((x + 0x8000_0000_0000_0000) % LongModulus - 0x8000_0000_0000_0000) as int64
  }

  /** Java's cast `(short) x`: the low 16 bits of x read as a signed value. */
  function WrapShort(x: int): (r: int16)
    ensures (r as int - x) % ShortModulus == 0
    ensures -0x8000 <= x < 0x8000 ==> r as int == x
  {
    ((x + 0x8000) % ShortModulus - 0x8000) as int16
  }

  /** No other long is congruent to x modulo 2^64, so WrapLong is the only
      possible result of the wrapped addition. */
  lemma WrapLongUnique(x: int, y: int64)
    requires (y as int - x) % LongModulus == 0
    ensures y == WrapLong(x)
  {
  }

  predicate IsDigit(c: char) { '0' <= c <= '9' }

  function DigitChar(d: nat): (c: char)
    requires d < 10
    ensures IsDigit(c) && (c as int - '0' as int) == d
  {
    ('0' as int + d) as char
  }

  predicate AllDigits(s: string) { forall k :: 0 <= k < |s| ==> IsDigit(s[k]) }

  /** The decimal digits of n, most significant first, without leading zeros. */
  function Digits(n: nat): string
    decreases n
  {
    if n < 10 then [DigitChar(n)] else Digits(n / 10) + [DigitChar(n % 10)]
  }

  /** The number a string of decimal digits denotes. */
  function DigitsValue(s: string): nat
    requires AllDigits(s)
  {
    if s == [] then 0
    else DigitsValue(s[..|s| - 1]) * 10 + (s[|s| - 1] as int - '0' as int)
  }

  /** Digits yields a non-empty string of digits with no leading zero, and its
      value is n again. */
  lemma {:induction false} DigitsRoundTrip(n: nat)
    ensures 1 <= |Digits(n)| && AllDigits(Digits(n))
    ensures Digits(n)[0] == '0' ==> n == 0
    ensures DigitsValue(Digits(n)) == n
    decreases n
  {
    if n >= 10 {
      DigitsRoundTrip(n / 10);
      var s := Digits(n);
      assert s[..|s| - 1] == Digits(n / 10);
    }
  }

  /** How `"" + n` renders a Java long or int: an optional minus sign and the
      decimal digits of the magnitude. */
  function DecimalText(n: int): string
  {
    if n < 0 then "-" + Digits(-n) else Digits(n)
  }

  predicate IsDecimal(s: string)
  {
    if 1 <= |s| && s[0] == '-' then 2 <= |s| && AllDigits(s[1..]) else 1 <= |s| && AllDigits(s)
  }

  /** Reads back a rendered decimal number. */
  function ParseDecimal(s: string): int
    requires IsDecimal(s)
  {
    if s[0] == '-' then -(DigitsValue(s[1..]) as int) else DigitsValue(s)
  }

  /** The rendering loses nothing: the text is a well-formed decimal, it starts
      with a minus sign exactly for negative numbers, and the number can be read
      back from it. */
  lemma DecimalRoundTrip(n: int)
    ensures IsDecimal(DecimalText(n))
    ensures (DecimalText(n)[0] == '-') <==> n < 0
    ensures ParseDecimal(DecimalText(n)) == n
  {
    if n < 0 {
      DigitsRoundTrip(-n);
      assert DecimalText(n)[1..] == Digits(-n);
    } else {
      DigitsRoundTrip(n);
    }
  }
}
