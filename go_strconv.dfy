/** Go's fixed-width integers and the decimal conversions the scraper uses:
    strconv.Atoi on a 64-bit platform, fmt.Sprint of an integer, and the
    truncating conversions int32(x) and int(x). */
module GoStrconv {

  newtype int32 = x: int | -0x8000_0000 <= x < 0x8000_0000

  const MinInt64: int := -0x8000_0000_0000_0000
  const MaxInt64: int := 0x7FFF_FFFF_FFFF_FFFF

  /** A value of Go's 64-bit `int`. */
  predicate IsInt64(v: int) {
    MinInt64 <= v <= MaxInt64
  }

  /** int32(v): keeps the low 32 bits, read as two's complement. */
  function Wrap32(v: int): (r: int32)
    ensures (r as int - v) % 0x1_0000_0000 == 0
    ensures -0x8000_0000 <= v < 0x8000_0000 ==> r as int == v
  {
    ((v + 0x8000_0000) % 0x1_0000_0000 - 0x8000_0000) as int32
  }

  /** int64(v) for an unbounded `v`: keeps the low 64 bits. */
  function Wrap64(v: int): (r: int)
    ensures IsInt64(r)
    ensures (r - v) % 0x1_0000_0000_0000_0000 == 0
    ensures IsInt64(v) ==> r == v
  {
    (v - MinInt64) % 0x1_0000_0000_0000_0000 + MinInt64
  }

  predicate IsDigit(c: char) {
    '0' <= c <= '9'
  }

  predicate AllDigits(s: string) {
    forall i :: 0 <= i < |s| ==> IsDigit(s[i])
  }

  /** The value of a string of decimal digits, most significant first. */
  function DigitsValue(s: string): nat
    requires AllDigits(s)
  {
    if s == [] then 0 else DigitsValue(s[..|s| - 1]) * 10 + (s[|s| - 1] as int - '0' as int)
  }

  /** Why strconv.Atoi rejected its input: no number at all, or a number
      outside the 64-bit range. */
  datatype NumError = ErrSyntax | ErrRange

  datatype AtoiResult = Parsed(value: int) | NotParsed(input: string, reason: NumError)

  /** strconv.Atoi (64-bit `int`): an optional sign followed by at least one
      decimal digit and nothing else, whose value fits in 64 bits. */
  function Atoi(s: string): (r: AtoiResult)
    ensures r.Parsed? ==> IsInt64(r.value)
    ensures r.Parsed? ==> s != [] && (IsDigit(s[0]) || (|s| > 1 && (s[0] == '+' || s[0] == '-')))
    ensures r.Parsed? ==> AllDigits(s[1..])
    ensures r.NotParsed? ==> r.input == s
  {
    var signed := s != [] && (s[0] == '+' || s[0] == '-');
    var digits := if signed then s[1..] else s;
    if digits == [] || !AllDigits(digits) then NotParsed(s, ErrSyntax)
    else
      var magnitude: int := DigitsValue(digits);
      var v: int := if signed && s[0] == '-' then -magnitude else magnitude;
      if IsInt64(v) then Parsed(v) else NotParsed(s, ErrRange)
  }

  /** The decimal digits of a natural number, without leading zeros. */
  function Digits(n: nat): (s: string)
    ensures s != [] && AllDigits(s)
    ensures |s| > 1 ==> s[0] != '0'
  {
    if n < 10 then [('0' as int + n) as char] else Digits(n / 10) + [('0' as int + n % 10) as char]
  }

  /** fmt.Sprint of an integer: a minus sign for negative values, then the
      digits of the magnitude. */
  function FormatInt(v: int): (s: string)
    ensures s != []
    ensures s[0] == '-' <==> v < 0
  {
    if v < 0 then "-" + Digits(-v) else Digits(v)
  }

  /** Reading back the digits of `n` gives `n`. */
  lemma {:induction false} DigitsRoundTrip(n: nat)
    ensures DigitsValue(Digits(n)) == n
  {
    if n >= 10 {
      var s := Digits(n);
      assert s[..|s| - 1] == Digits(n / 10);
      DigitsRoundTrip(n / 10);
    }
  }

  /** Atoi reads back what FormatInt writes, for every 64-bit value. */
  lemma AtoiFormatInt(v: int)
    requires IsInt64(v)
    ensures Atoi(FormatInt(v)) == Parsed(v)
  {
    if v < 0 {
      DigitsRoundTrip(-v);
      AtoiNegative(Digits(-v));
    } else {
      DigitsRoundTrip(v);
      AtoiUnsigned(Digits(v));
    }
  }

  /** A run of digits alone reads as its value. */
  lemma AtoiUnsigned(s: string)
    requires s != [] && AllDigits(s) && IsInt64(DigitsValue(s))
    ensures Atoi(s) == Parsed(DigitsValue(s))
  {
    assert IsDigit(s[0]);
  }

  /** A minus sign and a run of digits read as the negated value. */
  lemma AtoiNegative(s: string)
    requires s != [] && AllDigits(s) && IsInt64(-(DigitsValue(s) as int))
    ensures Atoi("-" + s) == Parsed(-(DigitsValue(s) as int))
  {
    assert ("-" + s)[1..] == s;
  }
}
