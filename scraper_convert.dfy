/** The scraper's small conversions: the text of an extracted field turned
    into the column value that is stored (stringToInt32, stringToNullInt32,
    stringToNullString), and the randomised back-off delay
    (getRandomTimeoutDuration) with the random draw supplied by the caller. */
module ScraperConvert {
  import opened GoStrconv
  import opened Sql
  import opened TaxNulls

  /** stringToInt32: 0 for text that is not a decimal number, the number
      itself when it fits in 32 bits, and the number modulo 2^32 otherwise. */
  function StringToInt32(s: string): (r: int32)
    ensures Atoi(s).NotParsed? ==> r == 0
    ensures Atoi(s).Parsed? ==> (r as int - Atoi(s).value) % 0x1_0000_0000 == 0
    ensures Atoi(s).Parsed? && -0x8000_0000 <= Atoi(s).value < 0x8000_0000 ==> r as int == Atoi(s).value
  {
    match Atoi(s)
    case NotParsed(_, _) => 0
    case Parsed(v) => Wrap32(v)
  }

  /** stringToNullInt32: the same conversion as stringToInt32, always
      marked present, so a missing or malformed number is stored as a
      present 0, never as NULL. */
  function StringToNullInt32(s: string): (r: NullInt32)
    ensures r.valid
    ensures NullInt32ToInt32(r) == StringToInt32(s)
    ensures Atoi(s).NotParsed? ==> NullInt32ToString(r) == "0"
  {
    NullInt32(StringToInt32(s), true)
  }

  /** stringToNullString: the text itself, always marked present (an empty
      string is stored as "", never as NULL), so reading it back gives the
      text. */
  function StringToNullString(s: string): (r: NullString)
    ensures r.valid
    ensures NullStringToString(r) == s
  {
    NullString(s, true)
  }

  /** The decimal text of an int32 converts back to the same int32. */
  lemma Int32RoundTrip(i: int32)
    ensures StringToInt32(Int32ToString(i)) == i
  {
    AtoiFormatInt(i as int);
  }

  /** A present number read back as text and stored again is unchanged. */
  lemma NullInt32RoundTrip(ni: NullInt32)
    requires ni.valid
    ensures StringToNullInt32(NullInt32ToString(ni)) == ni
  {
    Int32RoundTrip(ni.value);
  }

  /** A NULL number reads back as "" and is stored again as a present 0. */
  lemma NullInt32BecomesZero(ni: NullInt32)
    requires !ni.valid
    ensures StringToNullInt32(NullInt32ToString(ni)) == NullInt32(0, true)
  {
    assert Atoi("").NotParsed?;
  }

  /** Storing a text and reading it back gives the text; reading a column
      and storing it again gives the column back exactly when it was present. */
  lemma NullStringRoundTrip(s: string, ns: NullString)
    ensures NullStringToString(StringToNullString(s)) == s
    ensures StringToNullString(NullStringToString(ns)) == ns <==> ns.valid
  {
  }

  /** The outcome of getRandomTimeoutDuration: rand.Intn panics on an empty
      range; otherwise a duration in nanoseconds. */
  datatype Timeout = Panicked | Duration(nanos: int)

  const Millisecond: int := 1_000_000

  /** The largest count of milliseconds time.ParseDuration accepts:
      2^63 nanoseconds divided by the unit, rounded down. */
  const MaxMillis: int := 9_223_372_036_854

  /** getRandomTimeoutDuration(min, max) with `draw` standing for the value
      rand.Intn(max-min) returns: min+draw milliseconds, or one second when
      "<n>ms" does not parse as a duration (too many milliseconds). All
      arithmetic is on Go's 64-bit int. */
  function GetRandomTimeoutDuration(min: int, max: int, draw: int): (r: Timeout)
    requires IsInt64(min) && IsInt64(max)
    requires Wrap64(max - min) > 0 ==> 0 <= draw < Wrap64(max - min)
    ensures r.Panicked? <==> Wrap64(max - min) <= 0
    ensures r.Duration? ==> r.nanos % Millisecond == 0 && -MaxMillis * Millisecond <= r.nanos <= MaxMillis * Millisecond
  {
    var n := Wrap64(max - min);
    if n <= 0 then Panicked
    else
      var i := Wrap64(draw + min);
      if -MaxMillis <= i <= MaxMillis then Duration(i * Millisecond) else Duration(1000 * Millisecond)
  }

  /** Over a range that neither overflows nor exceeds what ParseDuration
      accepts, the delay is min+draw milliseconds, so between min and max-1. */
  lemma TimeoutWithinRange(min: int, max: int, draw: int)
    requires -MaxMillis <= min < max <= MaxMillis + 1
    requires 0 <= draw < max - min
    ensures GetRandomTimeoutDuration(min, max, draw) == Duration((min + draw) * Millisecond)
    ensures min * Millisecond <= (min + draw) * Millisecond <= (max - 1) * Millisecond
  {
  }

  /** A range whose every draw is past what ParseDuration accepts falls back
      to exactly one second. */
  lemma TimeoutFallsBack(min: int, max: int, draw: int)
    requires MaxMillis < min < max <= MaxInt64
    requires 0 <= draw < max - min
    ensures GetRandomTimeoutDuration(min, max, draw) == Duration(1000 * Millisecond)
  {
  }

  /** An empty or reversed range (without overflow) panics in rand.Intn. */
  lemma TimeoutPanicsOnEmptyRange(min: int, max: int, draw: int)
    requires IsInt64(min) && IsInt64(max) && IsInt64(max - min)
    requires max <= min
    ensures GetRandomTimeoutDuration(min, max, draw) == Panicked
  {
  }
}
