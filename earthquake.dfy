/** The `Earthquake` record built for each element of the feed. */
module Quake {

  /** Java `long`: the 64-bit signed range. */
  newtype int64 = x: int | -0x8000_0000_0000_0000 <= x < 0x8000_0000_0000_0000

  /**
   * An immutable record of four fields. The Java `double` magnitude is kept as a
   * `real` that is only ever copied, never computed with.
   */
  datatype Earthquake = Earthquake(magnitude: real, location: string, timeInMilliseconds: int64, url: string)
  {
    function GetMagnitude(): real { magnitude }
    function GetLocation(): string { location }
    function GetTimeInMilliseconds(): int64 { timeInMilliseconds }
    function GetUrl(): string { url }
  }

  /** Each getter returns the argument the constructor was given for its field. */
  lemma GettersReturnConstructorArguments(magnitude: real, location: string, time: int64, url: string)
    ensures Earthquake(magnitude, location, time, url).GetMagnitude() == magnitude
    ensures Earthquake(magnitude, location, time, url).GetLocation() == location
    ensures Earthquake(magnitude, location, time, url).GetTimeInMilliseconds() == time
    ensures Earthquake(magnitude, location, time, url).GetUrl() == url
  {
  }

  /** A record is determined by what its four getters return. */
  lemma GettersDetermineRecord(a: Earthquake, b: Earthquake)
    requires a.GetMagnitude() == b.GetMagnitude() && a.GetLocation() == b.GetLocation()
    requires a.GetTimeInMilliseconds() == b.GetTimeInMilliseconds() && a.GetUrl() == b.GetUrl()
    ensures a == b
  {
  }
}
