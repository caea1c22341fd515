/**
 * The position records of python/universe/coords.py. Both are values: their constructors
 * compute every field once from the arguments and nothing changes them afterwards.
 */
module Coords {
  import opened Wrappers
  import opened Constants

  /**
   * A `datetime`, kept abstract: the instant `strptime(text, format)` reads, an instant the
   * caller supplies (`datetime.today()`, say), or an instant shifted by `timedelta(days=...)`.
   */
  datatype Timestamp = Parsed(text: string, format: string) | Instant(ticks: int) | Shifted(base: Timestamp, days: real)

  /** The `time` argument of `Location`: `None`, a `datetime`, or text to parse. */
  datatype TimeArg = NoTime | Datetime(stamp: Timestamp) | TimeText(text: string)

  /** The default `format_code` of both records. */
  const DefaultFormatCode: string := "%Y-%m-%d %H:%M"

  /** A geographic location in degrees, with an optional time. */
  datatype Location = Location(lat: real, lon: real, time: Option<Timestamp>, formatCode: string)

  /** A heliocentric ecliptic position: latitude and longitude in degrees, distance in metres. */
  datatype HEclPosition = HEclPosition(hEclLat: real, hEclLon: real, dist: real, time: Timestamp, formatCode: string)

  /**
   * `Location(lat, lon, time, format_code)`: the coordinates are stored as given; no time stays
   * absent, a `datetime` is kept, and text is read with `format_code`.
   */
  function MakeLocation(lat: real, lon: real, time: TimeArg, formatCode: string): (loc: Location)
    ensures loc.lat == lat && loc.lon == lon && loc.formatCode == formatCode
    ensures loc.time.None? <==> time.NoTime?
    ensures time.Datetime? ==> loc.time == Some(time.stamp)
    ensures time.TimeText? ==> loc.time == Some(Parsed(time.text, formatCode))
  {
    match time
    case NoTime => Location(lat, lon, None, formatCode)
    case Datetime(t) => Location(lat, lon, Some(t), formatCode)
    case TimeText(text) => Location(lat, lon, Some(Parsed(text, formatCode)), formatCode)
  }

  /**
   * `hEclPosition(hEclLat, hEclLon, dist, time, format_code, distInAU)`: the angles are stored
   * as given; a distance in AU is converted to metres, any other distance is kept; the time
   * text is read with `format_code`.
   */
  function MakeHEclPosition(hEclLat: real, hEclLon: real, dist: real, time: string, formatCode: string, distInAU: bool): (p: HEclPosition)
    ensures p.hEclLat == hEclLat && p.hEclLon == hEclLon
    ensures distInAU ==> p.dist == dist * AU
    ensures !distInAU ==> p.dist == dist
    ensures dist >= 0.0 ==> p.dist >= 0.0
    ensures p.time == Parsed(time, formatCode) && p.formatCode == formatCode
  {
    HEclPosition(hEclLat, hEclLon, if distInAU then dist * AU else dist, Parsed(time, formatCode), formatCode)
  }

  /** The distance in AU that `__str__` prints, `dist / au`. */
  function DistInAU(p: HEclPosition): real
  {
    p.dist / AU
  }

  /** A distance given in AU is printed back as the same number of AU. */
  lemma DistInAURoundTrip(hEclLat: real, hEclLon: real, dist: real, time: string, formatCode: string)
    ensures DistInAU(MakeHEclPosition(hEclLat, hEclLon, dist, time, formatCode, true)) == dist
  {
  }
}
