/**
 * `Planet._get_positions` of python/universe/planet.py: every heliocentric record of the orbit
 * is projected onto the Earth's surface around the Sun's location. The record's light-travel
 * time, scaled by `scaled_c`, is a distance over the ground; the record's ecliptic longitude
 * is the bearing. The spherical trigonometry (the great-circle destination formula) is a
 * function parameter of the model.
 */
module Projection {
  import opened Wrappers
  import opened Constants
  import opened Coords

  /** `R`: the polar radius of the Earth in metres. */
  const PolarRadius: real := 6356752.0

  /**
   * The great-circle destination: from the start (latitude, longitude), an angular distance
   * and a bearing in degrees, the destination (latitude, longitude) in degrees.
   */
  type Destination = (real, real, real, real) -> (real, real)

  /** The record's distance as light travel time in seconds. */
  function DistSeconds(p: HEclPosition): (t: real)
    ensures t * C == p.dist
    ensures 0.0 <= p.dist ==> 0.0 <= t
  {
    p.dist / C
  }

  /** `dByR` from a light travel time: the distance over the ground, seconds times `scaled_c`, as an angle at the Earth's centre. */
  function GroundAngle(seconds: real, scaledC: real): real
  {
    seconds * scaledC / PolarRadius
  }

  /** `dByR` of a record: its light travel time taken over the ground. */
  function AngularDistance(p: HEclPosition, scaledC: real): (d: real)
    ensures d * PolarRadius == DistSeconds(p) * scaledC
    ensures 0.0 <= p.dist && 0.0 <= scaledC ==> 0.0 <= d
  {
    GroundAngle(DistSeconds(p), scaledC)
  }

  /** One record projected: the destination from the Sun's location, carrying the record's time and format code. */
  function Project(p: HEclPosition, sunLoc: Location, scaledC: real, dest: Destination): (loc: Location)
    ensures loc.time == Some(p.time) && loc.formatCode == p.formatCode
    ensures (loc.lat, loc.lon) == dest(sunLoc.lat, sunLoc.lon, AngularDistance(p, scaledC), p.hEclLon)
  {
    var (lat, lon) := dest(sunLoc.lat, sunLoc.lon, AngularDistance(p, scaledC), p.hEclLon);
    MakeLocation(lat, lon, Datetime(p.time), p.formatCode)
  }

  /** The projected orbit: one location per record, in the same order, each with its record's time. */
  function Positions(orbit: seq<HEclPosition>, sunLoc: Location, scaledC: real, dest: Destination): (ps: seq<Location>)
    ensures |ps| == |orbit|
    ensures forall k :: 0 <= k < |orbit| ==> ps[k] == Project(orbit[k], sunLoc, scaledC, dest)
    ensures forall k :: 0 <= k < |orbit| ==> ps[k].time == Some(orbit[k].time) && ps[k].formatCode == orbit[k].formatCode
  {
    seq(|orbit|, k requires 0 <= k < |orbit| => Project(orbit[k], sunLoc, scaledC, dest))
  }

  /** The loop of `_get_positions`, appending one location per record. */
  method GetPositions(orbit: seq<HEclPosition>, sunLoc: Location, scaledC: real, dest: Destination) returns (ps: seq<Location>)
    ensures ps == Positions(orbit, sunLoc, scaledC, dest)
  {
    ps := [];
    var k := 0;
    while k < |orbit|
      invariant 0 <= k <= |orbit|
      invariant ps == Positions(orbit[..k], sunLoc, scaledC, dest)
    {
      ps := ps + [Project(orbit[k], sunLoc, scaledC, dest)];
      k := k + 1;
      assert orbit[..k][..k - 1] == orbit[..k - 1];
    }
    assert orbit[..k] == orbit;
  }

  // ------------------------------------------------------------------
  // Properties

  /** A farther record, or a larger `scaled_c`, lies no nearer to the Sun's location over the ground. */
  lemma AngularDistanceMonotone(p: HEclPosition, q: HEclPosition, s: real, t: real)
    requires 0.0 <= p.dist <= q.dist && 0.0 <= s <= t
    ensures 0.0 <= AngularDistance(p, s) <= AngularDistance(q, t)
  {
    assert AngularDistance(p, s) == p.dist * s / C / PolarRadius;
    assert AngularDistance(q, t) == q.dist * t / C / PolarRadius;
    assert p.dist * s <= q.dist * s <= q.dist * t;
  }

  /** For a record at a positive distance, a strictly larger `scaled_c` places it strictly farther over the ground. */
  lemma AngularDistanceIncreasesWithScale(p: HEclPosition, s: real, t: real)
    requires 0.0 < p.dist && 0.0 <= s < t
    ensures AngularDistance(p, s) < AngularDistance(p, t)
  {
    assert AngularDistance(p, s) == p.dist * s / C / PolarRadius;
    assert AngularDistance(p, t) == p.dist * t / C / PolarRadius;
    assert p.dist * s < p.dist * t;
  }

  /** With `scaled_c` zero every record sits at angular distance zero, whatever its distance. */
  lemma ZeroScaleCollapses(p: HEclPosition)
    ensures AngularDistance(p, 0.0) == 0.0
  {
  }

  /** Projection works record by record: the positions of two orbit pieces put together are the two lists put together. */
  lemma {:induction false} PositionsOfConcatenation(a: seq<HEclPosition>, b: seq<HEclPosition>, sunLoc: Location, scaledC: real, dest: Destination)
    ensures Positions(a + b, sunLoc, scaledC, dest) == Positions(a, sunLoc, scaledC, dest) + Positions(b, sunLoc, scaledC, dest)
  {
  }

  // ------------------------------------------------------------------
  // As written: `pos.dist_seconds`

  /** Why the loop as written stops: `hEclPosition` has no attribute of that name. */
  datatype AttributeError = AttributeError(name: string)

  /** The numeric attributes an `hEclPosition` instance carries. */
  function NumericAttribute(p: HEclPosition, name: string): (v: Option<real>)
    ensures name !in {"hEclLat", "hEclLon", "dist"} ==> v.None?
  {
    if name == "hEclLat" then Some(p.hEclLat)
    else if name == "hEclLon" then Some(p.hEclLon)
    else if name == "dist" then Some(p.dist)
    else None
  }

  /**
   * The loop as written: each record's light travel time is read as the attribute
   * `dist_seconds`, which `hEclPosition` never defines.
   */
  function PositionsAsWritten(orbit: seq<HEclPosition>, sunLoc: Location, scaledC: real, dest: Destination): (r: Result<seq<Location>, AttributeError>)
    ensures r.Success? <==> orbit == []
    ensures orbit == [] ==> r == Success([])
    ensures r.Failure? ==> r.error == AttributeError("dist_seconds")
    decreases |orbit|
  {
    if orbit == [] then Success([])
    else
      match PositionsAsWritten(orbit[..|orbit| - 1], sunLoc, scaledC, dest)
      case Failure(e) => Failure(e)
      case Success(ps) =>
        var p := orbit[|orbit| - 1];
        match NumericAttribute(p, "dist_seconds")
        case None => Failure(AttributeError("dist_seconds"))
        case Some(ds) =>
          var (lat, lon) := dest(sunLoc.lat, sunLoc.lon, GroundAngle(ds, scaledC), p.hEclLon);
          Success(ps + [MakeLocation(lat, lon, Datetime(p.time), p.formatCode)])
  }
}
