/**
 * `CelestialObject` of python/universe/celestial_object.py: a named body with equatorial
 * coordinates, a diameter and a distance in metres, the light-second views of the two
 * lengths, and the ecliptic longitude folded into [0, 360). The trigonometry that turns
 * equatorial into ecliptic coordinates is a function parameter of the model.
 */
module CelestialBody {
  import opened Constants

  /** `(x + 360) % 360` as Python's float `%` computes it over reals: the remainder takes the sign of 360. */
  function NormalizeLongitude(angle: real): (r: real)
    ensures 0.0 <= r < 360.0
    ensures ((r - angle) / 360.0).Floor as real == (r - angle) / 360.0
  {
    var x := angle + 360.0;
    var q := (x / 360.0).Floor;
    RemainderBounds(x, q);
    assert x - 360.0 == angle;
    x - 360.0 * q as real
  }

  /** Taking `q` whole turns off `x`, with `q` the floor of `x / 360`, leaves an angle in [0, 360). */
  lemma RemainderBounds(x: real, q: int)
    requires q == (x / 360.0).Floor
    ensures 0.0 <= x - 360.0 * q as real < 360.0
    ensures var d := (x - 360.0 * q as real - (x - 360.0)) / 360.0; d.Floor as real == d
  {
    var qr := q as real;
    assert qr <= x / 360.0 < qr + 1.0;
    assert 360.0 * qr <= x < 360.0 * qr + 360.0;
    var e := 1 - q;
    assert x - 360.0 * qr - (x - 360.0) == 360.0 * e as real;
    var d := (x - 360.0 * qr - (x - 360.0)) / 360.0;
    assert d == e as real;
    assert d.Floor == e;
  }

  /** For an `atan2` result in (-180, 180], the fold adds 360 to negative angles and leaves the rest alone. */
  lemma NormalizeAtan2Range(angle: real)
    requires -180.0 < angle <= 180.0
    ensures NormalizeLongitude(angle) == if angle < 0.0 then angle + 360.0 else angle
  {
    var x := angle + 360.0;
    if angle < 0.0 {
      assert (x / 360.0).Floor == 0;
    } else {
      assert (x / 360.0).Floor == 1;
    }
  }

  /** Folding is idempotent: an angle already in [0, 360) stays as it is. */
  lemma NormalizeIdempotent(angle: real)
    ensures NormalizeLongitude(NormalizeLongitude(angle)) == NormalizeLongitude(angle)
  {
    var r := NormalizeLongitude(angle);
    assert ((r + 360.0) / 360.0).Floor == 1;
  }

  /** Angles a whole turn apart fold to the same value. */
  lemma NormalizeWholeTurn(angle: real)
    ensures NormalizeLongitude(angle + 360.0) == NormalizeLongitude(angle)
  {
    var x := angle + 360.0;
    assert ((x + 360.0) / 360.0).Floor == (x / 360.0).Floor + 1 by {
      assert (x + 360.0) / 360.0 == x / 360.0 + 1.0;
    }
  }

  /**
   * The equatorial-to-ecliptic conversion: from right ascension (hours) and declination
   * (degrees), the unfolded ecliptic longitude `atan2(y, x)` and the latitude, in degrees.
   */
  type EclipticConversion = (real, real) -> (real, real)

  class CelestialObject {
    var name: string
    var ra: real
    var dec: real
    var diameter: real
    var distance: real
    var parent: CelestialObject?

    /** `__init__`: every attribute stored exactly as given. */
    constructor (name: string, ra: real, dec: real, diameter: real, distance: real, parent: CelestialObject?)
      ensures this.name == name && this.ra == ra && this.dec == dec
      ensures this.diameter == diameter && this.distance == distance && this.parent == parent
    {
      this.name := name;
      this.ra := ra;
      this.dec := dec;
      this.diameter := diameter;
      this.distance := distance;
      this.parent := parent;
    }

    /** `diameter_in_seconds`: the diameter as light travel time; times `c` it is the diameter again. */
    function DiameterInSeconds(): (s: real)
      reads this
      ensures s * C == diameter
    {
      diameter / C
    }

    /** `distance_in_seconds`: the distance as light travel time; times `c` it is the distance again. */
    function DistanceInSeconds(): (s: real)
      reads this
      ensures s * C == distance
    {
      distance / C
    }

    /** The `diameter_in_seconds` setter: only the diameter changes, and reading the view back gives `seconds`. */
    method SetDiameterInSeconds(seconds: real)
      modifies this
      ensures diameter == seconds * C
      ensures DiameterInSeconds() == seconds
      ensures name == old(name) && ra == old(ra) && dec == old(dec)
      ensures distance == old(distance) && parent == old(parent)
    {
      diameter := seconds * C;
    }

    /** The `distance_in_seconds` setter: only the distance changes, and reading the view back gives `seconds`. */
    method SetDistanceInSeconds(seconds: real)
      modifies this
      ensures distance == seconds * C
      ensures DistanceInSeconds() == seconds
      ensures name == old(name) && ra == old(ra) && dec == old(dec)
      ensures diameter == old(diameter) && parent == old(parent)
    {
      distance := seconds * C;
    }

    /** `ecliptic_coordinates`: the converted latitude as computed, the longitude moved by whole turns into [0, 360). */
    function EclipticCoordinates(convert: EclipticConversion): (r: (real, real))
      reads this
      ensures 0.0 <= r.0 < 360.0
      ensures r.1 == convert(ra, dec).1
      ensures ((r.0 - convert(ra, dec).0) / 360.0).Floor as real == (r.0 - convert(ra, dec).0) / 360.0
    {
      (NormalizeLongitude(convert(ra, dec).0), convert(ra, dec).1)
    }
  }
}
