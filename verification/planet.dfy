/**
 * `Planet` of python/universe/planet.py: the constructor's option checks and derived
 * quantities (diameter, start and stop time, sidereal period), the orbit read from the
 * ephemeris block, the positions projected from it, and the `scaled_c` setter that rebuilds
 * the positions. What the base class supplies (the two Horizons response texts and the mean
 * radius) are parameters of the constructor.
 */
module Planets {
  import opened Wrappers
  import opened Constants
  import opened Coords
  import opened Horizons
  import opened Ephemeris
  import opened OrbitalPeriod
  import opened Projection
  import opened SunSingleton

  /**
   * Why construction stops: a rejected ephemeris type or centre (`ValueError`), no mean radius
   * (`2000*None`), no stop time and no sidereal period (`timedelta(days=None)` fails and `td`
   * is never bound), or an orbit that cannot be read.
   */
  datatype PlanetError = BadEphemType | BadCenter | NoMeanRadius | NoPeriod | Orbit(error: OrbitError)

  /** What the constructor computes before projecting the orbit. */
  datatype Setup = Setup(startTime: Timestamp, periodDays: Option<real>, diam: real, stopTime: Timestamp, orbit: seq<HEclPosition>)

  /** `2000*mean_radius`: the diameter in metres from the mean radius in kilometres. */
  function Diameter(radius: real): real
  {
    2000.0 * radius
  }

  /**
   * The constructor up to `_get_orbit`, in its order: the ephemeris type, the centre, the start
   * time (`today` when none is given), the period, the diameter, the stop time (one sidereal
   * period after the start when none is given), then the orbit. The first check that fails
   * decides the error; construction goes on exactly when all pass. On success the diameter is
   * twice the mean radius, converted from kilometres to metres, and the orbit is the ephemeris
   * block's.
   */
  function PlanetSetup(ephemType: string, center: string, startText: Option<string>, stopText: Option<string>,
                       formatCode: string, today: Timestamp, dataText: string, meanRadius: Option<real>,
                       ephemerisText: string): (r: Result<Setup, PlanetError>)
    ensures r == Failure(BadEphemType) <==> ephemType !in EphemTypes
    ensures r == Failure(BadCenter) <==> ephemType in EphemTypes && center != Center
    ensures r == Failure(NoMeanRadius) <==> ephemType in EphemTypes && center == Center && meanRadius.None?
    ensures r == Failure(NoPeriod)
        <==> ephemType in EphemTypes && center == Center && meanRadius.Some? && stopText.None? && SiderealOrbPeriod(dataText).None?
    ensures r.Success?
        <==> ephemType in EphemTypes && center == Center && meanRadius.Some?
             && (stopText.Some? || SiderealOrbPeriod(dataText).Some?) && OrbitOf(ephemerisText).Success?
    ensures r.Success? ==>
      && r.value.diam == Diameter(meanRadius.value)
      && r.value.startTime == (if startText.Some? then Parsed(startText.value, formatCode) else today)
      && r.value.periodDays == SiderealOrbPeriod(dataText)
      && (stopText.Some? ==> r.value.stopTime == Parsed(stopText.value, formatCode))
      && (stopText.None? ==> r.value.stopTime == Shifted(r.value.startTime, r.value.periodDays.value))
      && r.value.orbit == OrbitOf(ephemerisText).value
  {
    if ephemType !in EphemTypes then Failure(BadEphemType)
    else if center != Center then Failure(BadCenter)
    else
      var start := if startText.Some? then Parsed(startText.value, formatCode) else today;
      var period := SiderealOrbPeriod(dataText);
      if meanRadius.None? then Failure(NoMeanRadius)
      else if stopText.None? && period.None? then Failure(NoPeriod)
      else
        var stop := if stopText.Some? then Parsed(stopText.value, formatCode) else Shifted(start, period.value);
        match OrbitOf(ephemerisText)
        case Failure(e) => Failure(Orbit(e))
        case Success(orbit) => Success(Setup(start, period, Diameter(meanRadius.value), stop, orbit))
  }

  class Planet {
    var name: string
    var scaledC: real
    var makeEphem: string
    var ephemType: string
    var center: string
    var sun: Sun
    var formatCode: string
    var startTime: Timestamp
    var siderealPeriodInDays: Option<real>
    var diam: real
    var stopTime: Timestamp
    var stepSize: string
    var orbit: seq<HEclPosition>
    var position: seq<Location>
    /** The spherical trigonometry `_get_positions` applies. */
    const dest: Destination

    constructor Build(name: string, scaledC: real, makeEphem: bool, ephemType: string, center: string, sun: Sun,
                      formatCode: string, stepSize: string, setup: Setup, position: seq<Location>, dest: Destination)
      ensures this.name == name && this.scaledC == scaledC && this.makeEphem == YesNo(makeEphem)
      ensures this.ephemType == ephemType && this.center == center && this.sun == sun
      ensures this.formatCode == formatCode && this.stepSize == stepSize
      ensures startTime == setup.startTime && siderealPeriodInDays == setup.periodDays && diam == setup.diam
      ensures stopTime == setup.stopTime && orbit == setup.orbit
      ensures this.position == position && this.dest == dest
    {
      this.name := name;
      this.scaledC := scaledC;
      this.makeEphem := YesNo(makeEphem);
      this.ephemType := ephemType;
      this.center := center;
      this.sun := sun;
      this.formatCode := formatCode;
      this.stepSize := stepSize;
      startTime := setup.startTime;
      siderealPeriodInDays := setup.periodDays;
      diam := setup.diam;
      stopTime := setup.stopTime;
      orbit := setup.orbit;
      this.position := position;
      this.dest := dest;
    }

    /**
     * `Planet(name, scaled_c, ..., ephem_type, center, sun, start_time, stop_time, format_code,
     * step_size)`: the checks and quantities of `PlanetSetup`, the orbit scanned from the
     * ephemeris text, and the positions projected from it around the Sun's current location.
     */
    static method New(name: string, scaledC: real, makeEphem: bool, ephemType: string, center: string, sun: Sun,
                      startText: Option<string>, stopText: Option<string>, formatCode: string, stepSize: string,
                      today: Timestamp, dataText: string, meanRadius: Option<real>, ephemerisText: string,
                      dest: Destination)
      returns (r: Result<Planet, PlanetError>)
      ensures var s := PlanetSetup(ephemType, center, startText, stopText, formatCode, today, dataText, meanRadius, ephemerisText);
        s.Failure? ==> r == Failure(s.error)
      ensures var s := PlanetSetup(ephemType, center, startText, stopText, formatCode, today, dataText, meanRadius, ephemerisText);
        s.Success? ==> (r.Success? && fresh(r.value)
          && r.value.name == name && r.value.scaledC == scaledC && r.value.sun == sun
          && r.value.ephemType == ephemType && r.value.center == center && r.value.makeEphem == YesNo(makeEphem)
          && r.value.startTime == s.value.startTime && r.value.stopTime == s.value.stopTime
          && r.value.siderealPeriodInDays == s.value.periodDays && r.value.diam == s.value.diam
          && r.value.orbit == s.value.orbit
          && r.value.formatCode == formatCode && r.value.stepSize == stepSize && r.value.dest == dest
          && r.value.position == Positions(s.value.orbit, sun.loc, scaledC, dest))
    {
      var setup := Prepare(ephemType, center, startText, stopText, formatCode, today, dataText, meanRadius, ephemerisText);
      if setup.Failure? {
        return Failure(setup.error);
      }
      var position := GetPositions(setup.value.orbit, sun.loc, scaledC, dest);
      var p := new Planet.Build(name, scaledC, makeEphem, ephemType, center, sun, formatCode, stepSize,
                                setup.value, position, dest);
      return Success(p);
    }

    /**
     * The steps of the constructor before the fields are set, in their order; the first check that fails stops it.
     * It computes exactly `PlanetSetup` and behaves no differently: it is a separate method only so that the
     * proof of `New` stays small.
     */
    static method Prepare(ephemType: string, center: string, startText: Option<string>, stopText: Option<string>,
                          formatCode: string, today: Timestamp, dataText: string, meanRadius: Option<real>,
                          ephemerisText: string)
      returns (r: Result<Setup, PlanetError>)
      ensures r == PlanetSetup(ephemType, center, startText, stopText, formatCode, today, dataText, meanRadius, ephemerisText)
    {
      if ephemType !in EphemTypes {
        return Failure(BadEphemType);
      }
      if center != Center {
        return Failure(BadCenter);
      }
      var start := if startText.Some? then Parsed(startText.value, formatCode) else today;
      var period := SiderealOrbPeriod(dataText);
      if meanRadius.None? {
        return Failure(NoMeanRadius);
      }
      var diam := Diameter(meanRadius.value);
      if stopText.None? && period.None? {
        return Failure(NoPeriod);
      }
      var stop := if stopText.Some? then Parsed(stopText.value, formatCode) else Shifted(start, period.value);
      var orbit := GetOrbit(ephemerisText);
      if orbit.Failure? {
        return Failure(Orbit(orbit.error));
      }
      return Success(Setup(start, period, diam, stop, orbit.value));
    }

    /** `sidereal_period`: the period in seconds, `None * day` failing when no period was found. */
    function SiderealPeriod(): (r: Option<real>)
      reads this
      ensures r.Some? <==> siderealPeriodInDays.Some?
      ensures r.Some? ==> r.value / Day == siderealPeriodInDays.value
    {
      if siderealPeriodInDays.Some? then Some(siderealPeriodInDays.value * Day) else None
    }

    /**
     * The `scaled_c` setter: the new scale is stored and the positions are rebuilt from the
     * unchanged orbit, around the Sun's location as it is now.
     */
    method SetScaledC(value: real)
      modifies this
      ensures scaledC == value
      ensures position == Positions(orbit, sun.loc, value, dest)
      ensures orbit == old(orbit) && sun == old(sun) && name == old(name)
      ensures startTime == old(startTime) && stopTime == old(stopTime)
      ensures siderealPeriodInDays == old(siderealPeriodInDays) && diam == old(diam)
      ensures makeEphem == old(makeEphem) && ephemType == old(ephemType) && center == old(center)
      ensures formatCode == old(formatCode) && stepSize == old(stepSize)
      ensures |position| == |orbit|
    {
      scaledC := value;
      position := GetPositions(orbit, sun.loc, value, dest);
    }
  }
}
