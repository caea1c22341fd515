# Universe: a Dafny model of the ephemeris pipeline core

This project models the core of the `universe` Python package. The package turns a named body into a NAIF
identifier, asks the JPL Horizons service for its physical data and for an observer ephemeris, and reads the
heliocentric ecliptic records out of the response. It then projects each record onto the Earth's surface
around the Sun's location, using a rescaled speed of light (`scaled_c`).

The model covers the following, one module per concern:

- **`NaifCatalog`** (`naif_id.py`): the catalog parser and the upper-casing lookup, as a class whose
  `ParseNaifIds` loop is proved against a function on the tokenised lines.
- **`Coords`** (`coords.py`): the `Location` and `hEclPosition` records as datatypes with constructor functions.
- **`Ephemeris`** (`planet.py`, `_get_orbit`): the month table, the `$$SOE`/`$$EOE` scan, Python's slice and
  the row decoder. It includes the imperative scan and decode loops, each proved equal to its specification function.
- **`OrbitalPeriod`** (`planet.py`, `_extract_sidereal_orb_period`): the five period patterns, recognised
  by hand-written matchers, with an ordered first-match search.
- **`Projection`** (`planet.py`, `_get_positions`): the per-record projection, with the great-circle
  trigonometry as a function parameter. It also models the code as written, which reads an attribute that
  does not exist (see Findings).
- **`SunSingleton`** (`sun.py`): the class-level instance slot, the `_initialized` flag and the `loc` property.
- **`Horizons`** and **`Query`** (`query.py`): the accepted option values, the ordered option checks of
  `JPLQuery.__init__` and the `object` setter.
- **`Planets`** (`planet.py`): the constructor's checks and derived quantities, `sidereal_period` and the
  `scaled_c` setter.
- **`CelestialBody`** (`celestial_object.py`): the light-second views of diameter and distance, and the
  folding of the ecliptic longitude into [0, 360).

`Text` holds the parts of Python's `str`, `int` and `float` that the parsers use. `Wrappers` holds `Option`,
`Result` and a generic "apply to each, stop at the first failure" loop. `Constants` holds `c`, `au` and `day`
from `constants.py`.

Inputs the Python code reads from the outside are parameters of the model:
- the catalog file text;
- the two Horizons response texts;
- the mean radius;
- the current time (`datetime.today()`);
- the trigonometric conversions.

Timestamps are abstract values:
- `Parsed(text, format)` is what `strptime` gives;
- `Instant(...)` is a given `datetime`;
- `Shifted(start, days)` is `start + timedelta(days=...)`.

Three behaviours of the code worth knowing:
- **No `$$SOE` before the first `$$EOE`.** `start` stays `None`, so the slice reads every line from the
  top of the response down to the `$$EOE` (`Ephemeris.NoStartMarkerReadsFromTop`).
- **No `$$EOE` at all.** `stop + 1` fails on `None`, which the model reports as the error `NoEndMarker`
  (`Ephemeris.OrbitOf`).
- **Two-part row names.** A catalog line whose name has two words keeps only the first word, because the
  key is the second token.

## Model

| member | source | states |
|---|---|---|
| `Text.JoinSplit` | python/universe/naif_id.py:13 | `'\n'.join(text.split('\n')) == text`: splitting the catalog into lines loses nothing |
| `NaifCatalog.LineEntry` | python/universe/naif_id.py:15-17 | a line leaves the map alone exactly when it has no tokens; an abort names the line; an entry is keyed by the quote-stripped second token of a line with at least two |
| `NaifCatalog.ParseCatalog` | python/universe/naif_id.py:13-18 | the parse succeeds exactly when every line after the two headers is blank or well formed |
| `NaifCatalog.Lookup` | python/universe/naif_id.py:20-21 | a code is found exactly when the upper-cased name is a key, and it is that key's code |
| `NaifCatalog.HeaderLinesIgnored` | python/universe/naif_id.py:13-14 | the two header lines never matter: any two lines in their place leave the parsed body unchanged |
| `NaifCatalog.HeaderOnlyCatalogIsEmpty` | python/universe/naif_id.py:13-14 | a catalog of at most two lines parses to the empty map |
| `NaifCatalog.BlankLineAddsNothing` | python/universe/naif_id.py:15-16 | a blank or whitespace-only line leaves the map as it was |
| `NaifCatalog.MalformedLineAborts` | python/universe/naif_id.py:17 | a non-blank line with one token or a non-integer first token aborts the parse |
| `NaifCatalog.EntryOfWellFormedLine` | python/universe/naif_id.py:15-17 | a well-formed line stores the quote-stripped second token under `int` of the first; later words are ignored |
| `NaifCatalog.PrefixFailurePersists` | python/universe/naif_id.py:14-17 | once an earlier line has aborted, the whole parse aborts with that error |
| `NaifCatalog.CatalogSucceedsIffEveryLineDoes` | python/universe/naif_id.py:14-17 | the parse succeeds exactly when every body line is blank or well formed |
| `NaifCatalog.FirstBadLineDecides` | python/universe/naif_id.py:14-17 | the error reported is that of the first bad line |
| `NaifCatalog.KeysComeFromLines` | python/universe/naif_id.py:14-17 | every key of the map was produced by some line |
| `NaifCatalog.LastLineForKeyWins` | python/universe/naif_id.py:14-17 | for a repeated key, the code of the last line yielding it is stored |
| `NaifCatalog.LookupIgnoresCase` | python/universe/naif_id.py:20-21 | `lookup(s) == lookup(s.upper())` |
| `NaifCatalog.UnknownNameFails` | python/universe/naif_id.py:21 | a name whose upper-case form is not a key fails instead of yielding a default |
| `NaifCatalog.MixedCaseKeyUnreachable` | python/universe/naif_id.py:17-21 | a key holding a lower-case letter can be removed without changing any lookup, so it is never found |
| `NaifCatalog.NaifId.Blank` | python/universe/naif_id.py:8-9 | the catalog object starts with an empty map |
| `NaifCatalog.NaifId.ParseNaifIds` | python/universe/naif_id.py:8-18 | the loop stores exactly the parsed map; an aborted parse reports the error and leaves the map unchanged |
| `NaifCatalog.NaifId.Get` | python/universe/naif_id.py:20-21 | a code is found exactly when the upper-cased name is a key, and it is that key's code |
| `NaifCatalog.NaifId.Load` | python/universe/naif_id.py:4-6 | a new catalog object holds the parsed map, or construction fails with the parse error |
| `Coords.MakeLocation` | python/universe/coords.py:6-15 | lat and lon stored as given; no time stays absent, a datetime is kept, text is read with the format code |
| `Coords.MakeHEclPosition` | python/universe/coords.py:24-32 | angles stored as given; distance times `au` when in AU, unchanged otherwise; non-negative stays non-negative |
| `Coords.DistInAURoundTrip` | python/universe/coords.py:28-38 | a distance given in AU is printed back as the same number of AU |
| `Ephemeris.MonthTableIsBijection` | python/universe/planet.py:16 | the month table maps Jan..Dec in calendar order one-to-one onto 1..12 |
| `Ephemeris.FirstIndexOf` | python/universe/planet.py:86-92 | the first line equal to the marker, with none before it, or nothing when no line is |
| `Ephemeris.LastIndexBefore` | python/universe/planet.py:86-89 | the last marker line before the bound, with none after it below the bound, or nothing when there is none |
| `Ephemeris.Markers` | python/universe/planet.py:84-92 | `stop` is set exactly when some line is `$$EOE`, one before the first; `start` is one past a `$$SOE`; no `$$SOE` lies between `start` (or the top) and that `$$EOE` |
| `Ephemeris.BlockOf` | python/universe/planet.py:94 | fails exactly when no line is `$$EOE`; otherwise the lines right above the first `$$EOE`, starting after a `$$SOE` or at the top, with no sentinel inside |
| `Ephemeris.PySlice` | python/universe/planet.py:94 | `xs[lo:hi]` is `xs[lo..hi]` within bounds, `xs[lo..]` when only `hi` runs past the end, and empty when `hi <= lo` or `lo` is past the end |
| `Ephemeris.ScanMarkers` | python/universe/planet.py:84-92 | the scan stops at the first `$$EOE` (stop one before it); start is one past the last `$$SOE` before it |
| `Ephemeris.GetOrbit` | python/universe/planet.py:83-100 | the records read from the response are those of the block between the sentinels, or the error that stops the read |
| `Ephemeris.OrbitOf` | python/universe/planet.py:83-100 | fails with `NoEndMarker` exactly when no line is `$$EOE`; otherwise succeeds exactly when every block line decodes, and then gives one record per block line, block line k decoded as record k, in order |
| `Ephemeris.DecodeRow` | python/universe/planet.py:95-99 | fewer than two tokens fail; a decoded row has at least five tokens and a known month, latitude from token 3, longitude from token 2 and the distance from token 4 times `au` |
| `Ephemeris.DecodeRows` | python/universe/planet.py:93-100 | success exactly when every row decodes; then one record per row, in order, each the row decoded |
| `Wrappers.MapUntilFailure` | python/universe/planet.py:93-100 | the append loop returns one result per element in order, or stops at the first failure with its index |
| `Ephemeris.BlockBetweenMarkers` | python/universe/planet.py:86-94 | with `$$SOE` at i, the first `$$EOE` at j and no `$$SOE` between, the block is exactly lines i+1..j-1 |
| `Ephemeris.OrbitOfBetweenMarkers` | python/universe/planet.py:83-100 | with `$$SOE` at i, the first `$$EOE` at j and no `$$SOE` between, the records are lines i+1..j-1 decoded in order, or the error of the first of them that does not decode |
| `Ephemeris.AdjacentMarkersGiveNoRecords` | python/universe/planet.py:86-94 | adjacent sentinels give no records |
| `Ephemeris.NoStartMarkerReadsFromTop` | python/universe/planet.py:84-94 | with no `$$SOE` before the first `$$EOE`, the block is every line above the `$$EOE` |
| `Ephemeris.FirstBadRowReported` | python/universe/planet.py:94-99 | the error reported is that of the first row that does not decode |
| `Ephemeris.UnknownMonthFails` | python/universe/planet.py:96-98 | a month abbreviation outside the table fails the row |
| `Ephemeris.WellFormedRow` | python/universe/planet.py:95-99 | latitude from token 3, longitude from token 2, distance from token 4 in AU, date rebuilt with the month number |
| `OrbitalPeriod.Capture` | python/universe/planet.py:27-31 | whatever a pattern captures is `\d+\.?\d*` text |
| `OrbitalPeriod.NumberTextParses` | python/universe/planet.py:133-138 | a capture is always accepted by `float`, so the `except` branch never runs |
| `OrbitalPeriod.Leftmost` | python/universe/planet.py:131 | the search finds nothing exactly when the pattern matches at no position; what it finds is the match at some position |
| `OrbitalPeriod.LeftmostIsFirst` | python/universe/planet.py:131 | the search reports the leftmost match |
| `OrbitalPeriod.SearchCaptureIsNumber` | python/universe/planet.py:131-135 | the group a search returns is number text |
| `OrbitalPeriod.CapturesAreNumbers` | python/universe/planet.py:130-135 | every pattern's search result, when there is one, is number text |
| `OrbitalPeriod.FirstNumber` | python/universe/planet.py:130-139 | `None` exactly when no capture is accepted by `float`; otherwise the value of some capture |
| `OrbitalPeriod.FirstCaptureDecides` | python/universe/planet.py:130-135 | the first captured number decides the result |
| `OrbitalPeriod.NoCaptureNoNumber` | python/universe/planet.py:127-139 | with number captures only, no result exactly when nothing was captured |
| `OrbitalPeriod.FirstMatchingPatternWins` | python/universe/planet.py:130-135 | patterns are tried in list order; the first that matches gives the period, later ones are ignored |
| `OrbitalPeriod.ExtractPeriod` | python/universe/planet.py:127-139 | `None` exactly when no pattern matches anywhere, in particular for an empty list; otherwise the value of some pattern's capture |
| `OrbitalPeriod.SiderealOrbPeriod` | python/universe/planet.py:116-139 | `None` exactly when none of the five patterns matches |
| `OrbitalPeriod.HeadedLineMatches` | python/universe/planet.py:27-31 | `<heading> = W.F d` captures `W.F`, whose value is the decimal W.F |
| `Projection.DistSeconds` | python/universe/planet.py:108 | the light travel time that the corrected code reads (`dist / c`): times `c` it is the distance, and it is non-negative for a non-negative distance |
| `Projection.AngularDistance` | python/universe/planet.py:108 | `dByR`: times `R` it is the light travel time times `scaled_c`; non-negative for a non-negative distance and scale |
| `Projection.Project` | python/universe/planet.py:108-112 | a projected location carries its record's time and format code, at the destination from the Sun's location |
| `Projection.Positions` | python/universe/planet.py:106-114 | one location per orbit record, same order, each carrying its record's time |
| `Projection.GetPositions` | python/universe/planet.py:102-114 | the append loop builds exactly the projected orbit |
| `Projection.AngularDistanceMonotone` | python/universe/planet.py:103-108 | a farther record or a larger `scaled_c` gives a ground distance that is no smaller (non-strict) |
| `Projection.AngularDistanceIncreasesWithScale` | python/universe/planet.py:108 | for a record at a positive distance, a strictly larger `scaled_c` gives a strictly larger ground distance |
| `Projection.ZeroScaleCollapses` | python/universe/planet.py:108 | with `scaled_c` zero every record is at ground distance zero |
| `Projection.PositionsOfConcatenation` | python/universe/planet.py:106-114 | projection is record by record: concatenated orbits give concatenated positions |
| `Projection.NumericAttribute` | python/universe/coords.py:23-32 | an `hEclPosition` has no numeric attribute except latitude, longitude and distance |
| `Projection.PositionsAsWritten` | python/universe/planet.py:106-108 | as written, the loop succeeds only on the empty orbit; any record raises `AttributeError` for `dist_seconds` |
| `Horizons.YesNo` | python/universe/query.py:21-28 | a flag is `'YES'` exactly when true and `'NO'` otherwise |
| `Text.ParseIntToString` | python/universe/query.py:39 | `int('%d' % code) == code`: the `COMMAND` parameter carries the code unchanged |
| `Query.CheckOptions` | python/universe/query.py:12-36 | success exactly when format, object, type and centre all pass, yielding the catalog code; otherwise the first failing check, in that order, decides the error |
| `Query.JPLQuery.Build` | python/universe/query.py:21-45 | flags as YES/NO; a given stop time stored and no request prepared; otherwise the object-data request for the code |
| `Query.JPLQuery.New` | python/universe/query.py:10-45 | construction fails with the first failing check, or builds a query holding the options and the catalog code |
| `Query.JPLQuery.SetObject` | python/universe/query.py:55-58 | after `object = n`: object is n, and command is `lookup(n)` or, when n is unknown, the old code with a `KeyError`; every other field is unchanged |
| `SunSingleton.Sun.Allocate` | python/universe/sun.py:8-11 | a newly allocated instance has not been initialised |
| `SunSingleton.Sun.Init` | python/universe/sun.py:14-21 | only an uninitialised instance takes the name and location; afterwards it is initialised for good |
| `SunSingleton.Sun.SetLoc` | python/universe/sun.py:29-35 | after `loc = v`, `loc` is v and nothing else changes |
| `SunSingleton.SunClass.constructor` | python/universe/sun.py:6 | the class starts with no instance |
| `SunSingleton.SunClass.New` | python/universe/sun.py:8-12 | `__new__` always returns the stored instance, creating it only the first time |
| `SunSingleton.SunClass.Construct` | python/universe/sun.py:8-21 | every construction returns the same object, and only the first construction's location is kept |
| `SunSingleton.ConstructTwice` | python/universe/sun.py:40-47 | `Sun()` then `Sun(other)` give one object whose location is the first |
| `SunSingleton.SetThroughOneReference` | python/universe/sun.py:8-35 | a location set through one reference is read through every other |
| `Planets.PlanetSetup` | python/universe/planet.py:46-77 | type, centre, mean radius, period for the stop time, orbit: each error arises exactly when the checks before it pass and it fails; on success the diameter is 2000 x radius, start defaults to today, stop to start + one period, and the orbit is the block's |
| `Planets.Planet.Build` | python/universe/planet.py:41-78 | a planet holds the given options and the computed start, stop, period, diameter, orbit and positions |
| `Planets.Planet.New` | python/universe/planet.py:34-78 | fails with the setup error, or holds every given option (name, scale, flags, type, centre, Sun, format code, step size) and the setup; positions use the corrected projection `Projection.Positions` (`dist / c`), since line 78 as written raises `AttributeError` (see Findings) |
| `Planets.Planet.Prepare` | python/universe/planet.py:46-77 | the constructor's steps, in order, compute exactly `PlanetSetup` |
| `Planets.Planet.SiderealPeriod` | python/universe/planet.py:148-150 | present exactly when the period was found; divided by `day` it is the period in days |
| `Planets.Planet.SetScaledC` | python/universe/planet.py:164-167 | stores the new `scaled_c` and rebuilds one position per record of the unchanged orbit with the corrected projection (line 167 as written raises `AttributeError`, see Findings); every other field is unchanged |
| `CelestialBody.NormalizeLongitude` | python/universe/celestial_object.py:59 | `(x + 360) % 360` lies in [0, 360) and differs from x by whole turns |
| `CelestialBody.NormalizeAtan2Range` | python/universe/celestial_object.py:57-59 | for x in (-180, 180], the fold adds 360 to negative angles and keeps the others |
| `CelestialBody.NormalizeIdempotent` | python/universe/celestial_object.py:59 | folding a folded angle changes nothing |
| `CelestialBody.NormalizeWholeTurn` | python/universe/celestial_object.py:59 | angles a whole turn apart fold to the same value |
| `CelestialBody.CelestialObject.constructor` | python/universe/celestial_object.py:9-26 | name, RA, Dec, diameter, distance and parent are stored as given |
| `CelestialBody.CelestialObject.DiameterInSeconds` | python/universe/celestial_object.py:61-64 | the diameter in light-seconds, which times `c` is the diameter |
| `CelestialBody.CelestialObject.DistanceInSeconds` | python/universe/celestial_object.py:71-74 | the distance in light-seconds, which times `c` is the distance |
| `CelestialBody.CelestialObject.SetDiameterInSeconds` | python/universe/celestial_object.py:66-69 | only the diameter changes, and reading the view back gives the value set |
| `CelestialBody.CelestialObject.SetDistanceInSeconds` | python/universe/celestial_object.py:76-79 | only the distance changes, and reading the view back gives the value set |
| `CelestialBody.CelestialObject.EclipticCoordinates` | python/universe/celestial_object.py:33-59 | latitude as converted; longitude moved by whole turns into [0, 360) |

## Left out

- Network requests (`requests.get`), the `pdb.set_trace()` breakpoints and every `__main__` block: the two
  response texts are parameters, and breakpoints have no effect on the values.
- Reading `naif_ids.txt` from disk: the catalog text is a parameter.
- `datetime`: `strptime`, `strftime`, `timedelta` and `today()` are abstract timestamps. A time text that
  `strptime` rejects is not modelled as an error.
- The great-circle projection (`asin`, `atan2`, `sin`, `cos`) and the equatorial-to-ecliptic conversion are
  function parameters. Floating-point rounding is not modelled: all arithmetic is over reals.
- `CelestialBody.NormalizeLongitude`: the result is proved in [0, 360) over reals. Python's float `%` can
  round a tiny negative angle up to exactly 360.0, and the model does not capture that.
- `Text.Upper`: only ASCII letters are upper-cased. Python's Unicode case mapping is not modelled.
- `Text.ParseInt` and `Text.ParseDecimal` accept only ASCII digits with an optional sign (and one point for
  `float`). Several forms Python also accepts are not modelled:
  - surrounding whitespace;
  - underscores;
  - exponents;
  - `inf` and `nan`;
  - non-ASCII digits.
- The regular expressions of `orbital_period_regexes` are recognised by hand-written matchers for these five
  shapes, not by a general regex engine. Python's `\d` matches every Unicode decimal digit (for
  example the Arabic-Indic `٣`), while `OrbitalPeriod.Capture` and `OrbitalPeriod.NumberLength` accept ASCII
  digits only.
- The base class that `Planet` and `Sun` call with `scaled_c`, `format` and `obj_data` is not part of this
  model: `celestial_object_base.py` accepts only a name. What it would supply is given as parameters:
  - the physical-data text;
  - the ephemeris text;
  - the mean radius, whose extraction (`_extract_mean_radius`) is not part of this model.
  
  The request parameters that `_get_orbit` builds from the base's `_command` are left out with the request.
- The `command` setter of `JPLQuery`: it calls `keys()` and `values()` on the catalog object, which defines
  neither.
- `query_format_code` (planet.py:57): it only formats the dates of the ephemeris request, which is left out
  with the request.
- `__str__` and `__repr__` formatting, `orbit.py` (KML drawing) and the unused `h_ecl_position.py`.
- Python evaluates `Planet`'s and `JPLQuery`'s default arguments (`Sun()`, `datetime.today()`) once, at
  definition time. In the model they are explicit parameters.

## Findings

| source | as written | input that shows it | evidently intended | confidence | as-written member | corrected member |
|---|---|---|---|---|---|---|
| python/universe/planet.py:108 | the light travel time is read as `pos.dist_seconds`, an attribute `hEclPosition` never defines, so `_get_positions` raises `AttributeError` | any orbit with at least one record, e.g. one `$$SOE`/`$$EOE` block holding a single well-formed row | `pos.dist / c`, the record's distance as light travel time in seconds | not executed | `Projection.PositionsAsWritten` | `Projection.Positions` |
