/**
 * The option values the Horizons request accepts, shared by the checks of `JPLQuery.__init__`
 * in python/universe/query.py and `Planet.__init__` in python/universe/planet.py.
 */
module Horizons {

  /** The accepted ephemeris types. */
  const EphemTypes: seq<string> := ["OBSERVER", "VECTORS", "ELEMENTS", "SPK", "APPROACH"]

  /** The only accepted centre: the Solar System barycentre. */
  const Center: string := "500@0"

  /** The accepted response formats. */
  const Formats: seq<string> := ["text", "json"]

  /** A boolean flag as the request spells it. */
  function YesNo(b: bool): (s: string)
    ensures s in {"YES", "NO"}
    ensures s == "YES" <==> b
  {
    if b then "YES" else "NO"
  }
}
