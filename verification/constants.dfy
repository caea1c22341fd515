/** Physical constants of python/universe/constants.py. */
module Constants {

  /** Speed of light in metres per second. */
  const C: real := 299792458.0

  /** Astronomical unit in metres. */
  const AU: real := 149597870700.0

  /** Length of the mean sidereal day in seconds. */
  const Day: real := 86164.0905398
}
