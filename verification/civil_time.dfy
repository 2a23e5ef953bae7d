/**
 * An abstract stand-in for Go's `time.Time`: an instant (whole seconds since the
 * Unix epoch), the wall clock that instant shows in its location, and the
 * location itself. Converting an instant to a wall clock is the time
 * library's job and is not modelled; callers supply it.
 */
module CivilTime {

  /** A named time zone, as `time.LoadLocation` returns it. */
  datatype Location = Location(name: string)

  /** The process's local zone, `time.Local`, whose name is "Local". */
  const Local := Location("Local")

  /** The wall-clock reading of a time: Gregorian date and time of day. */
  datatype Civil = Civil(year: int, month: int, day: int, hour: int, minute: int, second: int)

  /** A time value: the instant, plus its wall clock in `loc`. */
  datatype Time = Time(unix: int, wall: Civil, loc: Location)

  /** The ranges Go's `time.Time` keeps its wall-clock fields in. */
  predicate ValidCivil(c: Civil) {
    && 1 <= c.month <= 12
    && 1 <= c.day <= 31
    && 0 <= c.hour <= 23
    && 0 <= c.minute <= 59
    && 0 <= c.second <= 59
  }

  /** Go's zero `time.Time`: January 1, year 1, 00:00:00 UTC. */
  const ZeroTime := Time(-62135596800, Civil(1, 1, 1, 0, 0, 0), Location("UTC"))
}
