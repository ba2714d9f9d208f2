/** The unit constants the push methods of both engines scale by. */
module Units {
  /** Radians to degrees as the source writes it (57.3, not 180/pi). */
  const RadToDeg: real := 57.3

  /** Seconds per hour: a per-second rate times this is a per-hour rate. */
  const SecondsPerHour: real := 3600.0
}
