/** Definitions shared by all components. */
module Basics {
  datatype Option<+T> = None | Some(value: T)

  // Instants and durations are counted in nanoseconds. The zero instant lies before every clock reading.
  type Time = int
  const SECOND: Time := 1_000_000_000
}
