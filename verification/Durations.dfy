/** Durations and instants are whole numbers of nanoseconds. */
module Durations {
  const SECOND := 1_000_000_000
  const HOUR := 3600 * SECOND
}
