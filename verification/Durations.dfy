/** Durations are integers that count nanoseconds, as Go's do. */
module Durations {
  const MILLISECOND := 1_000_000
  const SECOND := 1_000 * MILLISECOND
}
