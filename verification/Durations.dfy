/** Instants, durations and the option type that every other module uses. */
module Durations {

  datatype Option<+T> = None | Some(value: T)

  /** An instant or a duration, in whole nanoseconds. */
  type Time = int

  /** Go's zero time, from which instants count. */
  const ZERO_TIME: Time := 0

  const MINUTE: Time := 60_000_000_000
  const HOUR: Time := 60 * MINUTE
  const DAY: Time := 24 * HOUR

  function Min(a: int, b: int): int {
    if a <= b then a else b
  }

  function Max(a: int, b: int): int {
    if a <= b then b else a
  }
}
