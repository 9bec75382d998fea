/** What every model shares: optional values, Go's units of time in nanoseconds and the largest exact JSON integer. */
module Prelude {
  datatype Option<+T> = None | Some(value: T)

  const MICROSECOND := 1_000
  const MILLISECOND := 1_000_000
  const SECOND := 1_000_000_000
  const MINUTE := 60_000_000_000

  const MAX_SAFE_INTEGER := 9007199254740991
}
