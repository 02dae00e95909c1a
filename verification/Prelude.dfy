/** The stock option type shared by every other module. */
module Prelude {
  datatype Option<+T> = None | Some(value: T)

  function Max(a: int, b: int): int { if a < b then b else a }

  function Min(a: int, b: int): int { if a < b then a else b }

  // Times and durations are counted in nanoseconds.
  const SECOND: int := 1_000_000_000
}
