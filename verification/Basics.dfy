/** What several modules share. */
module Basics {

  datatype Option<T> = None | Some(value: T)

  /** Bookings and drivers; uuids in the system. */
  type Id = nat

  // Naive datetimes are microseconds since an epoch that falls on a whole hour.
  const SECOND: int := 1_000_000
  const MINUTE: int := 60_000_000
  const HOUR: int := 60 * MINUTE

  function Max(a: int, b: int): int { if a < b then b else a }
}
