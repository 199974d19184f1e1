// The clock every process and store reads, and the durations the source fixes.

module Clock {

  /** Microseconds, the resolution of a timestamp column. */
  type Time = int

  const SECOND: int := 1_000_000
  const MINUTE: int := 60_000_000
  const DAY: int := 86_400_000_000

  const ACCESS_TOKEN_TTL: int := 15 * MINUTE
  const REFRESH_TOKEN_TTL: int := 7 * DAY
  const PRINCIPAL_CACHE_TTL: int := 5 * MINUTE
  const CHALLENGE_TTL: int := 5 * MINUTE
  const CODE_TTL: int := 10 * MINUTE
  const SESSION_RETENTION: int := 30 * DAY
  const PUBLICATION_WINDOW: int := 7 * DAY

  /** A JWT timestamp: the token library drops the fraction of a second. */
  function NumericDate(t: Time): (d: Time)
    ensures d <= t < d + SECOND && d % SECOND == 0
  {
    t - t % SECOND
  }
}
