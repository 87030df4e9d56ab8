/** Access tokens and the durations that govern their refresh. */
module Tokens {
  import opened Durations

  /** How long before expiry the loop refreshes. */
  const REFRESH_BUFFER := 30 * SECOND
  /** Upper bound on one HTTP exchange. */
  const HTTP_TIMEOUT := 10 * SECOND
  /** Pause after a failed refresh. */
  const FAILURE_PAUSE := 5 * SECOND

  datatype Token = Token(access: string, expiresAt: int)

  const ZERO_TOKEN := Token("", 0)
}
