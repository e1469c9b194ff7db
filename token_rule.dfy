/**
 * The cache rule both access-token caches follow: a cached token is reused
 * while it is truthy and the clock is before its expiry; a fresh token's
 * expiry is set 300 seconds before the lifetime the token endpoint grants.
 * Times are milliseconds (`Date.now()`), lifetimes seconds (`expires_in`).
 */
module TokenRule {

  import opened Wrappers

  /** The safety margin, in seconds, taken off a granted lifetime. */
  const SafetyMarginSeconds: int := 300

  /** What the token endpoint's exchange yields: the fetch (or `response.json()`)
      threw, the response was not ok, or a parsed body whose `access_token`
      may be missing. */
  datatype TokenResponse =
    | Unreachable(message: string)
    | NotOk(status: int)
    | Granted(accessToken: Option<string>, expiresIn: int)

  /** JavaScript truthiness of a `string | null | undefined`. */
  predicate Truthy(token: Option<string>) {
    token.Some? && token.value != ""
  }

  /** `token && Date.now() < tokenExpiry`. */
  predicate IsReusable(token: Option<string>, expiry: int, now: int) {
    Truthy(token) && now < expiry
  }

  /** `Date.now() + (expires_in - 300) * 1000`. */
  function RefreshedExpiry(now: int, expiresIn: int): (expiry: int)
    ensures expiry - now == (expiresIn - SafetyMarginSeconds) * 1000
  {
    now + (expiresIn - 300) * 1000
  }

  /** A freshly stored token is reused exactly while less than its granted
      lifetime minus the margin has passed. */
  lemma FreshTokenLifetime(token: string, now: int, expiresIn: int, later: int)
    ensures IsReusable(Some(token), RefreshedExpiry(now, expiresIn), later)
        <==> token != "" && later - now < (expiresIn - SafetyMarginSeconds) * 1000
  {
  }

  /** A lifetime of 300 seconds or less is never reused: every later call
      fetches a new token. */
  lemma ShortGrantNeverReused(token: Option<string>, now: int, expiresIn: int, later: int)
    requires expiresIn <= SafetyMarginSeconds && now <= later
    ensures !IsReusable(token, RefreshedExpiry(now, expiresIn), later)
  {
  }
}
