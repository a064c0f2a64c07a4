/** The shipping provider's bearer-token cache (`authenticate`).

    The cache holds one token and its expiry. A request made while the token
    is present and the clock is before the expiry reuses it; otherwise the
    service logs in, and a successful login stores the new token with an
    expiry exactly 240 hours later. A failed login leaves the cache as it was.
 */
module TokenCache {
  import opened Base

  /** 240 hours in milliseconds. */
  const ValidityMs: int := 240 * 60 * 60 * 1000

  datatype Cache = Cache(token: Option<string>, expiry: Option<int>)

  /** The state of a freshly started process: nothing cached. */
  const Empty := Cache(None, None)

  /** What the login endpoint answered: a transport failure, or a body whose `token` may be missing. */
  datatype LoginReply = LoginFailed(msg: string) | LoginAnswered(token: Option<string>)

  /** The cached token may be used at time `now`. */
  predicate Usable(c: Cache, now: int) {
    StrTruthy(c.token) && c.expiry.Some? && now < c.expiry.value
  }

  /** The result of one `authenticate` call: the token or error, the new cache, and whether the login endpoint was called. */
  datatype AuthStep = AuthStep(result: Result<string>, cache: Cache, loggedIn: bool)

  function Authenticate(c: Cache, now: int, reply: LoginReply): (r: AuthStep)
    ensures Usable(c, now) ==> r == AuthStep(Ok(c.token.value), c, false)
    ensures !Usable(c, now) ==> r.loggedIn
    ensures r.result.Err? ==> r.cache == c
    ensures r.result.Ok? ==> Usable(r.cache, now) && r.result.value == r.cache.token.value
    ensures r.result.Ok? && r.loggedIn ==>
              reply.LoginAnswered? && r.cache == Cache(reply.token, Some(now + ValidityMs))
    ensures !Usable(c, now) && reply.LoginAnswered? && StrTruthy(reply.token) ==> r.result.Ok?
  {
    if Usable(c, now) then AuthStep(Ok(c.token.value), c, false)
    else
      match reply
      case LoginFailed(msg) => AuthStep(Err("Shiprocket authentication failed: " + msg), c, true)
      case LoginAnswered(token) =>
        if StrTruthy(token) then AuthStep(Ok(token.value), Cache(token, Some(now + ValidityMs)), true)
        else AuthStep(Err("Shiprocket authentication failed: Invalid response from Shiprocket API"), c, true)
  }

  /** A token obtained at `now` is reused, without a login, by every request before its expiry. */
  lemma ReusedUntilExpiry(c: Cache, now: int, reply: LoginReply, later: int, reply2: LoginReply)
    requires Authenticate(c, now, reply).result.Ok?
    requires Authenticate(c, now, reply).loggedIn
    requires now <= later < now + ValidityMs
    ensures var first := Authenticate(c, now, reply);
            Authenticate(first.cache, later, reply2) == AuthStep(first.result, first.cache, false)
  {
  }

  /** At or after the expiry the cached token is never handed out; a login is attempted instead. */
  lemma NeverUsedPastExpiry(c: Cache, now: int, reply: LoginReply)
    requires c.expiry.Some? && now >= c.expiry.value
    ensures Authenticate(c, now, reply).loggedIn
    ensures Authenticate(c, now, reply).result.Ok? ==> Authenticate(c, now, reply).cache.expiry == Some(now + ValidityMs)
  {
  }
}
