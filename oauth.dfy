/** The authentication capability every request descriptor carries (OAuthHandler),
    with the defaults the protocol extension supplies. */
module OAuth {

  import opened Wrappers

  /** The state outside the manager that a descriptor's `token` getter reads
      (typically a credential store that a successful refresh updates). */
  type Credentials = map<string, string>

  /** What `refreshToken(callback:)` does with its callback: the default body does
      nothing, so the callback is never invoked; a real implementation calls it back. */
  datatype RefreshHook = Silent | Replies

  /** The outcome a refresh reports to the manager through its callback. */
  datatype RefreshOutcome = Refreshed | Aborted | Failed

  datatype OAuthHandler = OAuthHandler(
    needAuthentication: bool,
    token: Credentials -> Option<string>,
    refresh: RefreshHook)

  /** The protocol extension's defaults: authentication not needed, no token, a refresh
      that never calls back. */
  function DefaultOAuthHandler(): (h: OAuthHandler)
    ensures !h.needAuthentication
    ensures forall c: Credentials :: h.token(c) == None
    ensures h.refresh == Silent
  {
    OAuthHandler(false, _ => None, Silent)
  }

  /** The bearer token the manager attaches: present only when authentication is needed
      and the getter yields a token. */
  function BearerToken(h: OAuthHandler, creds: Credentials): (t: Option<string>)
    ensures t.Some? <==> h.needAuthentication && h.token(creds).Some?
    ensures t.Some? ==> t == h.token(creds)
  {
    if h.needAuthentication then h.token(creds) else None
  }

  /** The manager starts the refresh path before sending: authentication is needed
      and no token is available. */
  predicate LacksToken(h: OAuthHandler, creds: Credentials) {
    h.needAuthentication && h.token(creds).None?
  }

  /** A default handler never lacks a token and never yields a bearer token. */
  lemma DefaultNeverAuthenticates(creds: Credentials)
    ensures !LacksToken(DefaultOAuthHandler(), creds)
    ensures BearerToken(DefaultOAuthHandler(), creds) == None
  {
  }
}
