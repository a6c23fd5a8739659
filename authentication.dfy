/** `getAuthToken`: exchanges the security token for a session token through
    `POST {url}/user/session`, consulting the token cache first. The session
    endpoint is a parameter `authServer` that answers each request. */
module Authentication {
  import opened Outcomes
  import opened JsValues
  import opened Transport
  import opened TokenCaching

  /** The POST to the session endpoint, with body `{security_token}`. */
  datatype AuthRequest = AuthRequest(uri: string, securityToken: string)

  /** What `callback` receives: a token, an error, or nothing at all because
      a TypeError escaped the response handler. */
  datatype AuthOutcome = AuthOk(token: Value) | AuthFailed | AuthThrew

  /** The handler's decision on one response: its outcome and the value it
      stored in the cache, if it got that far. */
  datatype AuthReply = AuthReply(outcome: AuthOutcome, store: Option<Value>)

  /** One whole call: outcome, cache entries afterwards, requests sent. */
  datatype AuthStep = AuthStep(outcome: AuthOutcome, entries: map<string, CacheEntry>, sent: seq<AuthRequest>)

  /** `options.url + options.securityToken`. */
  function CacheKey(url: string, securityToken: string): string
  {
    url + securityToken
  }

  function SessionRequest(url: string, securityToken: string): AuthRequest
  {
    AuthRequest(url + "/user/session", securityToken)
  }

  /** The response handler of `getAuthToken`: an error or a status other
      than 200 fails; otherwise `body.access_token` is stored and then
      `body.jwt.access` is returned. The store happens before `body.jwt.access`
      is read, so a body without `jwt` throws after the cache was written. */
  function ReplyDecision(resp: Response): AuthReply
  {
    match resp
    case TransportError => AuthReply(AuthFailed, None)
    case Reply(status, body) =>
      if status != 200 then AuthReply(AuthFailed, None)
      else
        match Get(body, "access_token")
        case None => AuthReply(AuthThrew, None)
        case Some(accessToken) =>
          match Get(body, "jwt")
          case None => AuthReply(AuthThrew, Some(accessToken))
          case Some(jwt) =>
            match Get(jwt, "access")
            case None => AuthReply(AuthThrew, Some(accessToken))
            case Some(access) => AuthReply(AuthOk(access), Some(accessToken))
  }

  /** The specification of one `getAuthToken` call on cache `entries`: the
      cache is read at `now`, and the response handler, which may write it,
      runs at `replyAt`, when the session endpoint has answered. */
  function Authenticate(entries: map<string, CacheEntry>, url: string, securityToken: string, now: int,
                        replyAt: int, authServer: AuthRequest -> Response): AuthStep
  {
    var key := CacheKey(url, securityToken);
    var token := CachedValue(entries, key, now);
    var seen := AfterGet(entries, key, now);
    if Truthy(token) then AuthStep(AuthOk(token), seen, [])
    else
      var req := SessionRequest(url, securityToken);
      var d := ReplyDecision(authServer(req));
      AuthStep(d.outcome, if d.store.Some? then AfterSet(seen, key, d.store.value, replyAt) else seen, [req])
  }

  method GetAuthToken(cache: TokenCache, url: string, securityToken: string, now: int,
                      replyAt: int, authServer: AuthRequest -> Response)
    returns (r: AuthOutcome, sent: seq<AuthRequest>)
    modifies cache
    ensures var step := Authenticate(old(cache.entries), url, securityToken, now, replyAt, authServer);
      r == step.outcome && sent == step.sent && cache.entries == step.entries
  {
    var key := CacheKey(url, securityToken);
    var token := cache.Get(key, now);
    if Truthy(token) {
      return AuthOk(token), [];
    }
    var req := SessionRequest(url, securityToken);
    sent := [req];
    var d := ReplyDecision(authServer(req));
    if d.store.Some? {
      cache.Set(key, d.store.value, replyAt);
    }
    r := d.outcome;
  }

  /** A truthy cached token is returned as it is, with no request and no
      change to the cache; a request is sent exactly when there is none. */
  lemma CacheHitSendsNothing(entries: map<string, CacheEntry>, url: string, securityToken: string, now: int,
                             replyAt: int, authServer: AuthRequest -> Response)
    ensures var step := Authenticate(entries, url, securityToken, now, replyAt, authServer);
      var cached := CachedValue(entries, url + securityToken, now);
      (step.sent == [] <==> Truthy(cached)) &&
      (Truthy(cached) ==> step.outcome == AuthOk(cached) && step.entries == entries) &&
      (!Truthy(cached) ==> step.sent == [AuthRequest(url + "/user/session", securityToken)])
  {
  }

  /** On a 200 whose body has `access_token` and `jwt.access`, the cache holds
      `access_token` for 590 seconds counted from the reply, the caller gets
      `jwt.access`, and no other key is touched. */
  lemma FreshTokenStoredAndReturned(entries: map<string, CacheEntry>, url: string, securityToken: string, now: int,
                                    replyAt: int, authServer: AuthRequest -> Response, accessToken: Value,
                                    access: Value, props: map<string, Value>, jwt: map<string, Value>)
    requires !Truthy(CachedValue(entries, url + securityToken, now))
    requires authServer(AuthRequest(url + "/user/session", securityToken)) == Reply(200, Obj(props))
    requires "access_token" in props && props["access_token"] == accessToken
    requires "jwt" in props && props["jwt"] == Obj(jwt) && "access" in jwt && jwt["access"] == access
    ensures var step := Authenticate(entries, url, securityToken, now, replyAt, authServer);
      step.outcome == AuthOk(access) &&
      step.entries[url + securityToken] == CacheEntry(accessToken, replyAt + 590000) &&
      step.entries - {url + securityToken} == entries - {url + securityToken}
  {
  }

  /** On a 200 whose body has `access_token` but no `jwt`, the handler stores
      `access_token` and then throws reading `jwt.access`: the caller is never
      answered, yet the next call during the 590 seconds after the reply is a
      cache hit that returns the stored token without a request. */
  lemma StoreThenThrow(entries: map<string, CacheEntry>, url: string, securityToken: string, now: int,
                       replyAt: int, authServer: AuthRequest -> Response, props: map<string, Value>,
                       later: int, second: AuthRequest -> Response)
    requires !Truthy(CachedValue(entries, url + securityToken, now))
    requires authServer(AuthRequest(url + "/user/session", securityToken)) == Reply(200, Obj(props))
    requires "access_token" in props && "jwt" !in props
    requires replyAt <= later <= replyAt + 590000
    ensures var step := Authenticate(entries, url, securityToken, now, replyAt, authServer);
      var again := Authenticate(step.entries, url, securityToken, later, later, second);
      step.outcome == AuthThrew &&
      step.entries[url + securityToken] == CacheEntry(props["access_token"], replyAt + 590000) &&
      (Truthy(props["access_token"]) ==> again.sent == [] && again.outcome == AuthOk(props["access_token"]))
  {
  }

  /** A transport error or a status other than 200 fails the call and stores
      nothing: every read of the cache answers as before. The cache is
      written only after a 200. */
  lemma FailureKeepsCache(entries: map<string, CacheEntry>, url: string, securityToken: string, now: int,
                          replyAt: int, authServer: AuthRequest -> Response)
    ensures var step := Authenticate(entries, url, securityToken, now, replyAt, authServer);
      var resp := authServer(AuthRequest(url + "/user/session", securityToken));
      (step.outcome == AuthFailed <==>
        !Truthy(CachedValue(entries, url + securityToken, now)) && (resp.TransportError? || resp.status != 200)) &&
      (step.outcome == AuthFailed ==> forall k :: CachedValue(step.entries, k, now) == CachedValue(entries, k, now)) &&
      (step.entries != AfterGet(entries, url + securityToken, now) ==> resp.Reply? && resp.status == 200)
  {
  }

  /** After a successful authentication that stored a truthy `access_token`,
      every call with the same credentials that starts during the 590 seconds
      after the reply is a cache hit: it sends nothing and returns
      `access_token`; the first call after that window authenticates again. */
  lemma OneAuthenticationPerTtl(entries: map<string, CacheEntry>, url: string, securityToken: string, now: int,
                                replyAt: int, first: AuthRequest -> Response,
                                later: int, laterReply: int, second: AuthRequest -> Response)
    requires Authenticate(entries, url, securityToken, now, replyAt, first).outcome.AuthOk?
    requires !Truthy(CachedValue(entries, url + securityToken, now))
    requires first(AuthRequest(url + "/user/session", securityToken)).Reply?
    requires Truthy(Get(first(AuthRequest(url + "/user/session", securityToken)).body, "access_token").value)
    requires replyAt <= later
    ensures var step := Authenticate(entries, url, securityToken, now, replyAt, first);
      var again := Authenticate(step.entries, url, securityToken, later, laterReply, second);
      var accessToken := Get(first(AuthRequest(url + "/user/session", securityToken)).body, "access_token").value;
      (later <= replyAt + 590000 ==> again.sent == [] && again.outcome == AuthOk(accessToken)) &&
      (later > replyAt + 590000 ==> |again.sent| == 1)
  {
  }

  /** A reply that took 2 ms: a call 590 001 ms after the first one started is
      still within 590 seconds of the reply, so it is a cache hit. */
  lemma WindowStartsAtReply()
    ensures var body := Obj(map["access_token" := Str("A"), "jwt" := Obj(map["access" := Str("J")])]);
      var server := (req: AuthRequest) => Reply(200, body);
      var step := Authenticate(map[], "https://x.com", "abc", 0, 2, server);
      var again := Authenticate(step.entries, "https://x.com", "abc", 590001, 590001, server);
      again.sent == [] && again.outcome == AuthOk(Str("A"))
  {
  }

  /** The token returned by a fresh authentication (`jwt.access`) and the one
      returned by the cache hit that follows (`access_token`) differ whenever
      the server's two fields differ. */
  lemma FreshAndCachedTokensDiffer()
    ensures var body := Obj(map["access_token" := Str("A"), "jwt" := Obj(map["access" := Str("J")])]);
      var server := (req: AuthRequest) => Reply(200, body);
      var step := Authenticate(map[], "https://x.com", "abc", 0, 2, server);
      var again := Authenticate(step.entries, "https://x.com", "abc", 1000, 1000, server);
      step.outcome == AuthOk(Str("J")) && again.outcome == AuthOk(Str("A")) && again.sent == []
  {
  }

  /** The cache key is a plain concatenation, so two different credential
      pairs can share one cache entry. */
  lemma CacheKeyCollides()
    ensures CacheKey("https://x.co", "mabc") == CacheKey("https://x.com", "abc")
  {
  }
}
