/**
 * TokenAuthenticator: OkHttp's hook for a 401 answer. It decides whether to retry the
 * failed request with another bearer token (section 2.1 of RFC 6750), refreshing the
 * token pair first when needed, or to give up, possibly clearing the session.
 */
module TokenAuth {
  import opened Wrappers
  import opened Text
  import opened Http
  import opened AuthStore

  const AuthHeader: string := "Authorization"
  const BearerPrefix: string := "Bearer "
  /** A response chain this long (the original 401 plus one retry) is not retried again. */
  const MaxAuthRetries: int := 2

  /** A 401 response; `priorResponse` links to the response that caused this retry. */
  datatype Response = Response(request: Request, priorResponse: Option<Response>)

  /** The body of the refresh call: the stored refresh token and login. */
  datatype RefreshRequest = RefreshRequest(refreshToken: string, login: string)

  /** `TokenPairDto`; either token may be missing from the JSON. */
  datatype TokenPair = TokenPair(accessToken: Option<string>, refreshToken: Option<string>)

  /** What `refreshApi.refresh(body).execute()` gives: an exception or an HTTP reply. */
  datatype RefreshOutcome =
    | Threw
    | Replied(code: int, body: Option<TokenPair>)

  /**
   * The effect of one `authenticate` call: the request to retry (None for "give up"),
   * the credential map afterwards, and the refresh request sent, if any.
   */
  datatype Verdict = Verdict(retry: Option<Request>, store: map<string, string>, sent: Option<RefreshRequest>)

  /** The number of responses in the chain: this one plus its prior responses. */
  function ChainLength(r: Response): (n: nat)
    ensures n >= 1
    ensures n == 1 <==> r.priorResponse.None?
  {
    match r.priorResponse
    case None => 1
    case Some(p) => 1 + ChainLength(p)
  }

  /** `responseCount`: walks the `priorResponse` links. */
  method ResponseCount(response: Response) returns (result: int)
    ensures result == ChainLength(response)
  {
    result := 1;
    var prior := response.priorResponse;
    while prior.Some?
      invariant prior.Some? ==> result + ChainLength(prior.value) == ChainLength(response)
      invariant prior.None? ==> result == ChainLength(response)
      decreases if prior.Some? then ChainLength(prior.value) else 0
    {
      result := result + 1;
      prior := prior.value.priorResponse;
    }
  }

  /** The three endpoints whose 401 must never trigger a refresh. */
  predicate IsAuthEndpoint(path: Option<string>)
  {
    path.Some? &&
    (Contains(path.value, "/auth/login") || Contains(path.value, "/auth/refresh") ||
     Contains(path.value, "/auth/logout"))
  }

  /** `extractBearerToken`: the trimmed credential of an "Authorization: Bearer ..." header. */
  function ExtractBearerToken(request: Request): (r: Option<string>)
    ensures r.Some? <==> Header(request, AuthHeader).Some? && StartsWith(Header(request, AuthHeader).value, BearerPrefix)
    ensures r.Some? ==> r.value == Trim(Header(request, AuthHeader).value[|BearerPrefix|..])
  {
    match Header(request, AuthHeader)
    case None => None
    case Some(h) => if StartsWith(h, BearerPrefix) then Some(Trim(h[|BearerPrefix|..])) else None
  }

  /** The request re-issued with "Authorization: Bearer <token>". */
  function WithBearer(request: Request, token: string): Request
  {
    WithHeader(request, AuthHeader, BearerPrefix + token)
  }

  /** Reading back a bearer header yields the trimmed token that was put in. */
  lemma ExtractWithBearer(request: Request, token: string)
    ensures ExtractBearerToken(WithBearer(request, token)) == Some(Trim(token))
  {
    var h := BearerPrefix + token;
    assert Header(WithBearer(request, token), AuthHeader) == Some(h);
    assert h[|BearerPrefix|..] == token;
  }

  /**
   * Another call already replaced the token this request was sent with: the stored
   * access token is non-blank and differs from the request's bearer token.
   */
  predicate IsStale(stored: Option<string>, requestAccess: Option<string>)
  {
    stored.Some? && !IsBlank(stored.value) && requestAccess.Some? && requestAccess.value != stored.value
  }

  function GiveUp(store: map<string, string>): Verdict
  {
    Verdict(None, store, None)
  }

  /** What the refresh reply does, once the request `sent` went out. */
  function HandleRefreshOutcome(request: Request, store: map<string, string>, sent: RefreshRequest, outcome: RefreshOutcome): (v: Verdict)
    ensures v.sent == Some(sent)
    ensures outcome.Threw? ==> v.retry.None? && v.store == store
    ensures v.store == store || v.store == ClearSession(store) || v.retry.Some?
    ensures v.store != store ==> outcome.Replied? && (outcome.code == 401 || IsSuccessful(outcome.code))
    ensures v.retry.None? && v.store != store ==> outcome.Replied? && outcome.code == 401
    ensures v.retry.Some? <==>
      outcome.Replied? && IsSuccessful(outcome.code) && outcome.body.Some? &&
      outcome.body.value.accessToken.Some? && !IsBlank(outcome.body.value.accessToken.value) &&
      outcome.body.value.refreshToken.Some? && !IsBlank(outcome.body.value.refreshToken.value)
    ensures v.retry.Some? ==>
      v.store == StoreTokens(store, outcome.body.value.accessToken, outcome.body.value.refreshToken) &&
      v.retry.value == WithBearer(request, outcome.body.value.accessToken.value)
    ensures outcome.Replied? && outcome.code == 401 ==> v == Verdict(None, ClearSession(store), Some(sent))
  {
    match outcome
    case Threw => Verdict(None, store, Some(sent))
    case Replied(code, body) =>
      if IsSuccessful(code) && body.Some? then
        var pair := body.value;
        if pair.accessToken.None? || IsBlank(pair.accessToken.value) then Verdict(None, store, Some(sent))
        else if pair.refreshToken.None? || IsBlank(pair.refreshToken.value) then Verdict(None, store, Some(sent))
        else Verdict(Some(WithBearer(request, pair.accessToken.value)),
                     StoreTokens(store, pair.accessToken, pair.refreshToken), Some(sent))
      else if code == 401 then Verdict(None, ClearSession(store), Some(sent))
      else Verdict(None, store, Some(sent))
  }

  /**
   * The part of `authenticate` that runs under `refreshLock`: the stale-token test
   * again on the map `store` as it is once the lock is held, then the refresh.
   */
  function DecideLocked(request: Request, requestAccess: Option<string>, store: map<string, string>, outcome: RefreshOutcome): (v: Verdict)
    ensures IsStale(Lookup(store, KeyAccessToken), requestAccess) ==>
      v == Verdict(Some(WithBearer(request, store[KeyAccessToken])), store, None)
    ensures v.sent.None? ==> v.store == store
    ensures v.store == store || v.store == ClearSession(store) || v.retry.Some?
    ensures v.sent.Some? ==>
      Lookup(store, KeyRefreshToken) == Some(v.sent.value.refreshToken) && !IsBlank(v.sent.value.refreshToken) &&
      Lookup(store, KeyLogin) == Some(v.sent.value.login) && !IsBlank(v.sent.value.login)
    ensures v.retry.Some? ==>
      Lookup(v.store, KeyAccessToken).Some? && !IsBlank(Lookup(v.store, KeyAccessToken).value) &&
      v.retry.value == WithBearer(request, Lookup(v.store, KeyAccessToken).value)
    ensures (!IsStale(Lookup(store, KeyAccessToken), requestAccess) &&
      (Lookup(store, KeyRefreshToken).None? || IsBlank(Lookup(store, KeyRefreshToken).value) ||
       Lookup(store, KeyLogin).None? || IsBlank(Lookup(store, KeyLogin).value))) ==>
      v == GiveUp(store)
    ensures (!IsStale(Lookup(store, KeyAccessToken), requestAccess) &&
      KeyRefreshToken in store && !IsBlank(store[KeyRefreshToken]) &&
      KeyLogin in store && !IsBlank(store[KeyLogin])) ==>
      v == HandleRefreshOutcome(request, store, RefreshRequest(store[KeyRefreshToken], store[KeyLogin]), outcome)
  {
    var current := Lookup(store, KeyAccessToken);
    if IsStale(current, requestAccess) then Verdict(Some(WithBearer(request, current.value)), store, None)
    else
      var refresh := Lookup(store, KeyRefreshToken);
      var login := Lookup(store, KeyLogin);
      if refresh.None? || IsBlank(refresh.value) then GiveUp(store)
      else if login.None? || IsBlank(login.value) then GiveUp(store)
      else HandleRefreshOutcome(request, store, RefreshRequest(refresh.value, login.value), outcome)
  }

  /**
   * The decision `authenticate` takes for `response`, starting from the credential
   * map `store`, when the refresh call (if it is made) ends with `outcome`.
   * Run sequentially, the map under the lock is the map read before it.
   */
  function Decide(response: Response, store: map<string, string>, outcome: RefreshOutcome): (v: Verdict)
    ensures ChainLength(response) >= MaxAuthRetries ==> v == GiveUp(store)
    ensures IsAuthEndpoint(response.request.path) ==> v == GiveUp(store)
    ensures v.sent.None? ==> v.store == store
    ensures v.store == store || v.store == ClearSession(store) || v.retry.Some?
    ensures v.retry.Some? ==>
      Lookup(v.store, KeyAccessToken).Some? && !IsBlank(Lookup(v.store, KeyAccessToken).value) &&
      v.retry.value == WithBearer(response.request, Lookup(v.store, KeyAccessToken).value)
    ensures ChainLength(response) < MaxAuthRetries && !IsAuthEndpoint(response.request.path) ==>
      v == DecideLocked(response.request, ExtractBearerToken(response.request), store, outcome)
    ensures (ChainLength(response) < MaxAuthRetries && !IsAuthEndpoint(response.request.path) &&
      !IsStale(Lookup(store, KeyAccessToken), ExtractBearerToken(response.request)) &&
      (Lookup(store, KeyRefreshToken).None? || IsBlank(Lookup(store, KeyRefreshToken).value) ||
       Lookup(store, KeyLogin).None? || IsBlank(Lookup(store, KeyLogin).value))) ==>
      v == GiveUp(store)
    ensures (ChainLength(response) < MaxAuthRetries && !IsAuthEndpoint(response.request.path) &&
      !IsStale(Lookup(store, KeyAccessToken), ExtractBearerToken(response.request)) &&
      KeyRefreshToken in store && !IsBlank(store[KeyRefreshToken]) &&
      KeyLogin in store && !IsBlank(store[KeyLogin])) ==>
      v == HandleRefreshOutcome(response.request, store, RefreshRequest(store[KeyRefreshToken], store[KeyLogin]), outcome)
  {
    if ChainLength(response) >= MaxAuthRetries then GiveUp(store)
    else if IsAuthEndpoint(response.request.path) then GiveUp(store)
    else
      var requestAccess := ExtractBearerToken(response.request);
      var current := Lookup(store, KeyAccessToken);
      if IsStale(current, requestAccess) then Verdict(Some(WithBearer(response.request, current.value)), store, None)
      else DecideLocked(response.request, requestAccess, store, outcome)
  }

  /** A stale request is re-sent with the stored token, and nothing is refreshed or stored. */
  lemma StaleRetriesWithStoredToken(response: Response, store: map<string, string>, outcome: RefreshOutcome)
    requires ChainLength(response) < MaxAuthRetries && !IsAuthEndpoint(response.request.path)
    requires IsStale(Lookup(store, KeyAccessToken), ExtractBearerToken(response.request))
    ensures Decide(response, store, outcome) ==
      Verdict(Some(WithBearer(response.request, store[KeyAccessToken])), store, None)
  {
  }

  /** The session is cleared only by a 401 answer to the refresh call. */
  lemma ClearedOnlyOnRefresh401(response: Response, store: map<string, string>, outcome: RefreshOutcome)
    requires Decide(response, store, outcome).retry.None?
    requires Decide(response, store, outcome).store != store
    ensures outcome.Replied? && outcome.code == 401
    ensures Decide(response, store, outcome).sent.Some?
    ensures Decide(response, store, outcome).store == ClearSession(store)
  {
    var requestAccess := ExtractBearerToken(response.request);
    var locked := DecideLocked(response.request, requestAccess, store, outcome);
    assert Decide(response, store, outcome) == locked;
    var refresh, login := Lookup(store, KeyRefreshToken), Lookup(store, KeyLogin);
    assert locked == HandleRefreshOutcome(response.request, store, RefreshRequest(refresh.value, login.value), outcome);
  }

  /** With a non-stale request and a stored refresh token and login, the refresh call is made. */
  lemma LockedSendsRefresh(request: Request, requestAccess: Option<string>, store: map<string, string>, outcome: RefreshOutcome)
    requires !IsStale(Lookup(store, KeyAccessToken), requestAccess)
    requires KeyRefreshToken in store && !IsBlank(store[KeyRefreshToken])
    requires KeyLogin in store && !IsBlank(store[KeyLogin])
    ensures DecideLocked(request, requestAccess, store, outcome).sent ==
      Some(RefreshRequest(store[KeyRefreshToken], store[KeyLogin]))
  {
  }

  /**
   * A first 401 on a request that carries exactly the stored (trimmed) token is not
   * stale, so it leads to a refresh call with the stored refresh token and login.
   */
  lemma CurrentTokenGoesToRefresh(request: Request, store: map<string, string>, outcome: RefreshOutcome)
    requires !IsAuthEndpoint(request.path)
    requires KeyAccessToken in store && Trim(store[KeyAccessToken]) == store[KeyAccessToken]
    requires KeyRefreshToken in store && !IsBlank(store[KeyRefreshToken])
    requires KeyLogin in store && !IsBlank(store[KeyLogin])
    ensures Decide(Response(WithBearer(request, store[KeyAccessToken]), None), store, outcome).sent ==
      Some(RefreshRequest(store[KeyRefreshToken], store[KeyLogin]))
  {
    var req := WithBearer(request, store[KeyAccessToken]);
    ExtractWithBearer(request, store[KeyAccessToken]);
    var ra := ExtractBearerToken(req);
    LockedSendsRefresh(req, ra, store, outcome);
    assert req.path == request.path;
    assert ChainLength(Response(req, None)) == 1;
  }

  class TokenAuthenticator {
    const storage: AuthStorage

    constructor (storage: AuthStorage)
      ensures this.storage == storage
    {
      this.storage := storage;
    }

    /**
     * `authenticate`. `outcome` is what the refresh call would return; `sent` records
     * the refresh call made, if any.
     */
    method Authenticate(response: Response, outcome: RefreshOutcome) returns (retry: Option<Request>, ghost sent: Option<RefreshRequest>)
      modifies storage
      ensures var v := Decide(response, old(storage.prefs), outcome);
        retry == v.retry && storage.prefs == v.store && sent == v.sent
    {
      sent := None;
      var count := ResponseCount(response);
      if count >= MaxAuthRetries {
        return None, sent;
      }
      var path := response.request.path;
      if path.Some? && (Contains(path.value, "/auth/login") || Contains(path.value, "/auth/refresh") ||
                        Contains(path.value, "/auth/logout")) {
        return None, sent;
      }
      var requestAccess := ExtractBearerToken(response.request);
      var currentAccess := storage.AccessToken();
      if currentAccess.Some? && !IsBlank(currentAccess.value) && requestAccess.Some? && requestAccess.value != currentAccess.value {
        return Some(WithBearer(response.request, currentAccess.value)), sent;
      }
      retry, sent := RefreshUnderLock(response.request, requestAccess, outcome);
    }

    /**
     * The section `authenticate` runs while holding `refreshLock`, as sequential code.
     * Another call may have stored a new token while this one waited for the lock,
     * so the stale-token test is made again on the storage as it is now.
     */
    method RefreshUnderLock(request: Request, requestAccess: Option<string>, outcome: RefreshOutcome)
      returns (retry: Option<Request>, ghost sent: Option<RefreshRequest>)
      modifies storage
      ensures var v := DecideLocked(request, requestAccess, old(storage.prefs), outcome);
        retry == v.retry && storage.prefs == v.store && sent == v.sent
    {
      sent := None;
      var accessAfterWait := storage.AccessToken();
      if accessAfterWait.Some? && !IsBlank(accessAfterWait.value) && requestAccess.Some? && requestAccess.value != accessAfterWait.value {
        return Some(WithBearer(request, accessAfterWait.value)), sent;
      }
      var refreshToken := storage.RefreshToken();
      var login := storage.Login();
      if refreshToken.None? || IsBlank(refreshToken.value) {
        return None, sent;
      }
      if login.None? || IsBlank(login.value) {
        return None, sent;
      }
      sent := Some(RefreshRequest(refreshToken.value, login.value));
      match outcome {
        case Threw =>
          return None, sent;
        case Replied(code, body) =>
          if IsSuccessful(code) && body.Some? {
            var pair := body.value;
            if pair.accessToken.None? || IsBlank(pair.accessToken.value) {
              return None, sent;
            }
            if pair.refreshToken.None? || IsBlank(pair.refreshToken.value) {
              return None, sent;
            }
            storage.SaveTokens(pair.accessToken, pair.refreshToken);
            return Some(WithBearer(request, pair.accessToken.value)), sent;
          }
          if code == 401 {
            storage.ClearAll();
            return None, sent;
          }
          return None, sent;
      }
    }
  }
}
