/** The UPS OAuth client-credentials provider: one cached bearer token and
    its expiry instant, reused until five minutes before expiry and
    refreshed otherwise. */
module UpsOAuth {
  import opened Wrappers
  import opened JsNumbers
  import opened Errors
  import opened Http
  import opened CarrierTypes

  /** The token endpoint's answer; `expires_in` is a string of seconds. */
  datatype TokenResponse = TokenResponse(
    accessToken: string,
    expiresIn: string,
    status: string,
    tokenType: string,
    issuedAt: string,
    clientId: string)

  /** Refresh this long (in milliseconds) before the announced expiry. */
  const SkewMs := 300000
  const AuthCarrier := "UPS"
  const AuthFailureMessage := "Failed to retrieve access token"

  /** The provider's state: the cached token (`null` as `None`) and the
      expiry instant in milliseconds, which is NaN when the lifetime did not
      parse. */
  datatype TokenCache = TokenCache(token: Option<string>, expiresAt: JsNumber)

  /** The state of a new provider, and after `invalidateToken`. */
  const EmptyCache := TokenCache(None, Finite(0.0))

  /** The token is set and non-empty (truthy). */
  predicate HasToken(c: TokenCache) { c.token.Some? && c.token.value != "" }

  /** `isValid`: the current time is strictly before expiry minus the skew.
      Every comparison with NaN is false. */
  predicate BeforeSkew(c: TokenCache, now: int) {
    c.expiresAt.Finite? && (now as real) < c.expiresAt.value - SkewMs as real
  }

  predicate Reusable(c: TokenCache, now: int) { HasToken(c) && BeforeSkew(c, now) }

  /** The token request: a form POST of the client-credentials grant to the
      auth URL, with Basic credentials and the merchant id. */
  function AuthRequest(config: CarrierConfig): (req: HttpRequest)
    ensures req.httpMethod == "POST" && req.url == config.authUrl
    ensures req.body == Form([("grant_type", "client_credentials")])
    ensures req.headers.Keys == {"Authorization", "Content-Type", "x-merchant-id"}
    ensures req.headers["Authorization"] == BasicAuth(config.clientId + ":" + config.clientSecret)
    ensures req.headers["Content-Type"] == Text("application/x-www-form-urlencoded")
    ensures req.headers["x-merchant-id"].Undefined? <==> config.accountNumber.None?
    ensures config.accountNumber.Some? ==> req.headers["x-merchant-id"] == Text(config.accountNumber.value)
  {
    HttpRequest(
      "POST",
      config.authUrl,
      map[
        "Authorization" := BasicAuth(config.clientId + ":" + config.clientSecret),
        "Content-Type" := Text("application/x-www-form-urlencoded"),
        "x-merchant-id" := if config.accountNumber.Some? then Text(config.accountNumber.value) else Undefined
      ],
      Form([("grant_type", "client_credentials")]))
  }

  /** `Date.now() + parseInt(expires_in, 10) * 1000`. */
  function ExpiryAfter(now: int, expiresIn: string): (e: JsNumber)
    ensures ParseInt(expiresIn).NaN? <==> e.NaN?
    ensures e.Finite? ==> e.value == now as real + ParseInt(expiresIn).value * 1000.0
  {
    match ParseInt(expiresIn)
    case Finite(seconds) => Finite(now as real + seconds * 1000.0)
    case NaN => NaN
  }

  /** The error every failed refresh surfaces as: an AuthenticationError for
      UPS whose details are the error the request failed with. */
  function AuthFailure(cause: CarrierError): (e: CarrierError)
    ensures WellFormed(e) && e.cls == Authentication && e.code == "AUTH_ERROR"
    ensures e.carrier == AuthCarrier && e.details == Cause(cause)
  {
    NewAuthenticationError(AuthFailureMessage, AuthCarrier, Cause(cause))
  }

  /** One call's effect: the new state, what the caller gets, and the
      requests sent on the way. */
  datatype Access = Access(cache: TokenCache, result: Result<string, CarrierError>, requests: seq<HttpRequest>)

  /** `refreshToken` at time `now` when the endpoint answers `reply`. */
  function Refresh(c: TokenCache, now: int, config: CarrierConfig, reply: Result<TokenResponse, Thrown>): (a: Access)
    ensures a.requests == [AuthRequest(config)]
    ensures a.result.Ok? <==> reply.Ok?
    ensures a.result.Ok? ==> a.cache.token == Some(a.result.value) && a.result.value == reply.value.accessToken
    ensures a.result.Err? ==> a.cache == c && a.result.error.cls == Authentication && a.result.error.carrier == AuthCarrier
  {
    match Deliver(reply, AuthCarrier)
    case Ok(response) =>
      Access(TokenCache(Some(response.accessToken), ExpiryAfter(now, response.expiresIn)),
             Ok(response.accessToken), [AuthRequest(config)])
    case Err(e) =>
      Access(c, Err(AuthFailure(e)), [AuthRequest(config)])
  }

  /** `getAccessToken` at time `now`: the cached token while it is usable,
      a refresh otherwise. `reply` is what the endpoint would answer. */
  function AccessStep(c: TokenCache, now: int, config: CarrierConfig, reply: Result<TokenResponse, Thrown>): (a: Access)
    ensures a.result.Ok? ==> a.cache.token == Some(a.result.value)
    ensures a.result.Err? ==> a.cache == c && a.result.error.cls == Authentication
    ensures |a.requests| <= 1
  {
    if Reusable(c, now) then Access(c, Ok(c.token.value), [])
    else Refresh(c, now, config, reply)
  }

  /** A call sends no request exactly when the cached token is usable; it
      then returns that token and changes nothing. Otherwise it sends exactly
      the token request. */
  lemma ReuseExactlyWhenUsable(c: TokenCache, now: int, config: CarrierConfig, reply: Result<TokenResponse, Thrown>)
    ensures var a := AccessStep(c, now, config, reply);
      && (a.requests == [] <==> Reusable(c, now))
      && (Reusable(c, now) ==> a.result == Ok(c.token.value) && a.cache == c)
      && (!Reusable(c, now) ==> a.requests == [AuthRequest(config)])
  {
  }

  /** At exactly expiry minus the skew the token is no longer used. */
  lemma RefreshAtSkewBoundary(c: TokenCache, config: CarrierConfig, reply: Result<TokenResponse, Thrown>)
    requires c.expiresAt.Finite? && c.expiresAt.value.Floor as real == c.expiresAt.value
    ensures AccessStep(c, c.expiresAt.value.Floor - SkewMs, config, reply).requests == [AuthRequest(config)]
  {
  }

  /** A new provider, or one just invalidated, always refreshes. */
  lemma EmptyCacheRefreshes(now: int, config: CarrierConfig, reply: Result<TokenResponse, Thrown>)
    ensures AccessStep(EmptyCache, now, config, reply).requests == [AuthRequest(config)]
  {
  }

  /** A successful refresh at `now` stores the new token with expiry
      `now + expires_in * 1000` and returns exactly the stored token. */
  lemma RefreshStoresToken(c: TokenCache, now: int, config: CarrierConfig, response: TokenResponse, seconds: int)
    requires !Reusable(c, now)
    requires ParseInt(response.expiresIn) == Finite(seconds as real)
    ensures var a := AccessStep(c, now, config, Ok(response));
      && a.cache == TokenCache(Some(response.accessToken), Finite((now + seconds * 1000) as real))
      && a.result == Ok(a.cache.token.value)
  {
  }

  /** A failed refresh changes nothing and surfaces as an AuthenticationError
      for UPS that wraps the classified failure. */
  lemma FailedRefreshKeepsCache(c: TokenCache, now: int, config: CarrierConfig, thrown: Thrown)
    requires !Reusable(c, now)
    ensures var a := AccessStep(c, now, config, Err(thrown));
      && a.cache == c
      && a.result == Err(AuthFailure(HandleError(thrown, AuthCarrier)))
      && a.result.error.Name() == "AuthenticationError"
  {
  }

  /** With a lifetime of at most 300 seconds the fresh token is never reused:
      every later call refreshes again. The same holds when the lifetime does
      not parse, or the token is empty. */
  lemma ShortLivedTokenNeverReused(c: TokenCache, now: int, config: CarrierConfig, response: TokenResponse, later: int)
    requires !Reusable(c, now) && now <= later
    requires ParseInt(response.expiresIn).NaN? || ParseInt(response.expiresIn).value <= 300.0
             || response.accessToken == ""
    ensures !Reusable(AccessStep(c, now, config, Ok(response)).cache, later)
  {
  }

  /** The effect of a sequence of calls at the times in `nows`, the i-th
      answered, if it asks, by `replies[i]`. */
  datatype Session = Session(cache: TokenCache, results: seq<Result<string, CarrierError>>, requests: seq<HttpRequest>)

  function Run(c: TokenCache, nows: seq<int>, config: CarrierConfig, replies: seq<Result<TokenResponse, Thrown>>): (s: Session)
    requires |nows| == |replies|
    ensures |s.results| == |nows|
    decreases |nows|
  {
    if nows == [] then Session(c, [], [])
    else
      var first := AccessStep(c, nows[0], config, replies[0]);
      var rest := Run(first.cache, nows[1..], config, replies[1..]);
      Session(rest.cache, [first.result] + rest.results, first.requests + rest.requests)
  }

  /** While every call comes before expiry minus the skew, a usable token
      is reused throughout: no request, the same token every time, the state
      untouched. */
  lemma {:induction false} RunWithinWindow(c: TokenCache, nows: seq<int>, config: CarrierConfig, replies: seq<Result<TokenResponse, Thrown>>)
    requires |nows| == |replies|
    requires HasToken(c) && c.expiresAt.Finite?
    requires forall i :: 0 <= i < |nows| ==> (nows[i] as real) < c.expiresAt.value - SkewMs as real
    ensures var s := Run(c, nows, config, replies);
      && s.requests == [] && s.cache == c
      && forall i :: 0 <= i < |nows| ==> s.results[i] == Ok(c.token.value)
  {
    if nows != [] {
      RunWithinWindow(c, nows[1..], config, replies[1..]);
    }
  }

  /** Calls in a row starting from a state that needs a refresh, the first
      one succeeding with a non-empty token and lifetime `seconds`, and every
      call before `t + seconds * 1000 - 300000`: exactly one token request,
      and every call returns the token it fetched. */
  lemma SequentialCallsRefreshOnce(c: TokenCache, nows: seq<int>, config: CarrierConfig,
                                   replies: seq<Result<TokenResponse, Thrown>>, seconds: int)
    requires |nows| == |replies| && |nows| >= 1
    requires !Reusable(c, nows[0])
    requires replies[0].Ok? && replies[0].value.accessToken != ""
    requires ParseInt(replies[0].value.expiresIn) == Finite(seconds as real)
    requires forall i :: 0 <= i < |nows| ==> nows[i] < nows[0] + seconds * 1000 - SkewMs
    ensures var s := Run(c, nows, config, replies);
      && s.requests == [AuthRequest(config)]
      && forall i :: 0 <= i < |nows| ==> s.results[i] == Ok(replies[0].value.accessToken)
  {
    var first := AccessStep(c, nows[0], config, replies[0]);
    assert first.cache.expiresAt == Finite((nows[0] + seconds * 1000) as real);
    RunWithinWindow(first.cache, nows[1..], config, replies[1..]);
    var s := Run(c, nows, config, replies);
    forall i | 0 <= i < |nows|
      ensures s.results[i] == Ok(replies[0].value.accessToken)
    {
      if i > 0 {
        assert s.results[i] == Run(first.cache, nows[1..], config, replies[1..]).results[i - 1];
      }
    }
  }

  /** The provider object: the two fields `refreshToken` overwrites and
      `invalidateToken` resets, over a configuration and an HTTP client. */
  class UpsAuthProvider {
    var token: Option<string>
    var expiresAt: JsNumber
    const config: CarrierConfig
    const httpClient: HttpClient

    /** Uses the given client, or a new one without a base URL. */
    constructor(config: CarrierConfig, httpClient: Option<HttpClient>)
      ensures Cache() == EmptyCache && this.config == config
      ensures httpClient.Some? ==> this.httpClient == httpClient.value
      ensures httpClient.None? ==> fresh(this.httpClient) && this.httpClient.baseURL.None? && this.httpClient.log == []
    {
      token := None;
      expiresAt := Finite(0.0);
      this.config := config;
      if httpClient.Some? {
        this.httpClient := httpClient.value;
      } else {
        this.httpClient := new HttpClient(None);
      }
    }

    function Cache(): TokenCache
      reads this
    {
      TokenCache(token, expiresAt)
    }

    /** `isValid` at time `now`. */
    predicate IsValid(now: int)
      reads this
      ensures IsValid(now) <==> BeforeSkew(Cache(), now)
    {
      expiresAt.Finite? && (now as real) < expiresAt.value - SkewMs as real
    }

    method GetAccessToken(now: int, reply: Result<TokenResponse, Thrown>) returns (r: Result<string, CarrierError>)
      modifies this, httpClient
      ensures var a := AccessStep(old(Cache()), now, config, reply);
        Cache() == a.cache && r == a.result && httpClient.log == old(httpClient.log) + a.requests
    {
      if token.Some? && token.value != "" && IsValid(now) {
        return Ok(token.value);
      }
      r := RefreshToken(now, reply);
    }

    method InvalidateToken()
      modifies this
      ensures Cache() == EmptyCache
    {
      token := None;
      expiresAt := Finite(0.0);
    }

    method RefreshToken(now: int, reply: Result<TokenResponse, Thrown>) returns (r: Result<string, CarrierError>)
      modifies this, httpClient
      ensures var a := Refresh(old(Cache()), now, config, reply);
        Cache() == a.cache && r == a.result && httpClient.log == old(httpClient.log) + a.requests
    {
      var response := httpClient.Request(AuthRequest(config), reply, AuthCarrier);
      match response {
        case Ok(body) =>
          token := Some(body.accessToken);
          expiresAt := ExpiryAfter(now, body.expiresIn);
          r := Ok(body.accessToken);
          assert reply == Ok(body);
        case Err(e) =>
          r := Err(NewAuthenticationError(AuthFailureMessage, AuthCarrier, Cause(e)));
          assert reply.Err? && e == HandleError(reply.error, AuthCarrier);
      }
    }
  }
}
