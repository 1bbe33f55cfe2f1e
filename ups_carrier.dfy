/** The UPS carrier: `getRates` validates the request, obtains a token,
    sends one Shop request and maps the answer to quotes. */
module UpsCarrier {
  import opened Wrappers
  import opened Errors
  import opened Http
  import opened CarrierTypes
  import opened Rates
  import opened UpsTypes
  import opened UpsMappers
  import opened UpsOAuth

  const RatePath := "/rating/v1/Shop"
  const InvalidRequestMessage := "Invalid rate request"

  /** The rate call: a POST of the Shop request built from `request`, with
      the bearer token and the transaction-source header. */
  function RateCall(token: string, request: RateRequest): (req: HttpRequest)
    ensures req.httpMethod == "POST" && req.url == Some(RatePath)
    ensures req.headers.Keys == {"Authorization", "transactionSrc"}
    ensures req.headers["Authorization"] == Text("Bearer " + token)
    ensures req.headers["transactionSrc"] == Text("testing")
    ensures req.body.Json? && req.body.rateRequest == ToUPSRequest(request)
  {
    HttpRequest(
      "POST",
      Some(RatePath),
      map["Authorization" := Text("Bearer " + token), "transactionSrc" := Text("testing")],
      Json(ToUPSRequest(request)))
  }

  /** The error for a request the schema refuses, carrying its violations. */
  function InvalidRequest(request: RateRequest): (e: CarrierError)
    ensures WellFormed(e) && e.cls == Validation && e.carrier == "SYSTEM"
    ensures e.message == InvalidRequestMessage
    ensures e.details.Violations? && (e.details.violations == [] <==> ValidRequest(request))
  {
    NewValidationError(InvalidRequestMessage, Violations(RequestViolations(request)))
  }

  /** What the rate call yields: the mapped response, or the classified error. */
  function RateOutcome(rateReply: Result<UPSRateResponse, Thrown>, request: RateRequest, now: int, name: string): (r: Result<RateResponse, CarrierError>)
    ensures r.Ok? <==> rateReply.Ok?
    ensures r.Ok? ==> r.value == ToRateResponse(rateReply.value, request, now)
    ensures r.Ok? ==> (r.value.request == request && r.value.timestamp == now
                       && |r.value.quotes| == |rateReply.value.ratedShipments|)
    ensures r.Err? ==> r.error == HandleError(rateReply.error, name)
    ensures r.Err? ==> r.error.carrier == name && r.error.cls !in {Validation, Authentication}
  {
    match Deliver(rateReply, name)
    case Ok(u) => Ok(ToRateResponse(u, request, now))
    case Err(e) => Err(e)
  }

  /** One `getRates` call's effect on the token cache, its outcome, and the
      requests sent, in order. */
  datatype RatesRun = RatesRun(cache: TokenCache, result: Result<RateResponse, CarrierError>, requests: seq<HttpRequest>)

  /** `getRates` for `request` at time `now`, by the carrier named `name`;
      `authReply` and `rateReply` are what the endpoints would answer. */
  function GetRatesStep(c: TokenCache, request: RateRequest, now: int, config: CarrierConfig, name: string,
                        authReply: Result<TokenResponse, Thrown>, rateReply: Result<UPSRateResponse, Thrown>): (run: RatesRun)
    ensures !ValidRequest(request) ==> run.requests == [] && run.cache == c
    ensures |run.requests| <= 2
    ensures run.result.Ok? ==> ValidRequest(request) && run.requests != [] && run.requests[|run.requests| - 1].url == Some(RatePath)
  {
    if !ValidRequest(request) then RatesRun(c, Err(InvalidRequest(request)), [])
    else
      var access := AccessStep(c, now, config, authReply);
      match access.result
      case Err(e) => RatesRun(access.cache, Err(e), access.requests)
      case Ok(token) =>
        RatesRun(access.cache, RateOutcome(rateReply, request, now, name), access.requests + [RateCall(token, request)])
  }

  /** Appending a request after a batch is appending the extended batch. */
  lemma AppendAfterBatch<T>(log: seq<T>, batch: seq<T>, last: T)
    ensures log + batch + [last] == log + (batch + [last])
  {
  }

  /** Input the schema refuses fails with "Invalid rate request" before
      anything is sent, and leaves the token cache alone. */
  lemma InvalidInputSendsNothing(c: TokenCache, request: RateRequest, now: int, config: CarrierConfig, name: string,
                                 authReply: Result<TokenResponse, Thrown>, rateReply: Result<UPSRateResponse, Thrown>)
    requires !ValidRequest(request)
    ensures var run := GetRatesStep(c, request, now, config, name, authReply, rateReply);
      && run.requests == [] && run.cache == c
      && run.result.Err? && run.result.error.Name() == "ValidationError"
      && run.result.error.message == InvalidRequestMessage
      && run.result.error.details.violations != []
  {
  }

  /** When the token cannot be obtained, the AuthenticationError is what the
      caller gets, and only the token request was sent. */
  lemma AuthFailureSkipsRateCall(c: TokenCache, request: RateRequest, now: int, config: CarrierConfig, name: string,
                                 thrown: Thrown, rateReply: Result<UPSRateResponse, Thrown>)
    requires ValidRequest(request) && !Reusable(c, now)
    ensures var run := GetRatesStep(c, request, now, config, name, Err(thrown), rateReply);
      && run.requests == [AuthRequest(config)] && run.cache == c
      && run.result == Err(AuthFailure(HandleError(thrown, AuthCarrier)))
  {
  }

  /** A call that succeeds sent exactly one rate call, last, built from the
      original request and the token; before it at most the token request.
      Its result is the mapped response, which echoes the request. */
  lemma SuccessSendsOneRateCall(c: TokenCache, request: RateRequest, now: int, config: CarrierConfig, name: string,
                                authReply: Result<TokenResponse, Thrown>, rateReply: Result<UPSRateResponse, Thrown>)
    requires GetRatesStep(c, request, now, config, name, authReply, rateReply).result.Ok?
    ensures var run := GetRatesStep(c, request, now, config, name, authReply, rateReply);
      var token := AccessStep(c, now, config, authReply).result.value;
      && ValidRequest(request) && rateReply.Ok?
      && run.requests == (if Reusable(c, now) then [] else [AuthRequest(config)]) + [RateCall(token, request)]
      && run.result.value == ToRateResponse(rateReply.value, request, now)
      && run.result.value.request == request
  {
  }

  /** Every outcome is a response echoing the request or a well-formed
      error of the taxonomy. */
  lemma OutcomeIsTyped(c: TokenCache, request: RateRequest, now: int, config: CarrierConfig, name: string,
                       authReply: Result<TokenResponse, Thrown>, rateReply: Result<UPSRateResponse, Thrown>)
    ensures var run := GetRatesStep(c, request, now, config, name, authReply, rateReply);
      && (run.result.Ok? ==> run.result.value.request == request && |run.result.value.quotes| == |rateReply.value.ratedShipments|)
      && (run.result.Err? ==> WellFormed(run.result.error))
  {
  }

  /** Whatever the rate call throws reaches the caller unchanged, as the
      transport classified it. */
  lemma RateCallErrorPropagates(c: TokenCache, request: RateRequest, now: int, config: CarrierConfig, name: string,
                                authReply: Result<TokenResponse, Thrown>, thrown: Thrown)
    requires ValidRequest(request) && AccessStep(c, now, config, authReply).result.Ok?
    ensures GetRatesStep(c, request, now, config, name, authReply, Err(thrown)).result == Err(HandleError(thrown, name))
  {
  }

  /** An error from the rate call reaches the caller as the transport
      classified it: a 429 is a RateLimitError with the retry hint. */
  lemma RateLimitPropagates(c: TokenCache, request: RateRequest, now: int, config: CarrierConfig, name: string,
                            authReply: Result<TokenResponse, Thrown>, message: string, response: ErrorResponse)
    requires ValidRequest(request) && AccessStep(c, now, config, authReply).result.Ok?
    requires response.status == 429 && response.headers == map["retry-after" := "10"]
    ensures var run := GetRatesStep(c, request, now, config, name, authReply, Err(HttpLibraryError(message, Some(response))));
      && run.result.Err? && run.result.error.Name() == "RateLimitError"
      && run.result.error.carrier == name
      && run.result.error.details == RetryAfter(Some("10"))
  {
  }

  /** A 401 from the token endpoint ends a first call with an
      AuthenticationError wrapping an ApiError with status 401. */
  lemma UnauthorizedTokenRequest(request: RateRequest, now: int, config: CarrierConfig, name: string,
                                 message: string, response: ErrorResponse, rateReply: Result<UPSRateResponse, Thrown>)
    requires ValidRequest(request) && response.status == 401
    ensures var run := GetRatesStep(EmptyCache, request, now, config, name, Err(HttpLibraryError(message, Some(response))), rateReply);
      && run.requests == [AuthRequest(config)]
      && run.result.Err? && run.result.error.Name() == "AuthenticationError"
      && run.result.error.details.Cause? && run.result.error.details.cause.cls == Api(401)
  {
  }

  /** The UPS carrier object. */
  class UpsCarrier {
    var name: string
    const config: CarrierConfig
    const httpClient: HttpClient
    const authProvider: UpsAuthProvider

    /** Uses the given client, or a new one on the configured base URL; the
        token provider shares it. */
    constructor(config: CarrierConfig, httpClient: Option<HttpClient>)
      ensures name == "UPS" && this.config == config && Valid()
      ensures fresh(authProvider) && authProvider.Cache() == EmptyCache
      ensures httpClient.Some? ==> this.httpClient == httpClient.value
      ensures httpClient.None? ==> fresh(this.httpClient) && this.httpClient.baseURL == Some(config.baseUrl) && this.httpClient.log == []
    {
      name := "UPS";
      this.config := config;
      var client: HttpClient;
      if httpClient.Some? {
        client := httpClient.value;
      } else {
        client := new HttpClient(Some(config.baseUrl));
      }
      this.httpClient := client;
      authProvider := new UpsAuthProvider(config, Some(client));
    }

    /** The token provider talks through this carrier's client and config. */
    predicate Valid() {
      authProvider.httpClient == httpClient && authProvider.config == config
    }

    method GetRates(request: RateRequest, now: int, authReply: Result<TokenResponse, Thrown>,
                    rateReply: Result<UPSRateResponse, Thrown>) returns (r: Result<RateResponse, CarrierError>)
      requires Valid()
      modifies authProvider, httpClient
      ensures var run := GetRatesStep(old(authProvider.Cache()), request, now, config, name, authReply, rateReply);
        && r == run.result
        && authProvider.Cache() == run.cache
        && httpClient.log == old(httpClient.log) + run.requests
    {
      if !ValidRequest(request) {
        return Err(InvalidRequest(request));
      }
      ghost var c := authProvider.Cache();
      ghost var access := AccessStep(c, now, config, authReply);
      var token := authProvider.GetAccessToken(now, authReply);
      if token.Err? {
        return Err(token.error);
      }
      r := QuoteWithToken(token.value, request, now, rateReply);
      AppendAfterBatch(old(httpClient.log), access.requests, RateCall(token.value, request));
    }

    /** Sends the rate call with `token` and maps what comes back. */
    method QuoteWithToken(token: string, request: RateRequest, now: int, rateReply: Result<UPSRateResponse, Thrown>)
      returns (r: Result<RateResponse, CarrierError>)
      modifies httpClient
      ensures r == RateOutcome(rateReply, request, now, name)
      ensures httpClient.log == old(httpClient.log) + [RateCall(token, request)]
    {
      var response := httpClient.Request(RateCall(token, request), rateReply, name);
      if response.Err? {
        return Err(response.error);
      }
      r := Ok(ToRateResponse(response.value, request, now));
    }
  }
}
