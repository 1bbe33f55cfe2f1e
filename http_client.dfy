/** The HTTP client's contract as the rest of the client sees it: a request
    either yields the response body or fails with exactly one typed error,
    chosen by `HandleError`. The network itself is outside the model: each
    call is given the reply the endpoint would send. */
module Http {
  import opened Wrappers
  import opened JsNumbers
  import opened Errors
  import UpsTypes

  /** A header value: literal text, `undefined` (an absent optional setting),
      or HTTP Basic credentials, which go out as "Basic " followed by the
      base64 encoding of `userPass`. */
  datatype HeaderValue = Text(text: string) | Undefined | BasicAuth(userPass: string)

  /** A request body: form fields (sent URL-encoded) or a UPS rate request
      (sent as JSON). */
  datatype Body = Form(fields: seq<(string, string)>) | Json(rateRequest: UpsTypes.UPSRateRequest)

  /** What the client is asked to send. A missing URL stands for an unset
      optional setting; the base URL then applies. */
  datatype HttpRequest = HttpRequest(httpMethod: string, url: Option<string>, headers: map<string, HeaderValue>, body: Body)

  const RateLimitStatus := 429
  const ApiErrorPrefix := "Request failed with status "

  /** The retry hint of a rate-limited response, if the header is there. */
  function RetryAfterHeader(r: ErrorResponse): (h: Option<string>)
    ensures h.Some? <==> "retry-after" in r.headers
    ensures h.Some? ==> h.value == r.headers["retry-after"]
  {
    if "retry-after" in r.headers then Some(r.headers["retry-after"]) else None
  }

  /** `handleError`: turns whatever a request threw into one error of the
      taxonomy, attributed to `carrierName`. It never lets anything through
      untranslated. */
  function HandleError(error: Thrown, carrierName: string): (e: CarrierError)
    ensures WellFormed(e) && e.carrier == carrierName
    ensures e.cls == Network <==> error.HttpLibraryError? && error.response.None?
    ensures e.cls == RateLimit <==>
      error.HttpLibraryError? && error.response.Some? && error.response.value.status == RateLimitStatus
    ensures e.cls.Api? <==>
      error.HttpLibraryError? && error.response.Some? && error.response.value.status != RateLimitStatus
    ensures e.cls == Base <==> error.OtherError?
    ensures e.cls !in {Validation, Authentication}
    ensures e.cls == Network ==> e.message == error.message && e.details == OriginalError(error)
    ensures e.cls == RateLimit ==> e.details == RetryAfter(RetryAfterHeader(error.response.value))
    ensures e.cls.Api? ==>
      && e.code == "API_ERROR"
      && e.cls.statusCode == error.response.value.status
      && e.details == ResponseData(error.response.value.data)
    ensures e.cls == Base ==> e.code == "UNKNOWN_ERROR" && e.details == OriginalError(error)
  {
    match error
    case HttpLibraryError(message, None) =>
      NewNetworkError(message, carrierName, OriginalError(error))
    case HttpLibraryError(_, Some(response)) =>
      if response.status == RateLimitStatus then
        NewRateLimitError("Rate limit exceeded", carrierName, RetryAfter(RetryAfterHeader(response)))
      else
        NewApiError("API_ERROR", ApiErrorPrefix + IntToDecimal(response.status), carrierName,
                    response.status, ResponseData(response.data))
    case OtherError(_) =>
      NewCarrierError("UNKNOWN_ERROR", "An unknown error occurred", carrierName, OriginalError(error))
  }

  /** The message of an API error names the status, which can be read back from it. */
  lemma ApiErrorMessageNamesStatus(error: Thrown, carrierName: string)
    requires error.HttpLibraryError? && error.response.Some?
    requires error.response.value.status != RateLimitStatus
    ensures var e := HandleError(error, carrierName);
      |e.message| > |ApiErrorPrefix| && e.message[..|ApiErrorPrefix|] == ApiErrorPrefix
      && ParseInt(e.message[|ApiErrorPrefix|..]) == Finite(error.response.value.status as real)
  {
    var e := HandleError(error, carrierName);
    var digits := IntToDecimal(error.response.value.status);
    assert e.message == ApiErrorPrefix + digits;
    assert e.message[|ApiErrorPrefix|..] == digits;
    IntToDecimalParsesBack(error.response.value.status);
  }

  /** Two failures classify the same way only if they carry the same
      status: distinct statuses give distinguishable errors. */
  lemma DistinctStatusesDistinctErrors(a: ErrorResponse, b: ErrorResponse, message: string, carrierName: string)
    requires a.status != b.status
    ensures HandleError(HttpLibraryError(message, Some(a)), carrierName)
         != HandleError(HttpLibraryError(message, Some(b)), carrierName)
  {
    if a.status != RateLimitStatus && b.status != RateLimitStatus {
      assert HandleError(HttpLibraryError(message, Some(a)), carrierName).cls == Api(a.status);
    }
  }

  /** What `request` delivers for a reply: the body, or the classified error. */
  function Deliver<T>(reply: Result<T, Thrown>, carrierName: string): (r: Result<T, CarrierError>)
    ensures reply.Ok? <==> r.Ok?
    ensures r.Ok? ==> r.value == reply.value
    ensures r.Err? ==> r.error == HandleError(reply.error, carrierName)
  {
    match reply
    case Ok(body) => Ok(body)
    case Err(thrown) => Err(HandleError(thrown, carrierName))
  }

  /** The HTTP client: its base URL and timeout, and a log of every request
      it has been asked to send. */
  class HttpClient {
    const baseURL: Option<string>
    const timeout: int
    ghost var log: seq<HttpRequest>

    constructor(baseURL: Option<string>)
      ensures this.baseURL == baseURL && timeout == 10000 && log == []
    {
      this.baseURL := baseURL;
      timeout := 10000;
      log := [];
    }

    /** Sends `config`; `reply` is what comes back: the parsed body or the
        value the HTTP library threw. */
    method Request<T>(config: HttpRequest, reply: Result<T, Thrown>, carrierName: string)
      returns (r: Result<T, CarrierError>)
      modifies this
      ensures log == old(log) + [config]
      ensures r == Deliver(reply, carrierName)
    {
      log := log + [config];
      match reply {
        case Ok(body) => r := Ok(body);
        case Err(thrown) => r := Err(HandleError(thrown, carrierName));
      }
    }
  }
}
