/** The error taxonomy: every error the client raises is a `CarrierError`
    (code, message, carrier, optional details); the subclasses fix the code
    and, for validation errors, the carrier. */
module Errors {
  import opened Wrappers
  import opened Schema

  /** Which class of the hierarchy an error was constructed as. */
  datatype ErrorClass =
    | Base             // CarrierError itself
    | Validation       // ValidationError
    | Authentication   // AuthenticationError
    | Network          // NetworkError
    | RateLimit        // RateLimitError
    | Api(statusCode: int)  // ApiError, which also records the HTTP status

  /** The response part of an HTTP-library error: status, headers (names in
      lower case, as the library delivers them) and the response body. */
  datatype ErrorResponse = ErrorResponse(status: int, headers: map<string, string>, data: string)

  /** A value thrown below the client: an HTTP-library error (with or without
      a response) or anything else. */
  datatype Thrown =
    | HttpLibraryError(message: string, response: Option<ErrorResponse>)
    | OtherError(message: string)

  /** The `details` payload each producer attaches. */
  datatype Details =
    | NoDetails
    | Violations(violations: seq<Violation>)   // schema violations of the input
    | OriginalError(original: Thrown)          // { originalError: error }
    | Cause(cause: CarrierError)               // the error a refresh failed with
    | RetryAfter(retryAfter: Option<string>)   // { retryAfter: headers['retry-after'] }
    | ResponseData(data: string)               // the failed response's body

  datatype CarrierError = CarrierError(
    cls: ErrorClass, code: string, message: string, carrier: string, details: Details)
  {
    /** `error.name`: the name of the class the error was constructed as. */
    function Name(): string {
      match cls
      case Base => "CarrierError"
      case Validation => "ValidationError"
      case Authentication => "AuthenticationError"
      case Network => "NetworkError"
      case RateLimit => "RateLimitError"
      case Api(_) => "ApiError"
    }
  }

  /** What the subclass constructors guarantee of every error they build. */
  predicate WellFormed(e: CarrierError) {
    match e.cls
    case Base => true
    case Validation => e.code == "VALIDATION_ERROR" && e.carrier == "SYSTEM"
    case Authentication => e.code == "AUTH_ERROR"
    case Network => e.code == "NETWORK_ERROR"
    case RateLimit => e.code == "RATE_LIMIT_ERROR"
    case Api(_) => true
  }

  function NewCarrierError(code: string, message: string, carrier: string, details: Details): (e: CarrierError)
    ensures WellFormed(e) && e.Name() == "CarrierError"
    ensures e.code == code && e.message == message && e.carrier == carrier && e.details == details
  {
    CarrierError(Base, code, message, carrier, details)
  }

  function NewValidationError(message: string, details: Details): (e: CarrierError)
    ensures WellFormed(e) && e.Name() == "ValidationError"
    ensures e.code == "VALIDATION_ERROR" && e.carrier == "SYSTEM"
    ensures e.message == message && e.details == details
  {
    CarrierError(Validation, "VALIDATION_ERROR", message, "SYSTEM", details)
  }

  function NewAuthenticationError(message: string, carrier: string, details: Details): (e: CarrierError)
    ensures WellFormed(e) && e.Name() == "AuthenticationError"
    ensures e.code == "AUTH_ERROR" && e.message == message && e.carrier == carrier && e.details == details
  {
    CarrierError(Authentication, "AUTH_ERROR", message, carrier, details)
  }

  function NewNetworkError(message: string, carrier: string, details: Details): (e: CarrierError)
    ensures WellFormed(e) && e.Name() == "NetworkError"
    ensures e.code == "NETWORK_ERROR" && e.message == message && e.carrier == carrier && e.details == details
  {
    CarrierError(Network, "NETWORK_ERROR", message, carrier, details)
  }

  function NewRateLimitError(message: string, carrier: string, details: Details): (e: CarrierError)
    ensures WellFormed(e) && e.Name() == "RateLimitError"
    ensures e.code == "RATE_LIMIT_ERROR" && e.message == message && e.carrier == carrier && e.details == details
  {
    CarrierError(RateLimit, "RATE_LIMIT_ERROR", message, carrier, details)
  }

  function NewApiError(code: string, message: string, carrier: string, statusCode: int, details: Details): (e: CarrierError)
    ensures WellFormed(e) && e.Name() == "ApiError"
    ensures e.cls.Api? && e.cls.statusCode == statusCode
    ensures e.code == code && e.message == message && e.carrier == carrier && e.details == details
  {
    CarrierError(Api(statusCode), code, message, carrier, details)
  }

  /** The class name identifies the class; an ApiError's status is not part of it. */
  lemma NameIdentifiesClass(a: CarrierError, b: CarrierError)
    ensures a.Name() == b.Name() <==> (a.cls == b.cls || (a.cls.Api? && b.cls.Api?))
  {
  }

  /** The fixed codes differ, so for a well-formed error of a fixed-code
      class the code alone tells the class. */
  lemma FixedCodeIdentifiesClass(a: CarrierError, b: CarrierError)
    requires WellFormed(a) && WellFormed(b)
    requires a.cls in {Validation, Authentication, Network, RateLimit}
    requires b.cls in {Validation, Authentication, Network, RateLimit}
    ensures a.code == b.code <==> a.cls == b.cls
  {
  }
}
