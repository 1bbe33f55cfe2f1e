# UPS rating client — a Dafny model

This project models the core of a TypeScript client that fetches shipping
rates from UPS:

- **Domain types and schemas** (`address.dfy`, `package.dfy`, `rate.dfy`,
  `schema.dfy`): addresses, packages, rate requests, quotes and responses.
  The zod schemas become validity predicates. The address, package and
  rate-request schemas also have a function that lists their violations in
  schema order.
- **UPS wire format and mappers** (`ups_types.dfy`, `ups_mappers.dfy`):
  - a rate request becomes a "Shop" request;
  - rated shipments become carrier-agnostic quotes.
- **JavaScript number handling** (`js_numbers.dfy`): `toString` on integers,
  `parseInt(s, 10)` and `parseFloat`. They are written out concretely because
  the mappers' results depend on them.
- **Error taxonomy** (`errors.dfy`): `CarrierError` and its five subclasses.
  They are modelled as one datatype whose class tag fixes the name. The tag
  also fixes the code of the four fixed-code classes; a base error and an
  `ApiError` carry the caller's code.
- **HTTP error classification** (`http_client.dfy`): `handleError`, plus the
  client's request contract. The network is a parameter: each request is
  given the reply the endpoint would send. The client keeps a ghost log of
  what it was asked to send.
- **OAuth token provider** (`ups_oauth.dfy`): a class with the cached
  `token` and `expiresAt` fields. Its methods are proved equal to pure step
  functions (`AccessStep`, `Refresh`), and the caching properties are proved
  about those functions.
- **The carrier** (`ups_carrier.dfy`): `getRates` runs validate → token →
  one POST → map back. It is proved equal to the pure `GetRatesStep`.
- **The carrier registry** (`registry.dfy`): a name → carrier map that keeps
  insertion order.

The current time is an explicit `now` parameter in milliseconds.

Three behaviours of the code that the model keeps as they are:

- The code does not validate the UPS response. It does not turn a single
  `RatedShipment` object into a one-element list.
- The token response is not validated, and whatever the token refresh
  throws surfaces wrapped in an `AuthenticationError`.
- `Description ?? 'UPS Service'` keeps an empty description. Only an absent
  one falls back to `'UPS Service'`.

## Model

| member | source | states |
|---|---|---|
| Addresses.Valid | src/types/address.ts:3-12 | an address is valid exactly when every field passes its own check |
| Addresses.FailedFields | src/types/address.ts:3-12 | the fields reported are exactly those whose rule fails (the country code counted in UTF-16 code units); none is reported exactly when the address is valid; `street2` and `isResidential` are never reported |
| Addresses.Violations | src/types/address.ts:3-12 | no violation exactly when the address is valid; every violation path is one field below the address |
| Addresses.FailedFieldsReported | src/types/address.ts:3-12 | every failing field is reported, at the prefix followed by the field's key |
| Addresses.ViolationsAtFailedFields | src/types/address.ts:3-12 | nothing else is reported: each violation sits at the prefix followed by the key of a failing field |
| Addresses.CountryCodeInCodeUnits | src/types/address.ts:10 | the length rule counts UTF-16 code units: one character outside the Basic Multilingual Plane passes, "US" passes, two such characters fail |
| Schema.Utf16Length | src/types/address.ts:10 | one or two code units per character, and exactly one per character when every character lies in the Basic Multilingual Plane |
| Packages.Valid | src/types/package.ts:3-14 | a package is valid exactly when every field passes its own check |
| Packages.FieldPath | src/types/package.ts:3-14 | each checked field sits two levels below the package (block, then field) |
| Packages.FailedFields | src/types/package.ts:3-14 | the fields reported are exactly those whose rule fails (positive magnitudes, LBS/KGS, IN/CM); none exactly when the package is valid |
| Packages.Violations | src/types/package.ts:3-14 | no violation exactly when the package is valid; every path is two levels below the package |
| Packages.FailedFieldsReported | src/types/package.ts:3-14 | every failing field is reported, at the prefix followed by the field's block and name |
| Packages.ViolationsAtFailedFields | src/types/package.ts:3-14 | nothing else is reported: each violation sits at the prefix followed by the path of a failing field |
| Schema.AtFields | src/types/package.ts:3-14 | one violation per failed field of a package (and likewise of an address, src/types/address.ts:3-12), in order, each at the prefix followed by that field's path |
| Schema.NoElementViolations | src/types/rate.ts:8 | an array has no violation exactly when none of its elements has one |
| Schema.ElementViolationsInclude | src/types/rate.ts:8 | every violation of an element is among the array's violations |
| Schema.ElementViolationSource | src/types/rate.ts:8 | every violation of the array is a violation of an element at a valid index |
| Rates.PackageListViolations | src/types/rate.ts:8 | no violation exactly when every package is valid |
| Rates.PackageListReportsFailures | src/types/rate.ts:8 | every failing field of the package at index i is reported at `packages`, i, then the field's path |
| Rates.PackageListReportsOnlyFailures | src/types/rate.ts:8 | nothing else is reported: each violation sits at `packages`, an index i, then the path of a field that fails for package i |
| Rates.PackageViolationDepth | src/types/rate.ts:8 | every package violation is four levels deep |
| Rates.ValidRequest | src/types/rate.ts:5-11 | a request is valid exactly when both addresses pass every field check, there is at least one package, and every package passes every field check |
| Rates.RequestViolations | src/types/rate.ts:5-11 | no violation exactly when the request is valid; the `packages` violation itself is reported exactly when the list is empty |
| Rates.ValidQuote | src/types/rate.ts:15-26 | a quote is refused exactly when its amount, or its day count when present, is NaN; no sign or currency rule applies |
| Rates.ValidResponse | src/types/rate.ts:30-34 | a response is valid exactly when its request is valid and every quote is valid |
| JsNumbers.DigitChar | src/carriers/ups/mappers.ts:81-89 | the character is a decimal digit with the given value |
| JsNumbers.NatToDecimal | src/carriers/ups/mappers.ts:81-89 | the rendering is non-empty, all digits, with no leading zero except for 0 itself |
| JsNumbers.IntToDecimal | src/carriers/ups/mappers.ts:81-89 | the rendering is non-empty and starts with '-' exactly for negative numbers |
| JsNumbers.DigitPrefixLength | src/auth/ups-oauth.ts:59 | the prefix counted is all digits and is followed by a non-digit or the end |
| JsNumbers.TrimStart | src/auth/ups-oauth.ts:59 | the result is a suffix of the input; everything dropped is white space, and the result does not start with white space |
| JsNumbers.ParseInt | src/auth/ups-oauth.ts:59 | a number exactly when a digit follows the white space and sign, and then an integer |
| JsNumbers.FractionDigits | src/carriers/ups/mappers.ts:41 | the fraction part is all digits |
| JsNumbers.FractionValue | src/carriers/ups/mappers.ts:41 | an empty fraction is worth 0; every fraction is worth at least 0 and less than 1; k fraction digits scaled by 10^k give back the digits' integer value |
| JsNumbers.DigitsValueBelowPow10 | src/carriers/ups/mappers.ts:41 | k digits are worth less than 10^k |
| JsNumbers.ParseFloat | src/carriers/ups/mappers.ts:41 | a number exactly when there is at least one integer or fraction digit |
| JsNumbers.ParseFloatOfWholeNumeral | src/carriers/ups/mappers.ts:41 | without a fraction part `parseFloat` and `parseInt` agree |
| JsNumbers.DecimalNumeralParses | src/carriers/ups/mappers.ts:41 | `parseFloat("m.f")` is m plus the value of the fraction digits f |
| JsNumbers.DigitsValueOfDecimal | src/carriers/ups/mappers.ts:81-89 | the digits of a rendering have the rendered value |
| JsNumbers.DigitPrefixOfDigits | src/carriers/ups/mappers.ts:81-89 | in a string of digits the digit prefix is the whole string |
| JsNumbers.IntToDecimalParsesBack | src/carriers/ups/mappers.ts:81-89 | `parseInt(n.toString(), 10) == n` for every integer |
| JsNumbers.IntToDecimalParsesBackAsFloat | src/carriers/ups/mappers.ts:81-89 | `parseFloat(n.toString()) == n` for every integer |
| JsNumbers.IntToDecimalInjective | src/carriers/ups/mappers.ts:81-89 | distinct integers render differently |
| Errors.NewCarrierError | src/types/errors.ts:1-12 | a well-formed base error keeping the given code, message, carrier and details |
| Errors.NewValidationError | src/types/errors.ts:14-18 | code `VALIDATION_ERROR`, carrier `SYSTEM`, name `ValidationError` |
| Errors.NewAuthenticationError | src/types/errors.ts:20-24 | code `AUTH_ERROR`, the given carrier, name `AuthenticationError` |
| Errors.NewNetworkError | src/types/errors.ts:26-30 | code `NETWORK_ERROR`, the given carrier, name `NetworkError` |
| Errors.NewRateLimitError | src/types/errors.ts:32-36 | code `RATE_LIMIT_ERROR`, the given carrier, name `RateLimitError` |
| Errors.NewApiError | src/types/errors.ts:38-48 | the caller's code and the status code are kept, name `ApiError` |
| Errors.NameIdentifiesClass | src/types/errors.ts:8-9 | two errors share a name exactly when they were built by the same class |
| Errors.FixedCodeIdentifiesClass | src/types/errors.ts:14-36 | among the fixed-code classes the code determines the class |
| Http.HandleError | src/http/http-client.ts:27-52 | total and exclusive: no response → NetworkError; 429 → RateLimitError with the retry-after header; other status → ApiError `API_ERROR` with the status and the body; a non-HTTP error → `UNKNOWN_ERROR`; never a validation or authentication error; always well-formed for the given carrier |
| Http.RetryAfterHeader | src/http/http-client.ts:38-40 | the retry hint is present exactly when the response has a `retry-after` header, and is that header's value |
| Http.ApiErrorMessageNamesStatus | src/http/http-client.ts:42-48 | the ApiError message is "Request failed with status " followed by a numeral that parses back to the status |
| Http.DistinctStatusesDistinctErrors | src/http/http-client.ts:35-48 | failures with different statuses are classified into different errors |
| Http.Deliver | src/http/http-client.ts:17-25 | a reply body comes back unchanged; a thrown value comes back as `HandleError` of it |
| Http.HttpClient.constructor | src/http/http-client.ts:7-15 | the base URL given, a 10000 ms timeout, nothing sent yet |
| Http.HttpClient.Request | src/http/http-client.ts:17-25 | the request is appended to the log, and the result is the body or the classified error |
| UpsOAuth.ExpiryAfter | src/auth/ups-oauth.ts:59-60 | the expiry is `now + expires_in * 1000`, and NaN exactly when `expires_in` does not parse |
| UpsOAuth.AuthRequest | src/auth/ups-oauth.ts:42-55 | a POST to the auth URL whose body is exactly the form `grant_type=client_credentials`; exactly three headers: Basic credentials of `clientId:clientSecret`, the form content type, and `x-merchant-id`, which is the account number when there is one and undefined otherwise |
| UpsOAuth.Refresh | src/auth/ups-oauth.ts:40-66 | exactly the token request is sent; success exactly when the endpoint answers; the token received is cached and returned; a failure keeps the cache and is an AuthenticationError for UPS |
| UpsOAuth.AccessStep | src/auth/ups-oauth.ts:23-28 | at most one request; a returned token is the cached one; a failure leaves the cache unchanged and is an AuthenticationError |
| UpsOAuth.AuthFailure | src/auth/ups-oauth.ts:63-65 | an AuthenticationError for UPS whose details are the failure |
| UpsOAuth.ReuseExactlyWhenUsable | src/auth/ups-oauth.ts:23-28 | no request exactly when the token is non-empty and `now < expiresAt - 300000`; a reused token is returned and the state is unchanged; otherwise exactly the token request is sent |
| UpsOAuth.RefreshAtSkewBoundary | src/auth/ups-oauth.ts:35-38 | at exactly `expiresAt - 300000` the token is refreshed |
| UpsOAuth.EmptyCacheRefreshes | src/auth/ups-oauth.ts:15-16 | a new or invalidated provider always sends the token request |
| UpsOAuth.RefreshStoresToken | src/auth/ups-oauth.ts:57-62 | a successful refresh stores the token with expiry `now + s*1000` and returns the stored token |
| UpsOAuth.FailedRefreshKeepsCache | src/auth/ups-oauth.ts:63-65 | a failed refresh leaves token and expiry unchanged and yields an AuthenticationError wrapping the classified failure |
| UpsOAuth.ShortLivedTokenNeverReused | src/auth/ups-oauth.ts:35-38 | with a lifetime of at most 300 s, an unparsable lifetime or an empty token, no later call reuses the fresh token |
| UpsOAuth.Run | src/auth/ups-oauth.ts:23-28 | one result per call in a sequence of calls |
| UpsOAuth.RunWithinWindow | src/auth/ups-oauth.ts:23-26 | calls made while the token is usable send nothing, return the cached token and leave the state unchanged |
| UpsOAuth.SequentialCallsRefreshOnce | src/auth/ups-oauth.ts:23-28 | calls in a row within the fresh token's window send exactly one token request and all return that token |
| UpsOAuth.UpsAuthProvider.constructor | src/auth/ups-oauth.ts:14-21 | no token and `expiresAt = 0`; the given client, or a new one without a base URL |
| UpsOAuth.UpsAuthProvider.IsValid | src/auth/ups-oauth.ts:35-38 | true exactly when `now < expiresAt - 300000` |
| UpsOAuth.UpsAuthProvider.GetAccessToken | src/auth/ups-oauth.ts:23-28 | new state, result and requests sent are those of `AccessStep` |
| UpsOAuth.UpsAuthProvider.InvalidateToken | src/auth/ups-oauth.ts:30-33 | the token is cleared and the expiry reset to 0 |
| UpsOAuth.UpsAuthProvider.RefreshToken | src/auth/ups-oauth.ts:40-66 | new state, result and requests sent are those of `Refresh` |
| UpsMappers.ToUPSAddress | src/carriers/ups/mappers.ts:56-69 | `[street1]`, plus `street2` exactly when it is a non-empty string; locality fields copied verbatim |
| UpsMappers.ToUPSPackage | src/carriers/ups/mappers.ts:72-91 | packaging code "02", dimensions present, unit codes copied, every magnitude rendered by `toString` |
| UpsMappers.WireMagnitudesParseBack | src/carriers/ups/mappers.ts:81-89 | every wire magnitude is a decimal that parses back to the package's value |
| UpsMappers.ToUPSPackages | src/carriers/ups/mappers.ts:26 | same length and order; element i is the mapping of package i |
| UpsMappers.ToUPSRequest | src/carriers/ups/mappers.ts:7-30 | option "Shop", no service; shipper and ship-from both the origin; ship-to the destination; packages in order |
| UpsMappers.TransitDays | src/carriers/ups/mappers.ts:44-46 | absent exactly when the guaranteed delivery or its day count is missing or empty; otherwise `parseInt` of the day count |
| UpsMappers.ToRateQuote | src/carriers/ups/mappers.ts:36-47 | carrier "UPS"; service is the description or the fallback; code and currency copied; amount is `parseFloat` of the value |
| UpsMappers.ToRateQuotes | src/carriers/ups/mappers.ts:36 | one quote per rated shipment, in order |
| UpsMappers.ToRateResponse | src/carriers/ups/mappers.ts:32-54 | the original request unchanged, one quote per rated shipment in order, the given timestamp |
| UpsMappers.AddressRoundTrip | src/carriers/ups/mappers.ts:56-69 | the wire address gives back the address exactly when `street2` is not the empty string |
| UpsMappers.PackageRoundTrip | src/carriers/ups/mappers.ts:72-91 | every package is recovered from its wire form |
| UpsMappers.RequestRoundTrip | src/carriers/ups/mappers.ts:7-30 | origin, destination and every package are recovered from the Shop request |
| UpsMappers.FallbackOnlyWithoutDescription | src/carriers/ups/mappers.ts:38 | the fallback name appears only for a missing description; an empty one is kept |
| UpsMappers.MappedResponseValid | src/carriers/ups/ups-carrier.ts:47-48 | the unchecked result meets the response schema exactly when the request is valid and every amount and day count parses |
| UpsMappers.TenPoundsOnTheWire | tests/integration/ups-rating.test.ts:48-52 | 10 LBS goes on the wire as "10" with code "LBS" |
| UpsMappers.FifteenDollars | tests/integration/ups-rating.test.ts:62 | "15.00" parses to 15 |
| UpsMappers.GroundShipmentQuote | tests/integration/ups-rating.test.ts:59-63 | a Ground shipment at 15.00 USD and 3 days gives the quote the test expects |
| UpsCarrier.InvalidRequest | src/carriers/ups/ups-carrier.ts:23-26 | a ValidationError "Invalid rate request" whose violations are empty exactly for a valid request |
| UpsCarrier.RateCall | src/carriers/ups/ups-carrier.ts:32-45 | a POST to `/rating/v1/Shop` whose body is the Shop request built from the rate request; exactly two headers: the bearer token and `transactionSrc: testing` |
| UpsCarrier.RateOutcome | src/carriers/ups/ups-carrier.ts:37-48 | success exactly when the rate call answers, and then the mapped response, echoing the request and the time with one quote per rated shipment; a failure is `handleError` of what the call threw, for the carrier, never a validation or authentication error |
| UpsCarrier.RateCallErrorPropagates | src/carriers/ups/ups-carrier.ts:37-45 | once validation and the token succeed, whatever the rate call throws reaches the caller exactly as `handleError` classified it |
| UpsCarrier.GetRatesStep | src/carriers/ups/ups-carrier.ts:22-49 | invalid input sends nothing and keeps the token cache; at most two requests; a success means a valid request whose last request went to the Shop path |
| UpsCarrier.InvalidInputSendsNothing | src/carriers/ups/ups-carrier.ts:23-26 | invalid input fails with that ValidationError before any request, and the token cache is untouched |
| UpsCarrier.AuthFailureSkipsRateCall | src/carriers/ups/ups-carrier.ts:29 | when the token cannot be had, only the token request is sent and its AuthenticationError is the result |
| UpsCarrier.SuccessSendsOneRateCall | src/carriers/ups/ups-carrier.ts:32-48 | a success sends exactly one rate call, last, built from the original request and the token, after at most the token request; the result is the mapped response echoing the request |
| UpsCarrier.OutcomeIsTyped | src/carriers/ups/ups-carrier.ts:22-49 | every outcome is a response echoing the request with one quote per rated shipment, or a well-formed error |
| UpsCarrier.RateLimitPropagates | tests/integration/error-handling.test.ts:68-73 | a 429 on the rate call reaches the caller as a RateLimitError with retry hint "10" and the carrier's name |
| UpsCarrier.UnauthorizedTokenRequest | tests/integration/error-handling.test.ts:75-80 | a 401 on the first token request ends in an AuthenticationError wrapping an ApiError 401 |
| UpsCarrier.UpsCarrier.constructor | src/carriers/ups/ups-carrier.ts:10-19 | name "UPS"; the given client or a new one on the base URL, shared with a new token provider holding no token |
| UpsCarrier.UpsCarrier.GetRates | src/carriers/ups/ups-carrier.ts:22-49 | result, token state and requests sent are those of `GetRatesStep` |
| UpsCarrier.UpsCarrier.QuoteWithToken | src/carriers/ups/ups-carrier.ts:32-48 | sends exactly the rate call and yields the mapped response or the classified error |
| Carriers.Enrol | src/carriers/index.ts:14-19 | a new name goes last, a known name keeps its place; names stay distinct |
| Carriers.CarrierRegistry.constructor | src/carriers/index.ts:10-12 | an empty registry |
| Carriers.CarrierRegistry.Register | src/carriers/index.ts:14-19 | the carrier is stored under its name, replacing any previous one; the key order is kept |
| Carriers.CarrierRegistry.Get | src/carriers/index.ts:21-27 | the carrier under the name, and an error "Carrier <name> not found" exactly when there is none |
| Carriers.CarrierRegistry.GetAll | src/carriers/index.ts:29-31 | one carrier per name, in insertion order, the latest registered for each; every registered carrier is included |
| Carriers.ValuesOf | src/carriers/index.ts:29-31 | the map's values at the given keys, in order |

## Left out

- Network I/O, axios and its default JSON header are not modelled. Each request is given the reply the endpoint would send.
- Concurrency between overlapping `getAccessToken` calls is not modelled. Every call is taken as running alone.
- Clock: `Date.now()` and `new Date()` are read as one `now` per call. The response timestamp is that same instant, whereas the code reads the clock again.
- JsNumbers.ParseFloat: exponents, `Infinity` and hexadecimal forms are not modelled; UPS amounts are plain decimals. The result is the exact decimal value, not the nearest double.
- JsNumbers.ParseInt: the result is the exact integer of the digits; JavaScript rounds integers beyond 2^53 to the nearest double.
- JsNumbers.IntToDecimal: every integer is rendered in plain digits; JavaScript switches to exponent form ("1e+21") from 10^21 on and has lost integer precision beyond 2^53. Package magnitudes are far below both bounds.
- JsNumbers.IntToDecimalParsesBack: holds for every integer of the model; for JavaScript numbers it holds only below 2^53 in magnitude.
- JsNumbers.IntToDecimalParsesBackAsFloat: as above, only below 2^53 in magnitude for JavaScript numbers.
- The sign of zero and the infinities are not represented in `JsNumber`.
- Packages: magnitudes are integers, so fractional weights and dimensions and their `toString` forms are not modelled.
- The base64 of the Basic credentials and the URL encoding of the form body are represented by the values they encode.
- Untyped input is not modelled: values of the wrong JavaScript type, and the `TypeError` a single `RatedShipment` object would cause.
- Addresses.Violations: zod's messages and `format()` layout are not modelled; only the paths of the violations are.
- `console.warn` on re-registration is not modelled.
- The `extra` configuration entries are not modelled, nor is the demo or environment configuration.
- The abstract `BaseCarrier` class is not modelled; the registry holds UPS carriers, the only carrier the code defines.
- Carriers.CarrierRegistry.Register: the registry is keyed by the name at registration time; renaming a registered carrier afterwards is not tracked.
