/**
 * The failure taxonomy of the API client (lib/gitem/api.py:9-53): the
 * `ApiCallException` raised for a non-success response with its derived
 * status classifications, and the other conditions the core raises.
 */
module ApiErrors {
  import opened Values

  // HTTP status codes, as defined in RFC 9110.
  const BadRequestCode: int := 400          // section 15.5.1 of RFC 9110
  const UnauthorizedCode: int := 401        // section 15.5.2 of RFC 9110
  const ForbiddenCode: int := 403           // section 15.5.4 of RFC 9110
  const NotFoundCode: int := 404            // section 15.5.5 of RFC 9110
  const ConflictCode: int := 409            // section 15.5.10 of RFC 9110
  const UnprocessableEntityCode: int := 422 // section 15.5.21 of RFC 9110

  /** The documentation link the platform puts in the payload of a rate-limited response. */
  const RateLimitingUrl: string := "https://developer.github.com/v3/#rate-limiting"

  /** A non-success response: its status code and its decoded payload. */
  datatype ApiCallError = ApiCallError(code: int, message: Body)

  predicate IsBadRequest(e: ApiCallError) { e.code == BadRequestCode }
  predicate IsUnprocessableEntity(e: ApiCallError) { e.code == UnprocessableEntityCode }
  predicate IsForbidden(e: ApiCallError) { e.code == ForbiddenCode }
  predicate IsUnauthorized(e: ApiCallError) { e.code == UnauthorizedCode }
  predicate IsConflict(e: ApiCallError) { e.code == ConflictCode }
  predicate IsNotFound(e: ApiCallError) { e.code == NotFoundCode }

  /** `message.get('documentation_url')`: the documentation link of an object payload, if any. */
  function DocumentationUrl(message: Body): (r: Option<Scalar>)
    ensures r.Some? <==> message.Object? && "documentation_url" in message.fields
    ensures r.Some? ==> r.value == message.fields["documentation_url"]
  {
    if message.Object? && "documentation_url" in message.fields
    then Some(message.fields["documentation_url"])
    else None
  }

  /** Forbidden, and the payload points at the rate-limiting documentation. */
  predicate IsRateLimiting(e: ApiCallError)
  {
    IsForbidden(e) && DocumentationUrl(e.message) == Some(Str(RateLimitingUrl))
  }

  /** The number of the six status classifications that hold of `e`. */
  function ClassificationCount(e: ApiCallError): (n: nat)
  {
    (if IsBadRequest(e) then 1 else 0) + (if IsUnprocessableEntity(e) then 1 else 0)
    + (if IsForbidden(e) then 1 else 0) + (if IsUnauthorized(e) then 1 else 0)
    + (if IsConflict(e) then 1 else 0) + (if IsNotFound(e) then 1 else 0)
  }

  /** The status classifications are mutually exclusive, and any of the six listed codes has exactly one. */
  lemma ClassificationsExclusive(e: ApiCallError)
    ensures ClassificationCount(e) <= 1
    ensures ClassificationCount(e) == 1 <==>
      e.code in {BadRequestCode, UnauthorizedCode, ForbiddenCode, NotFoundCode, ConflictCode, UnprocessableEntityCode}
  {
  }

  /** Rate limiting is a kind of forbidden response, never any other classification. */
  lemma RateLimitingIsForbidden(e: ApiCallError)
    requires IsRateLimiting(e)
    ensures IsForbidden(e) && e.code == 403
    ensures !IsNotFound(e) && !IsConflict(e) && !IsBadRequest(e)
    ensures !IsUnauthorized(e) && !IsUnprocessableEntity(e)
  {
  }

  /** A 403 is rate limiting exactly when its object payload names the rate-limiting documentation. */
  lemma RateLimitingCharacterized(code: int, fields: RawRecord)
    ensures IsRateLimiting(ApiCallError(code, Object(fields))) <==>
      code == 403 && "documentation_url" in fields && fields["documentation_url"] == Str(RateLimitingUrl)
  {
  }

  /** Everything the core can raise, in the model's terms. */
  datatype Failure =
    | ApiCall(error: ApiCallError)        // a non-success response (ApiCallException)
    | AuthenticationRequired              // a guarded endpoint without a token
    | InvalidArgument(parameter: string)  // an enumerated parameter outside its set (ValueError)
    | MissingField(field: string)         // a record lookup of an absent key (KeyError)
    | WrongShape                          // a payload of the wrong JSON shape (TypeError)
    | Unorderable                         // a sort key that cannot be compared (TypeError)

  /** A computation that either produces a value or raises a failure. */
  datatype Outcome<+T> = Ok(value: T) | Fail(failure: Failure)
}
