/** The `HttpStatus` enumeration of the Flask services: named HTTP status
    codes and the predicates that sort a member into one of the five classes
    of responses (section 15 of RFC 9110, formerly section 6 of RFC 7231).
    Besides the codes of RFC 7231 the enumeration holds 428, 429, 431 and 511
    from RFC 6585 and 451 from RFC 7725. */
module HttpStatusCodes {
  import opened Wrappers

  /** The members of the enumeration, in declaration order. */
  datatype HttpStatus
    = Continue100
    | SwitchingProtocols101
    | Ok200
    | Created201
    | Accepted202
    | NonAuthoritativeInformation203
    | NoContent204
    | ResetContent205
    | PartialContent206
    | MultipleChoices300
    | MovedPermanently301
    | Found302
    | SeeOther303
    | NotModified304
    | UseProxy305
    | Reserved306
    | TemporaryRedirect307
    | BadRequest400
    | Unauthorized401
    | PaymentRequired402
    | Forbidden403
    | NotFound404
    | MethodNotAllowed405
    | NotAcceptable406
    | ProxyAuthenticationRequired407
    | RequestTimeout408
    | Conflict409
    | Gone410
    | LengthRequired411
    | PreconditionFailed412
    | RequestEntityTooLarge413
    | RequestUriTooLong414
    | UnsupportedMediaType415
    | RequestedRangeNotSatisfiable416
    | ExpectationFailed417
    | PreconditionRequired428
    | TooManyRequests429
    | RequestHeaderFieldsTooLarge431
    | UnavailableForLegalReasons451
    | InternalServerError500
    | NotImplemented501
    | BadGateway502
    | ServiceUnavailable503
    | GatewayTimeout504
    | HttpVersionNotSupported505
    | NetworkAuthenticationRequired511
  {
    /** The member's `value`: its numeric status code. */
    function Value(): (code: int)
      ensures 100 <= code <= 599
    {
      match this
      case Continue100 => 100
      case SwitchingProtocols101 => 101
      case Ok200 => 200
      case Created201 => 201
      case Accepted202 => 202
      case NonAuthoritativeInformation203 => 203
      case NoContent204 => 204
      case ResetContent205 => 205
      case PartialContent206 => 206
      case MultipleChoices300 => 300
      case MovedPermanently301 => 301
      case Found302 => 302
      case SeeOther303 => 303
      case NotModified304 => 304
      case UseProxy305 => 305
      case Reserved306 => 306
      case TemporaryRedirect307 => 307
      case BadRequest400 => 400
      case Unauthorized401 => 401
      case PaymentRequired402 => 402
      case Forbidden403 => 403
      case NotFound404 => 404
      case MethodNotAllowed405 => 405
      case NotAcceptable406 => 406
      case ProxyAuthenticationRequired407 => 407
      case RequestTimeout408 => 408
      case Conflict409 => 409
      case Gone410 => 410
      case LengthRequired411 => 411
      case PreconditionFailed412 => 412
      case RequestEntityTooLarge413 => 413
      case RequestUriTooLong414 => 414
      case UnsupportedMediaType415 => 415
      case RequestedRangeNotSatisfiable416 => 416
      case ExpectationFailed417 => 417
      case PreconditionRequired428 => 428
      case TooManyRequests429 => 429
      case RequestHeaderFieldsTooLarge431 => 431
      case UnavailableForLegalReasons451 => 451
      case InternalServerError500 => 500
      case NotImplemented501 => 501
      case BadGateway502 => 502
      case ServiceUnavailable503 => 503
      case GatewayTimeout504 => 504
      case HttpVersionNotSupported505 => 505
      case NetworkAuthenticationRequired511 => 511
    }

    /** The member's `name` as the enumeration spells it (the source writes
        `request_timetout_408`, and so does this function): a stem, an
        underscore and a numeric suffix. */
    function Name(): string
    {
      Stem() + "_" + Suffix()
    }

    /** The words of the member's name, before the last underscore. */
    function Stem(): string
    {
      match this
      case Continue100 => "continue"
      case SwitchingProtocols101 => "switching_protocols"
      case Ok200 => "ok"
      case Created201 => "created"
      case Accepted202 => "accepted"
      case NonAuthoritativeInformation203 => "non_authoritative_information"
      case NoContent204 => "no_content"
      case ResetContent205 => "reset_content"
      case PartialContent206 => "partial_content"
      case MultipleChoices300 => "multiple_choices"
      case MovedPermanently301 => "moved_permanently"
      case Found302 => "found"
      case SeeOther303 => "see_other"
      case NotModified304 => "not_modified"
      case UseProxy305 => "use_proxy"
      case Reserved306 => "reserved"
      case TemporaryRedirect307 => "temporary_redirect"
      case BadRequest400 => "bad_request"
      case Unauthorized401 => "unauthorized"
      case PaymentRequired402 => "payment_required"
      case Forbidden403 => "forbidden"
      case NotFound404 => "not_found"
      case MethodNotAllowed405 => "method_not_allowed"
      case NotAcceptable406 => "not_acceptable"
      case ProxyAuthenticationRequired407 => "proxy_authentication_required"
      case RequestTimeout408 => "request_timetout"
      case Conflict409 => "conflict"
      case Gone410 => "gone"
      case LengthRequired411 => "length_required"
      case PreconditionFailed412 => "precondition_failed"
      case RequestEntityTooLarge413 => "request_entity_too_large"
      case RequestUriTooLong414 => "request_uri_too_long"
      case UnsupportedMediaType415 => "unsupported_media_type"
      case RequestedRangeNotSatisfiable416 => "requested_range_not_satisfiable"
      case ExpectationFailed417 => "expectation_failed"
      case PreconditionRequired428 => "precondition_required"
      case TooManyRequests429 => "too_many_requests"
      case RequestHeaderFieldsTooLarge431 => "request_header_fields_too_large"
      case UnavailableForLegalReasons451 => "unavailable_for_legal_reasons"
      case InternalServerError500 => "internal_server_error"
      case NotImplemented501 => "not_implemented"
      case BadGateway502 => "bad_gateway"
      case ServiceUnavailable503 => "service_unavailable"
      case GatewayTimeout504 => "gateway_timeout"
      case HttpVersionNotSupported505 => "http_version_not_supported"
      case NetworkAuthenticationRequired511 => "network_authentication_required"
    }

    /** The digits of the member's name, after the last underscore. */
    function Suffix(): string
    {
      match this
      case Continue100 => "100"
      case SwitchingProtocols101 => "101"
      case Ok200 => "200"
      case Created201 => "201"
      case Accepted202 => "202"
      case NonAuthoritativeInformation203 => "203"
      case NoContent204 => "204"
      case ResetContent205 => "205"
      case PartialContent206 => "206"
      case MultipleChoices300 => "300"
      case MovedPermanently301 => "301"
      case Found302 => "302"
      case SeeOther303 => "303"
      case NotModified304 => "304"
      case UseProxy305 => "305"
      case Reserved306 => "306"
      case TemporaryRedirect307 => "307"
      case BadRequest400 => "400"
      case Unauthorized401 => "401"
      case PaymentRequired402 => "402"
      case Forbidden403 => "403"
      case NotFound404 => "404"
      case MethodNotAllowed405 => "405"
      case NotAcceptable406 => "406"
      case ProxyAuthenticationRequired407 => "407"
      case RequestTimeout408 => "408"
      case Conflict409 => "409"
      case Gone410 => "410"
      case LengthRequired411 => "411"
      case PreconditionFailed412 => "412"
      case RequestEntityTooLarge413 => "413"
      case RequestUriTooLong414 => "414"
      case UnsupportedMediaType415 => "415"
      case RequestedRangeNotSatisfiable416 => "416"
      case ExpectationFailed417 => "417"
      case PreconditionRequired428 => "428"
      case TooManyRequests429 => "429"
      case RequestHeaderFieldsTooLarge431 => "431"
      case UnavailableForLegalReasons451 => "451"
      case InternalServerError500 => "500"
      case NotImplemented501 => "501"
      case BadGateway502 => "502"
      case ServiceUnavailable503 => "503"
      case GatewayTimeout504 => "504"
      case HttpVersionNotSupported505 => "505"
      case NetworkAuthenticationRequired511 => "511"
    }

    /** `is_informational`, as it is evidently meant to be called (see
        `IsInformationalAsWritten` for the declaration in the source). */
    predicate IsInformational()
      ensures IsInformational() <==> ClassDigit(Value()) == 1
    {
      100 <= Value() <= 199
    }

    /** `is_success`: the code lies in 200..299. */
    predicate IsSuccess()
      ensures IsSuccess() <==> ClassDigit(Value()) == 2
    {
      200 <= Value() <= 299
    }

    /** `is_redirect`: the code lies in 300..399. */
    predicate IsRedirect()
      ensures IsRedirect() <==> ClassDigit(Value()) == 3
    {
      300 <= Value() <= 399
    }

    /** `is_client_error`: the code lies in 400..499. */
    predicate IsClientError()
      ensures IsClientError() <==> ClassDigit(Value()) == 4
    {
      400 <= Value() <= 499
    }

    /** `is_server_error`: the code lies in 500..599. */
    predicate IsServerError()
      ensures IsServerError() <==> ClassDigit(Value()) == 5
    {
      500 <= Value() <= 599
    }
  }

  /** The class of a three-digit status code: its first digit, as section 15
      of RFC 9110 defines the five classes. */
  function ClassDigit(code: int): int
  {
    code / 100
  }

  /** The value of a decimal digit character. */
  function DigitValue(c: char): int
  {
    c as int - '0' as int
  }

  /** Every member's numeric suffix is three decimal digits. */
  lemma SuffixIsDigits(s: HttpStatus)
    ensures |s.Suffix()| == 3
    ensures forall i :: 0 <= i < 3 ==> '0' <= s.Suffix()[i] <= '9'
  {
  }

  /** Every member's numeric suffix spells its value in decimal. */
  lemma SuffixSpellsValue(s: HttpStatus)
    requires |s.Suffix()| == 3
    ensures 100 * DigitValue(s.Suffix()[0]) + 10 * DigitValue(s.Suffix()[1])
            + DigitValue(s.Suffix()[2]) == s.Value()
  {
  }

  /** The last four characters of every member's name are an underscore and
      three decimal digits that spell the member's value. */
  lemma NameEndsWithValue(s: HttpStatus)
    ensures var name := s.Name();
      && |name| >= 4 && name[|name| - 4] == '_'
      && (forall i :: |name| - 3 <= i < |name| ==> '0' <= name[i] <= '9')
      && 100 * DigitValue(name[|name| - 3]) + 10 * DigitValue(name[|name| - 2])
         + DigitValue(name[|name| - 1]) == s.Value()
  {
    SuffixIsDigits(s);
    SuffixSpellsValue(s);
    var name := s.Name();
    assert name[|name| - 3..] == s.Suffix();
  }

  /** `HttpStatus(code)`: the member whose value is `code`; `None` where the
      enumeration raises `ValueError` because no member has that value. The
      lookup is split by ranges of codes below only to keep each proof small. */
  function FromValue(code: int): (r: Option<HttpStatus>)
    ensures r.Some? ==> r.value.Value() == code
  {
    if code < 100 || code > 599 then None
    else if code < 200 then FromValue1xx(code)
    else if code < 300 then FromValue2xx(code)
    else if code < 400 then FromValue3xx(code)
    else if code < 500 then FromValue4xx(code)
    else FromValue5xx(code)
  }

  /** `FromValue` restricted to the informational codes 100..199. */
  function FromValue1xx(code: int): (r: Option<HttpStatus>)
    requires 100 <= code <= 199
    ensures r.Some? ==> r.value.Value() == code
  {
    match code
    case 100 => Some(Continue100)
    case 101 => Some(SwitchingProtocols101)
    case _ => None
  }

  /** `FromValue` restricted to the success codes 200..299. */
  function FromValue2xx(code: int): (r: Option<HttpStatus>)
    requires 200 <= code <= 299
    ensures r.Some? ==> r.value.Value() == code
  {
    match code
    case 200 => Some(Ok200)
    case 201 => Some(Created201)
    case 202 => Some(Accepted202)
    case 203 => Some(NonAuthoritativeInformation203)
    case 204 => Some(NoContent204)
    case 205 => Some(ResetContent205)
    case 206 => Some(PartialContent206)
    case _ => None
  }

  /** `FromValue` restricted to the redirect codes 300..399. */
  function FromValue3xx(code: int): (r: Option<HttpStatus>)
    requires 300 <= code <= 399
    ensures r.Some? ==> r.value.Value() == code
  {
    match code
    case 300 => Some(MultipleChoices300)
    case 301 => Some(MovedPermanently301)
    case 302 => Some(Found302)
    case 303 => Some(SeeOther303)
    case 304 => Some(NotModified304)
    case 305 => Some(UseProxy305)
    case 306 => Some(Reserved306)
    case 307 => Some(TemporaryRedirect307)
    case _ => None
  }

  /** `FromValue` restricted to the client error codes 400..499. */
  function FromValue4xx(code: int): (r: Option<HttpStatus>)
    requires 400 <= code <= 499
    ensures r.Some? ==> r.value.Value() == code
  {
    if code <= 408 then FromValue400To408(code)
    else if code <= 417 then FromValue409To417(code)
    else FromValue418To499(code)
  }

  function FromValue400To408(code: int): (r: Option<HttpStatus>)
    requires 400 <= code <= 408
    ensures r.Some? ==> r.value.Value() == code
  {
    match code
    case 400 => Some(BadRequest400)
    case 401 => Some(Unauthorized401)
    case 402 => Some(PaymentRequired402)
    case 403 => Some(Forbidden403)
    case 404 => Some(NotFound404)
    case 405 => Some(MethodNotAllowed405)
    case 406 => Some(NotAcceptable406)
    case 407 => Some(ProxyAuthenticationRequired407)
    case 408 => Some(RequestTimeout408)
    case _ => None
  }

  function FromValue409To417(code: int): (r: Option<HttpStatus>)
    requires 409 <= code <= 417
    ensures r.Some? ==> r.value.Value() == code
  {
    if code <= 412 then FromValue409To412(code) else FromValue413To417(code)
  }

  function FromValue409To412(code: int): (r: Option<HttpStatus>)
    requires 409 <= code <= 412
    ensures r.Some? ==> r.value.Value() == code
  {
    match code
    case 409 => Some(Conflict409)
    case 410 => Some(Gone410)
    case 411 => Some(LengthRequired411)
    case 412 => Some(PreconditionFailed412)
    case _ => None
  }

  function FromValue413To417(code: int): (r: Option<HttpStatus>)
    requires 413 <= code <= 417
    ensures r.Some? ==> r.value.Value() == code
  {
    match code
    case 413 => Some(RequestEntityTooLarge413)
    case 414 => Some(RequestUriTooLong414)
    case 415 => Some(UnsupportedMediaType415)
    case 416 => Some(RequestedRangeNotSatisfiable416)
    case 417 => Some(ExpectationFailed417)
    case _ => None
  }

  function FromValue418To499(code: int): (r: Option<HttpStatus>)
    requires 418 <= code <= 499
    ensures r.Some? ==> r.value.Value() == code
  {
    match code
    case 428 => Some(PreconditionRequired428)
    case 429 => Some(TooManyRequests429)
    case 431 => Some(RequestHeaderFieldsTooLarge431)
    case 451 => Some(UnavailableForLegalReasons451)
    case _ => None
  }

  /** `FromValue` restricted to the server error codes 500..599. */
  function FromValue5xx(code: int): (r: Option<HttpStatus>)
    requires 500 <= code <= 599
    ensures r.Some? ==> r.value.Value() == code
  {
    if code <= 502 then FromValue500To502(code) else FromValue503To599(code)
  }

  function FromValue500To502(code: int): (r: Option<HttpStatus>)
    requires 500 <= code <= 502
    ensures r.Some? ==> r.value.Value() == code
  {
    match code
    case 500 => Some(InternalServerError500)
    case 501 => Some(NotImplemented501)
    case 502 => Some(BadGateway502)
    case _ => None
  }

  function FromValue503To599(code: int): (r: Option<HttpStatus>)
    requires 503 <= code <= 599
    ensures r.Some? ==> r.value.Value() == code
  {
    match code
    case 503 => Some(ServiceUnavailable503)
    case 504 => Some(GatewayTimeout504)
    case 505 => Some(HttpVersionNotSupported505)
    case 511 => Some(NetworkAuthenticationRequired511)
    case _ => None
  }

  /** Looking a member up by its value finds that member. */
  lemma ValueLookupRoundTrip(s: HttpStatus)
    ensures FromValue(s.Value()) == Some(s)
  {
  }

  /** No two members share a value, so none of them is an alias of another. */
  lemma ValuesDistinct(a: HttpStatus, b: HttpStatus)
    requires a.Value() == b.Value()
    ensures a == b
  {
    ValueLookupRoundTrip(a);
    ValueLookupRoundTrip(b);
  }

  /** Every member belongs to exactly one of the five classes. */
  lemma ExactlyOneClass(s: HttpStatus)
    ensures (if s.IsInformational() then 1 else 0) + (if s.IsSuccess() then 1 else 0)
          + (if s.IsRedirect() then 1 else 0) + (if s.IsClientError() then 1 else 0)
          + (if s.IsServerError() then 1 else 0) == 1
  {
  }

  /** Why a Python call fails before its body runs. */
  datatype CallError = ArityError(expected: nat, given: nat)

  /** `is_informational` as declared: a `staticmethod` with the parameters
      `(cls, status_code)`. A static method receives no implicit first
      argument, so a call must pass two positional arguments (the first is
      ignored) and any other number raises `TypeError`. */
  function IsInformationalAsWritten(args: seq<HttpStatus>): (r: Result<bool, CallError>)
    ensures r.Success? <==> |args| == 2
    ensures r.Success? ==> (r.value <==> 100 <= args[1].Value() <= 199)
  {
    if |args| == 2 then Success(100 <= args[1].Value() <= 199)
    else Failure(ArityError(2, |args|))
  }

  /** The one-argument call used for the other four predicates fails for
      `is_informational`, even for a member that is informational. */
  lemma InformationalOneArgumentCallFails(s: HttpStatus)
    ensures IsInformationalAsWritten([s]) == Failure(ArityError(2, 1))
    ensures s == Continue100 ==> s.IsInformational()
  {
  }
}
