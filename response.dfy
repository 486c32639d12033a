/** HTTP responses: plain values of status, body and optional headers, built by one
    constructor per status code, a redirect helper and a streaming-body marker. */
module Responses {
  import opened Fp
  import opened Values

  type Headers = map<string, string>

  /** `{ status, body, headers }`; `headers: None` is an undefined headers field. */
  datatype Response = Response(status: int, body: Value, headers: Option<Headers>)

  /** One entry per generated constructor (`continue_`, `switchingProtocols`, ...,
      `hTTPVersionNotSupported`). */
  datatype Status =
    | Continue
    | SwitchingProtocols
    | Processing
    | EarlyHints
    | Ok
    | Created
    | Accepted
    | NonAuthoritativeInformation
    | NoContent
    | ResetContent
    | PartialContent
    | MultiStatus
    | AlreadyReported
    | IMUsed
    | MultipleChoices
    | MovedPermanently
    | Found
    | SeeOther
    | NotModified
    | UseProxy
    | SwitchProxy
    | TemporaryRedirect
    | PermanentRedirect
    | BadRequest
    | Unauthorized
    | PaymentRequired
    | Forbidden
    | NotFound
    | MethodNotAllowed
    | NotAcceptable
    | ProxyAuthenticationRequired
    | RequestTimeout
    | Conflict
    | Gone
    | LengthRequired
    | PreconditionFailed
    | PayloadTooLarge
    | URITooLong
    | UnsupportedMediaType
    | RangeNotSatisfiable
    | ExpectationFailed
    | ImATeapot
    | MisdirectedRequest
    | UnprocessableEntity
    | Locked
    | FailedDependency
    | TooEarly
    | UpgradeRequired
    | PreconditionRequired
    | TooManyRequests
    | RequestHeaderFieldsTooLarge
    | UnavailableForLegalReasons
    | InternalServerError
    | NotImplemented
    | BadGateway
    | ServiceUnavailable
    | GatewayTimeout
    | HttpVersionNotSupported

  /** The status code each constructor puts in its response. */
  function Code(s: Status): int {
    match s
    case Continue => 100
    case SwitchingProtocols => 101
    case Processing => 102
    case EarlyHints => 103
    case Ok => 200
    case Created => 201
    case Accepted => 202
    case NonAuthoritativeInformation => 203
    case NoContent => 204
    case ResetContent => 205
    case PartialContent => 206
    case MultiStatus => 207
    case AlreadyReported => 208
    case IMUsed => 226
    case MultipleChoices => 300
    case MovedPermanently => 301
    case Found => 302
    case SeeOther => 303
    case NotModified => 304
    case UseProxy => 305
    case SwitchProxy => 306
    case TemporaryRedirect => 307
    case PermanentRedirect => 308
    case BadRequest => 400
    case Unauthorized => 401
    case PaymentRequired => 402
    case Forbidden => 403
    case NotFound => 404
    case MethodNotAllowed => 405
    case NotAcceptable => 406
    case ProxyAuthenticationRequired => 407
    case RequestTimeout => 408
    case Conflict => 409
    case Gone => 410
    case LengthRequired => 411
    case PreconditionFailed => 412
    case PayloadTooLarge => 413
    case URITooLong => 414
    case UnsupportedMediaType => 415
    case RangeNotSatisfiable => 416
    case ExpectationFailed => 417
    case ImATeapot => 418
    case MisdirectedRequest => 421
    case UnprocessableEntity => 422
    case Locked => 423
    case FailedDependency => 424
    case TooEarly => 425
    case UpgradeRequired => 426
    case PreconditionRequired => 428
    case TooManyRequests => 429
    case RequestHeaderFieldsTooLarge => 431
    case UnavailableForLegalReasons => 451
    case InternalServerError => 500
    case NotImplemented => 501
    case BadGateway => 502
    case ServiceUnavailable => 503
    case GatewayTimeout => 504
    case HttpVersionNotSupported => 505
  }

  /** The constructor, if any, whose responses carry status code `c`. */
  function FromCode(c: int): Option<Status> {
    if c < 300 then FromCodeBelow300(c)
    else if c < 400 then FromCodeRedirection(c)
    else if c < 500 then FromCodeClientError(c)
    else FromCodeServerError(c)
  }

  function FromCodeBelow300(c: int): Option<Status> {
    match c
    case 100 => Some(Continue)
    case 101 => Some(SwitchingProtocols)
    case 102 => Some(Processing)
    case 103 => Some(EarlyHints)
    case 200 => Some(Ok)
    case 201 => Some(Created)
    case 202 => Some(Accepted)
    case 203 => Some(NonAuthoritativeInformation)
    case 204 => Some(NoContent)
    case 205 => Some(ResetContent)
    case 206 => Some(PartialContent)
    case 207 => Some(MultiStatus)
    case 208 => Some(AlreadyReported)
    case 226 => Some(IMUsed)
    case _ => None
  }

  function FromCodeRedirection(c: int): Option<Status> {
    match c
    case 300 => Some(MultipleChoices)
    case 301 => Some(MovedPermanently)
    case 302 => Some(Found)
    case 303 => Some(SeeOther)
    case 304 => Some(NotModified)
    case 305 => Some(UseProxy)
    case 306 => Some(SwitchProxy)
    case 307 => Some(TemporaryRedirect)
    case 308 => Some(PermanentRedirect)
    case _ => None
  }

  function FromCodeClientError(c: int): Option<Status> {
    match c
    case 400 => Some(BadRequest)
    case 401 => Some(Unauthorized)
    case 402 => Some(PaymentRequired)
    case 403 => Some(Forbidden)
    case 404 => Some(NotFound)
    case 405 => Some(MethodNotAllowed)
    case 406 => Some(NotAcceptable)
    case 407 => Some(ProxyAuthenticationRequired)
    case 408 => Some(RequestTimeout)
    case 409 => Some(Conflict)
    case 410 => Some(Gone)
    case 411 => Some(LengthRequired)
    case 412 => Some(PreconditionFailed)
    case 413 => Some(PayloadTooLarge)
    case 414 => Some(URITooLong)
    case 415 => Some(UnsupportedMediaType)
    case 416 => Some(RangeNotSatisfiable)
    case 417 => Some(ExpectationFailed)
    case 418 => Some(ImATeapot)
    case 421 => Some(MisdirectedRequest)
    case 422 => Some(UnprocessableEntity)
    case 423 => Some(Locked)
    case 424 => Some(FailedDependency)
    case 425 => Some(TooEarly)
    case 426 => Some(UpgradeRequired)
    case 428 => Some(PreconditionRequired)
    case 429 => Some(TooManyRequests)
    case 431 => Some(RequestHeaderFieldsTooLarge)
    case 451 => Some(UnavailableForLegalReasons)
    case _ => None
  }

  function FromCodeServerError(c: int): Option<Status> {
    match c
    case 500 => Some(InternalServerError)
    case 501 => Some(NotImplemented)
    case 502 => Some(BadGateway)
    case 503 => Some(ServiceUnavailable)
    case 504 => Some(GatewayTimeout)
    case 505 => Some(HttpVersionNotSupported)
    case _ => None
  }

  /** The status codes of the catalogue: those of section 15 of RFC 9110 together with
      102, 103, 207, 208, 226, 423, 424, 425, 428, 429, 431 and 451. */
  predicate IsCatalogueCode(c: int) {
    || 100 <= c <= 103
    || 200 <= c <= 208
    || c == 226
    || 300 <= c <= 308
    || 400 <= c <= 418
    || 421 <= c <= 426
    || c == 428
    || c == 429
    || c == 431
    || c == 451
    || 500 <= c <= 505
  }

  /** The constructor for `s`, called with zero, one or two arguments; a missing argument
      is `undefined`. */
  function Make(s: Status, body: Value := Undefined, headers: Option<Headers> := None): (r: Response)
    ensures r.status == Code(s) && IsCatalogueCode(r.status)
    ensures r.body == body && r.headers == headers
  {
    CodeInCatalogue(s);
    Response(Code(s), body, headers)
  }

  /** `notFound()`: status 404 with nothing else set. */
  lemma NotFoundResponse()
    ensures Make(NotFound) == Response(404, Undefined, None)
  {
  }

  /** Each constructor is recovered from its status code. */
  lemma CodeRoundTrip(s: Status)
    ensures FromCode(Code(s)) == Some(s)
  {
    match s
    case Continue =>
    case SwitchingProtocols =>
    case Processing =>
    case EarlyHints =>
    case Ok =>
    case Created =>
    case Accepted =>
    case NonAuthoritativeInformation =>
    case NoContent =>
    case ResetContent =>
    case PartialContent =>
    case MultiStatus =>
    case AlreadyReported =>
    case IMUsed =>
    case MultipleChoices =>
    case MovedPermanently =>
    case Found =>
    case SeeOther =>
    case NotModified =>
    case UseProxy =>
    case SwitchProxy =>
    case TemporaryRedirect =>
    case PermanentRedirect =>
    case BadRequest =>
    case Unauthorized =>
    case PaymentRequired =>
    case Forbidden =>
    case NotFound =>
    case MethodNotAllowed =>
    case NotAcceptable =>
    case ProxyAuthenticationRequired =>
    case RequestTimeout =>
    case Conflict =>
    case Gone =>
    case LengthRequired =>
    case PreconditionFailed =>
    case PayloadTooLarge =>
    case URITooLong =>
    case UnsupportedMediaType =>
    case RangeNotSatisfiable =>
    case ExpectationFailed =>
    case ImATeapot =>
    case MisdirectedRequest =>
    case UnprocessableEntity =>
    case Locked =>
    case FailedDependency =>
    case TooEarly =>
    case UpgradeRequired =>
    case PreconditionRequired =>
    case TooManyRequests =>
    case RequestHeaderFieldsTooLarge =>
    case UnavailableForLegalReasons =>
    case InternalServerError =>
    case NotImplemented =>
    case BadGateway =>
    case ServiceUnavailable =>
    case GatewayTimeout =>
    case HttpVersionNotSupported =>
  }

  /** Every constructor's status code is in the catalogue. */
  lemma CodeInCatalogue(s: Status)
    ensures IsCatalogueCode(Code(s))
  {
  }

  /** A code has a constructor exactly when it is in the catalogue. */
  lemma FromCodeInCatalogue(c: int)
    ensures FromCode(c).Some? <==> IsCatalogueCode(c)
  {
    if c == 100 {
    } else if c == 101 {
    } else if c == 102 {
    } else if c == 103 {
    } else if c == 200 {
    } else if c == 201 {
    } else if c == 202 {
    } else if c == 203 {
    } else if c == 204 {
    } else if c == 205 {
    } else if c == 206 {
    } else if c == 207 {
    } else if c == 208 {
    } else if c == 226 {
    } else if c == 300 {
    } else if c == 301 {
    } else if c == 302 {
    } else if c == 303 {
    } else if c == 304 {
    } else if c == 305 {
    } else if c == 306 {
    } else if c == 307 {
    } else if c == 308 {
    } else if c == 400 {
    } else if c == 401 {
    } else if c == 402 {
    } else if c == 403 {
    } else if c == 404 {
    } else if c == 405 {
    } else if c == 406 {
    } else if c == 407 {
    } else if c == 408 {
    } else if c == 409 {
    } else if c == 410 {
    } else if c == 411 {
    } else if c == 412 {
    } else if c == 413 {
    } else if c == 414 {
    } else if c == 415 {
    } else if c == 416 {
    } else if c == 417 {
    } else if c == 418 {
    } else if c == 421 {
    } else if c == 422 {
    } else if c == 423 {
    } else if c == 424 {
    } else if c == 425 {
    } else if c == 426 {
    } else if c == 428 {
    } else if c == 429 {
    } else if c == 431 {
    } else if c == 451 {
    } else if c == 500 {
    } else if c == 501 {
    } else if c == 502 {
    } else if c == 503 {
    } else if c == 504 {
    } else if c == 505 {
    }
  }

  /** The constructor found for a code uses that code. */
  lemma {:induction false} FromCodeRoundTrip(c: int)
    ensures FromCode(c).Some? ==> Code(FromCode(c).value) == c
  {
    if c <= 200 {
      FromCodeRoundTripUpTo200(c);
    } else if c <= 205 {
      FromCodeRoundTripUpTo205(c);
    } else if c <= 300 {
      FromCodeRoundTripUpTo300(c);
    } else if c <= 305 {
      FromCodeRoundTripUpTo305(c);
    } else if c <= 401 {
      FromCodeRoundTripUpTo401(c);
    } else if c <= 406 {
      FromCodeRoundTripUpTo406(c);
    } else if c <= 411 {
      FromCodeRoundTripUpTo411(c);
    } else if c <= 416 {
      FromCodeRoundTripUpTo416(c);
    } else if c <= 423 {
      FromCodeRoundTripUpTo423(c);
    } else if c <= 429 {
      FromCodeRoundTripUpTo429(c);
    } else if c <= 502 {
      FromCodeRoundTripUpTo502(c);
    } else if c <= 505 {
      FromCodeRoundTripUpTo505(c);
    }
  }

  lemma FromCodeRoundTripUpTo200(c: int)
    requires c <= 200
    ensures FromCode(c).Some? ==> Code(FromCode(c).value) == c
  {
    if c == 100 {
    } else if c == 101 {
    } else if c == 102 {
    } else if c == 103 {
    } else if c == 200 {
    }
  }

  lemma FromCodeRoundTripUpTo205(c: int)
    requires 200 < c <= 205
    ensures FromCode(c).Some? ==> Code(FromCode(c).value) == c
  {
    if c == 201 {
    } else if c == 202 {
    } else if c == 203 {
    } else if c == 204 {
    } else if c == 205 {
    }
  }

  lemma FromCodeRoundTripUpTo300(c: int)
    requires 205 < c <= 300
    ensures FromCode(c).Some? ==> Code(FromCode(c).value) == c
  {
    if c == 206 {
    } else if c == 207 {
    } else if c == 208 {
    } else if c == 226 {
    } else if c == 300 {
    }
  }

  lemma FromCodeRoundTripUpTo305(c: int)
    requires 300 < c <= 305
    ensures FromCode(c).Some? ==> Code(FromCode(c).value) == c
  {
    if c == 301 {
    } else if c == 302 {
    } else if c == 303 {
    } else if c == 304 {
    } else if c == 305 {
    }
  }

  lemma FromCodeRoundTripUpTo401(c: int)
    requires 305 < c <= 401
    ensures FromCode(c).Some? ==> Code(FromCode(c).value) == c
  {
    if c == 306 {
    } else if c == 307 {
    } else if c == 308 {
    } else if c == 400 {
    } else if c == 401 {
    }
  }

  lemma FromCodeRoundTripUpTo406(c: int)
    requires 401 < c <= 406
    ensures FromCode(c).Some? ==> Code(FromCode(c).value) == c
  {
    if c == 402 {
    } else if c == 403 {
    } else if c == 404 {
    } else if c == 405 {
    } else if c == 406 {
    }
  }

  lemma FromCodeRoundTripUpTo411(c: int)
    requires 406 < c <= 411
    ensures FromCode(c).Some? ==> Code(FromCode(c).value) == c
  {
    if c == 407 {
    } else if c == 408 {
    } else if c == 409 {
    } else if c == 410 {
    } else if c == 411 {
    }
  }

  lemma FromCodeRoundTripUpTo416(c: int)
    requires 411 < c <= 416
    ensures FromCode(c).Some? ==> Code(FromCode(c).value) == c
  {
    if c == 412 {
    } else if c == 413 {
    } else if c == 414 {
    } else if c == 415 {
    } else if c == 416 {
    }
  }

  lemma FromCodeRoundTripUpTo423(c: int)
    requires 416 < c <= 423
    ensures FromCode(c).Some? ==> Code(FromCode(c).value) == c
  {
    if c == 417 {
    } else if c == 418 {
    } else if c == 421 {
    } else if c == 422 {
    } else if c == 423 {
    }
  }

  lemma FromCodeRoundTripUpTo429(c: int)
    requires 423 < c <= 429
    ensures FromCode(c).Some? ==> Code(FromCode(c).value) == c
  {
    if c == 424 {
    } else if c == 425 {
    } else if c == 426 {
    } else if c == 428 {
    } else if c == 429 {
    }
  }

  lemma FromCodeRoundTripUpTo502(c: int)
    requires 429 < c <= 502
    ensures FromCode(c).Some? ==> Code(FromCode(c).value) == c
  {
    if c == 431 {
    } else if c == 451 {
    } else if c == 500 {
    } else if c == 501 {
    } else if c == 502 {
    }
  }

  lemma FromCodeRoundTripUpTo505(c: int)
    requires 502 < c <= 505
    ensures FromCode(c).Some? ==> Code(FromCode(c).value) == c
  {
    if c == 503 {
    } else if c == 504 {
    } else if c == 505 {
    }
  }

  /** No two constructors share a status code. */
  lemma {:induction false} CodeInjective(s: Status, t: Status)
    ensures Code(s) == Code(t) ==> s == t
  {
    CodeRoundTrip(s);
    CodeRoundTrip(t);
  }

  /** Every status code of the catalogue belongs to exactly one constructor. */
  lemma {:induction false} CatalogueIsExact(c: int)
    requires IsCatalogueCode(c)
    ensures exists s :: Code(s) == c
    ensures forall s, t :: Code(s) == c && Code(t) == c ==> s == t
  {
    FromCodeInCatalogue(c);
    FromCodeRoundTrip(c);
    assert Code(FromCode(c).value) == c;
    forall s, t | Code(s) == c && Code(t) == c ensures s == t {
      CodeInjective(s, t);
    }
  }

  // Redirects

  type RedirectStatus = s: int | s == 301 || s == 302 || s == 303 || s == 307 || s == 308
    witness 301

  function RedirectName(status: RedirectStatus): string {
    if status == 301 then "Moved permanently"
    else if status == 302 then "Found"
    else if status == 303 then "See other"
    else if status == 307 then "Temporary redirect"
    else "Permanent redirect"
  }

  const RedirectSeparator := ". Redirecting to "

  /** `redirect(status, location)`: the given status, a `location` header (section 10.2.2
      of RFC 9110) and a human-readable body naming the redirect and its target. */
  function Redirect(status: RedirectStatus, location: string): (r: Response)
    ensures r.status == status && IsCatalogueCode(r.status)
    ensures r.headers == Some(map["location" := location])
    ensures r.body.Str? && ParseRedirectBody(r.body.s) == Some((status, location))
  {
    RedirectBodyRoundTrip(status, location);
    Response(status, Str(RedirectName(status) + RedirectSeparator + location), Some(map["location" := location]))
  }

  /** The redirect statuses are those of the catalogue's redirect constructors. */
  lemma RedirectStatusesInCatalogue(status: RedirectStatus)
    ensures FromCode(status) == Some(
      if status == 301 then MovedPermanently
      else if status == 302 then Found
      else if status == 303 then SeeOther
      else if status == 307 then TemporaryRedirect
      else PermanentRedirect)
  {
  }

  /** Reads the status and the location back out of a redirect body. */
  function ParseRedirectBody(body: string): Option<(RedirectStatus, string)> {
    if HasPrefix(body, RedirectName(301) + RedirectSeparator) then Some((301, body[|RedirectName(301) + RedirectSeparator|..]))
    else if HasPrefix(body, RedirectName(302) + RedirectSeparator) then Some((302, body[|RedirectName(302) + RedirectSeparator|..]))
    else if HasPrefix(body, RedirectName(303) + RedirectSeparator) then Some((303, body[|RedirectName(303) + RedirectSeparator|..]))
    else if HasPrefix(body, RedirectName(307) + RedirectSeparator) then Some((307, body[|RedirectName(307) + RedirectSeparator|..]))
    else if HasPrefix(body, RedirectName(308) + RedirectSeparator) then Some((308, body[|RedirectName(308) + RedirectSeparator|..]))
    else None
  }

  predicate HasPrefix(s: string, prefix: string) {
    |prefix| <= |s| && s[..|prefix|] == prefix
  }

  /** A body whose first letter differs from a redirect's name does not start with it. */
  lemma OtherRedirectName(body: string, other: RedirectStatus)
    requires |body| > 0 && body[0] != RedirectName(other)[0]
    ensures !HasPrefix(body, RedirectName(other) + RedirectSeparator)
  {
  }

  /** The body alone determines the redirect: distinct names never prefix one another, so
      the status and the location are recovered from it. */
  lemma {:induction false} RedirectBodyRoundTrip(status: RedirectStatus, location: string)
    ensures ParseRedirectBody(RedirectName(status) + RedirectSeparator + location) == Some((status, location))
  {
    var body := RedirectName(status) + RedirectSeparator + location;
    var prefix := RedirectName(status) + RedirectSeparator;
    assert body == prefix + location;
    assert body[..|prefix|] == prefix;
    assert body[|prefix|..] == location;
    // the names start with pairwise distinct letters
    assert body[0] == RedirectName(status)[0];
    if status != 301 { OtherRedirectName(body, 301); }
    if status != 302 { OtherRedirectName(body, 302); }
    if status != 303 { OtherRedirectName(body, 303); }
    if status != 307 { OtherRedirectName(body, 307); }
  }

  // Streaming bodies

  /** `streamingBody(callback)`: a marker object wrapping the callback that will write the
      body to the output stream. */
  function StreamingBody(callback: nat): Value {
    Obj(map["_kind" := Str("StreamingBody"), "callback" := Fn(callback)])
  }

  /** `body && body._kind === 'StreamingBody' && body.callback`, read as a condition. */
  predicate IsStreamingBody(body: Value) {
    Truthy(body) && Prop(body, "_kind") == Str("StreamingBody") && Truthy(Prop(body, "callback"))
  }

  /** The marker is recognised, and nothing falsy or of another kind is. */
  lemma StreamingBodyRecognised(callback: nat, body: Value)
    ensures IsStreamingBody(StreamingBody(callback))
    ensures !Truthy(body) ==> !IsStreamingBody(body)
    ensures Prop(body, "_kind") != Str("StreamingBody") ==> !IsStreamingBody(body)
    ensures IsStreamingBody(body) ==> body.Obj? && "_kind" in body.fields && "callback" in body.fields
  {
  }
}
