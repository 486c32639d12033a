/** Request parsers: middleware that decode one input of the request with a codec and
    either stop with an error response or contribute the decoded value under a fixed key. */
module Parser {
  import opened Fp
  import opened Values
  import opened Responses
  import opened Middleware
  import opened Engine

  /** The codec library's validation errors, known only as values. */
  type Errors = seq<Value>

  /** `codec.decode`: the decoded value, or the errors. */
  type Codec = Value -> Either<Errors, Value>

  /** `PathReporter.report`: one message per error. */
  type Reporter = Errors -> seq<string>

  /** Reads the input a parser decodes out of the request. */
  type GetInput = Record -> Value

  /** `genericP(input, key, cloneResult)(codec, errorHandler)`: a middleware. */
  function GenericP(input: GetInput, key: string, cloneResult: bool, codec: Codec,
                    errorHandler: Errors -> Response): MiddlewareFn {
    req => Returned(Decide(codec(input(req)), key, cloneResult, errorHandler))
  }

  /** The output for one decode result. */
  function Decide(decoded: Either<Errors, Value>, key: string, cloneResult: bool,
                  errorHandler: Errors -> Response): (o: Output)
    ensures decoded.Left? ==> o == Stop(errorHandler(decoded.left))
    ensures decoded.Right? ==>
      && !IsMiddlewareResponse(o)
      && o.finalizer.None?
      && Read(o.value) == Obj(map[key := if cloneResult then ShallowClone(decoded.right) else decoded.right])
  {
    match decoded
    case Left(errors) => Stop(errorHandler(errors))
    case Right(result) => Next(Obj(map[key := if cloneResult then ShallowClone(result) else result]))
  }

  /** An array interpolated into a template literal: its elements joined with commas. */
  function JoinComma(parts: seq<string>): string {
    if |parts| == 0 then ""
    else if |parts| == 1 then parts[0]
    else parts[0] + "," + JoinComma(parts[1..])
  }

  /** The default error handler: `badRequest(`Invalid ${key}: ${report(errors)}`)`. */
  function DefaultErrorHandler(key: string, report: Reporter): Errors -> Response {
    errors => Make(BadRequest, Str("Invalid " + key + ": " + JoinComma(report(errors))))
  }

  /** `generic(input, key, cloneResult)(codec)`. */
  function Generic(input: GetInput, key: string, cloneResult: bool, codec: Codec, report: Reporter): MiddlewareFn {
    GenericP(input, key, cloneResult, codec, DefaultErrorHandler(key, report))
  }

  function BodyP(getBody: GetInput, codec: Codec, errorHandler: Errors -> Response): MiddlewareFn {
    GenericP(getBody, "body", false, codec, errorHandler)
  }

  function Body(getBody: GetInput, codec: Codec, report: Reporter): MiddlewareFn {
    Generic(getBody, "body", false, codec, report)
  }

  function QueryP(getQuery: GetInput, codec: Codec, errorHandler: Errors -> Response): MiddlewareFn {
    GenericP(getQuery, "query", false, codec, errorHandler)
  }

  function Query(getQuery: GetInput, codec: Codec, report: Reporter): MiddlewareFn {
    Generic(getQuery, "query", false, codec, report)
  }

  function HeadersP(getHeaders: GetInput, cloneResult: bool, codec: Codec, errorHandler: Errors -> Response): MiddlewareFn {
    GenericP(getHeaders, "headers", cloneResult, codec, errorHandler)
  }

  function Headers(getHeaders: GetInput, cloneResult: bool, codec: Codec, report: Reporter): MiddlewareFn {
    Generic(getHeaders, "headers", cloneResult, codec, report)
  }

  function CookiesP(getCookies: GetInput, codec: Codec, errorHandler: Errors -> Response): MiddlewareFn {
    GenericP(getCookies, "cookies", false, codec, errorHandler)
  }

  function Cookies(getCookies: GetInput, codec: Codec, report: Reporter): MiddlewareFn {
    Generic(getCookies, "cookies", false, codec, report)
  }

  /** A parser decodes exactly `input(req)`. A failure stops the chain with the error
      handler's response to the errors and nothing else; a success continues without a
      finalizer and contributes the one-key record `{[key]: result}`. */
  lemma GenericPDecides(input: GetInput, key: string, cloneResult: bool, codec: Codec,
                        errorHandler: Errors -> Response, req: Record)
    ensures var decoded := codec(input(req));
      var invocation := GenericP(input, key, cloneResult, codec, errorHandler)(req);
      && invocation.Returned?
      && (decoded.Left? ==>
            IsMiddlewareResponse(invocation.output) &&
            invocation.output == Stop(errorHandler(decoded.left)))
      && (decoded.Right? ==>
            !IsMiddlewareResponse(invocation.output) &&
            invocation.output.finalizer.None? &&
            Read(invocation.output.value) ==
              Obj(map[key := if cloneResult then ShallowClone(decoded.right) else decoded.right]))
  {
  }

  /** Cloning a decoded object yields an equal object; without cloning the decoded value
      itself is contributed. */
  lemma CloneKeepsObjects(decoded: Value, key: string, cloneResult: bool, errorHandler: Errors -> Response)
    requires decoded.Obj? || !cloneResult
    ensures Read(Decide(Right(decoded), key, cloneResult, errorHandler).value) == Obj(map[key := decoded])
  {
  }

  /** The default error response: status 400 and the body `Invalid <key>: ` followed by the
      reported errors joined with commas. */
  lemma DefaultErrorResponse(key: string, report: Reporter, errors: Errors)
    ensures var r := DefaultErrorHandler(key, report)(errors);
      && r.status == 400
      && r.headers.None?
      && r.body.Str?
      && HasPrefix(r.body.s, "Invalid " + key + ": ")
      && r.body.s[|"Invalid " + key + ": "|..] == JoinComma(report(errors))
  {
    var prefix := "Invalid " + key + ": ";
    var s := prefix + JoinComma(report(errors));
    assert s[..|prefix|] == prefix;
    assert s[|prefix|..] == JoinComma(report(errors));
  }

  /** A parser in a chain: on success the request afterwards holds the decoded value under
      the parser's key, every other key unchanged, and no finalizer is registered; on
      failure the chain stops with the error response after unwinding the finalizers
      registered so far. */
  lemma ParserInChain(input: GetInput, key: string, cloneResult: bool, codec: Codec,
                      errorHandler: Errors -> Response, request: Record,
                      finalizers: seq<Finalizer>, rest: seq<MiddlewareFn>, index: nat)
    ensures var parser := GenericP(input, key, cloneResult, codec, errorHandler);
      var decoded := codec(input(request));
      var run := Outcome(request, finalizers, [parser] + rest, index);
      && (decoded.Left? ==>
            run == Run(Stopped(errorHandler(decoded.left)), [Invoked(index, request)] + Drain(finalizers)))
      && (decoded.Right? ==>
            var contributed := if cloneResult then ShallowClone(decoded.right) else decoded.right;
            run == Prepend([Invoked(index, request)],
                           Outcome(request[key := contributed], finalizers, rest, index + 1)))
  {
    var parser := GenericP(input, key, cloneResult, codec, errorHandler);
    var decoded := codec(input(request));
    assert ([parser] + rest)[0] == parser && ([parser] + rest)[1..] == rest;
    if decoded.Right? {
      var contributed := if cloneResult then ShallowClone(decoded.right) else decoded.right;
      var o := Decide(decoded, key, cloneResult, errorHandler);
      assert Absorb(request, o) == Merge(request, map[key := contributed]);
      assert Merge(request, map[key := contributed]) == request[key := contributed];
    }
  }

  /** The instantiations use their fixed keys; only `headers` passes `cloneResult` on. */
  lemma InstantiationKeys(input: GetInput, cloneResult: bool, codec: Codec, report: Reporter, req: Record)
    requires codec(input(req)).Right?
    ensures Read(Body(input, codec, report)(req).output.value) == Obj(map["body" := codec(input(req)).right])
    ensures Read(Query(input, codec, report)(req).output.value) == Obj(map["query" := codec(input(req)).right])
    ensures Read(Cookies(input, codec, report)(req).output.value) == Obj(map["cookies" := codec(input(req)).right])
    ensures Read(Headers(input, cloneResult, codec, report)(req).output.value)
         == Obj(map["headers" := if cloneResult then ShallowClone(codec(input(req)).right) else codec(input(req)).right])
  {
  }
}
