/** The first revision's request parsers: each decodes one input of the Koa context with a
    codec and maps the decode result to an error response or a one-key record. */
module LegacyParser {
  import opened Fp
  import opened Values
  import opened Parser
  import opened LegacyResponse
  import opened KoaContext

  /** `Parser.Parser`: a context to an error response or the parsed output. */
  type ContextParser = Record -> Either<Response, Record>

  /** `ErrorHandler`: the decode errors to a response. */
  type ErrorHandler = Errors -> Response

  /** `decoded.bimap(errorHandler, value => ({ [key]: value }))`. */
  function Bimap(decoded: Either<Errors, Value>, errorHandler: ErrorHandler, key: string): (r: Either<Response, Record>)
    ensures decoded.Left? <==> r.Left?
    ensures decoded.Left? ==> r.left == errorHandler(decoded.left)
    ensures decoded.Right? ==> r.right.Keys == {key} && r.right[key] == decoded.right
  {
    match decoded
    case Left(errors) => Left(errorHandler(errors))
    case Right(value) => Right(map[key := value])
  }

  function BodyP(codec: Codec, errorHandler: ErrorHandler): ContextParser {
    ctx => Bimap(codec(RequestField(ctx, "body")), errorHandler, "body")
  }

  function Body(codec: Codec): ContextParser {
    BodyP(codec, _ => BadRequest(Str("invalid body")))
  }

  function RouteParamsP(codec: Codec, errorHandler: ErrorHandler): ContextParser {
    ctx => Bimap(codec(Params(ctx)), errorHandler, "routeParams")
  }

  function RouteParams(codec: Codec): ContextParser {
    RouteParamsP(codec, _ => NotFound(Undefined))
  }

  function QueryP(codec: Codec, errorHandler: ErrorHandler): ContextParser {
    ctx => Bimap(codec(RequestField(ctx, "query")), errorHandler, "query")
  }

  function Query(codec: Codec): ContextParser {
    QueryP(codec, _ => BadRequest(Str("Invalid query")))
  }

  /** The `P` variants decode `ctx.request.body`, `ctx.params` and `ctx.request.query`
      respectively; a failure is the error handler's response to the errors, a success
      the decoded value alone under the parser's key. */
  lemma ParsersDecodeTheirInputs(codec: Codec, errorHandler: ErrorHandler, ctx: Record)
    ensures var d := codec(RequestField(ctx, "body")); var r := BodyP(codec, errorHandler)(ctx);
      && (d.Left? ==> r == Left(errorHandler(d.left)))
      && (d.Right? ==> r == Right(map["body" := d.right]))
    ensures var d := codec(Params(ctx)); var r := RouteParamsP(codec, errorHandler)(ctx);
      && (d.Left? ==> r == Left(errorHandler(d.left)))
      && (d.Right? ==> r == Right(map["routeParams" := d.right]))
    ensures var d := codec(RequestField(ctx, "query")); var r := QueryP(codec, errorHandler)(ctx);
      && (d.Left? ==> r == Left(errorHandler(d.left)))
      && (d.Right? ==> r == Right(map["query" := d.right]))
  {
  }

  /** The default parsers fail exactly when the decode fails, and then with fixed
      responses whatever the errors: 400 `invalid body`, 404 with an undefined body, and
      400 `Invalid query`. */
  lemma DefaultErrorResponses(codec: Codec, ctx: Record)
    ensures Body(codec)(ctx).Left? <==> codec(RequestField(ctx, "body")).Left?
    ensures Body(codec)(ctx).Left? ==> Body(codec)(ctx).left == Response(400, Str("invalid body"))
    ensures RouteParams(codec)(ctx).Left? <==> codec(Params(ctx)).Left?
    ensures RouteParams(codec)(ctx).Left? ==> RouteParams(codec)(ctx).left == Response(404, Undefined)
    ensures Query(codec)(ctx).Left? <==> codec(RequestField(ctx, "query")).Left?
    ensures Query(codec)(ctx).Left? ==> Query(codec)(ctx).left == Response(400, Str("Invalid query"))
  {
  }
}
