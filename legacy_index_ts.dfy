/** The second revision, in TypeScript: a route handler built from optional codecs for the
    route parameters, the query and the body, decoded in that order with the first failure
    thrown through `ctx.throw`, and `run`, which copies the response onto Koa's. Its
    response constructors are those of the first revision's response module. */
module KoaRoutesTs {
  import opened Fp
  import opened Values
  import opened Parser
  import opened LegacyResponse
  import opened KoaContext

  /** `RequestCodecs`: each codec may be missing. */
  datatype RequestCodecs = RequestCodecs(params: Option<Codec>, query: Option<Codec>, body: Option<Codec>)

  /** What the handler, and so the route, does: answers with a response, or throws. */
  datatype Reply = Answered(response: Response) | Raised(error: HttpError)

  /** `codec ? codec.decode(input).getOrElseL(() => ctx.throw(...)) : undefined`. */
  function DecodeField(codec: Option<Codec>, input: Value, error: HttpError): (r: Either<HttpError, Value>)
    ensures codec.None? ==> r == Right(Undefined)
    ensures codec.Some? && codec.value(input).Left? ==> r == Left(error)
    ensures codec.Some? && codec.value(input).Right? ==> r == Right(codec.value(input).right)
  {
    match codec
    case None => Right(Undefined)
    case Some(c) =>
      match c(input)
      case Left(_) => Left(error)
      case Right(v) => Right(v)
  }

  const ParamsError := HttpError(404, None)
  const QueryError := HttpError(400, Some("Invalid query"))
  const BodyError := HttpError(400, Some("Invalid body"))

  /** `{ params, query, body, ctx }`. */
  function RequestOf(params: Value, query: Value, body: Value, ctx: Record): Record {
    map["params" := params, "query" := query, "body" := body, "ctx" := Obj(ctx)]
  }

  /** `routeHandler(codecs, handler)`. */
  function RouteHandler(codecs: RequestCodecs, handler: Record -> Reply): Record -> Reply {
    ctx => Handle(codecs, handler, ctx)
  }

  /** The route handler's work on one context. */
  function Handle(codecs: RequestCodecs, handler: Record -> Reply, ctx: Record): Reply {
    match DecodeField(codecs.params, Params(ctx), ParamsError)
    case Left(e) => Raised(e)
    case Right(params) =>
      match DecodeField(codecs.query, RequestField(ctx, "query"), QueryError)
      case Left(e) => Raised(e)
      case Right(query) =>
        match DecodeField(codecs.body, RequestField(ctx, "body"), BodyError)
        case Left(e) => Raised(e)
        case Right(body) => handler(RequestOf(params, query, body, ctx))
  }

  /** `run(handler)(ctx)`: on an answer, its status and body are written onto
      `ctx.response`; a throw leaves it as it was and propagates. */
  method Run(routeHandler: Record -> Reply, ctx: Record, response: KoaResponse) returns (raised: Option<HttpError>)
    modifies response
    ensures routeHandler(ctx).Answered? ==>
      && raised.None?
      && response.status == routeHandler(ctx).response.status
      && response.body == routeHandler(ctx).response.body
    ensures routeHandler(ctx).Raised? ==> raised == Some(routeHandler(ctx).error) && unchanged(response)
  {
    var reply := routeHandler(ctx);
    match reply
    case Raised(e) =>
      raised := Some(e);
    case Answered(r) =>
      response.status := r.status;
      response.body := r.body;
      raised := None;
  }

  /** A present codec whose decode of `input` fails. */
  predicate Rejects(codec: Option<Codec>, input: Value) {
    codec.Some? && codec.value(input).Left?
  }

  /** The field a present codec decodes to; `undefined` when the codec is missing. */
  function Decoded(codec: Option<Codec>, input: Value): Value
    requires !Rejects(codec, input)
  {
    if codec.None? then Undefined else codec.value(input).right
  }

  /** The inputs are checked in the order route parameters, query, body, and the first
      rejection decides the error: 404, then 400 `Invalid query`, then 400 `Invalid body`.
      A missing codec never rejects and leaves its field `undefined`. When nothing is
      rejected the handler gets `{ params, query, body, ctx }` and its reply is the route's. */
  lemma FirstFailureWins(codecs: RequestCodecs, handler: Record -> Reply, ctx: Record)
    ensures var params, query, body := Params(ctx), RequestField(ctx, "query"), RequestField(ctx, "body");
      var reply := RouteHandler(codecs, handler)(ctx);
      && (Rejects(codecs.params, params) ==> reply == Raised(HttpError(404, None)))
      && (!Rejects(codecs.params, params) && Rejects(codecs.query, query) ==>
            reply == Raised(HttpError(400, Some("Invalid query"))))
      && (!Rejects(codecs.params, params) && !Rejects(codecs.query, query) && Rejects(codecs.body, body) ==>
            reply == Raised(HttpError(400, Some("Invalid body"))))
      && (!Rejects(codecs.params, params) && !Rejects(codecs.query, query) && !Rejects(codecs.body, body) ==>
            reply == handler(map["params" := Decoded(codecs.params, params),
                                 "query" := Decoded(codecs.query, query),
                                 "body" := Decoded(codecs.body, body),
                                 "ctx" := Obj(ctx)]))
  {
  }

  /** The route throws only through a rejecting codec, so with no codecs the handler
      always runs, on `undefined` fields. */
  lemma NoCodecsAlwaysHandled(handler: Record -> Reply, ctx: Record)
    ensures RouteHandler(RequestCodecs(None, None, None), handler)(ctx)
         == handler(map["params" := Undefined, "query" := Undefined, "body" := Undefined, "ctx" := Obj(ctx)])
  {
  }

  /** The response constructors of this revision: 200, 201, 204 with an `undefined` body,
      400 and 404, the other bodies passed through. */
  lemma ConstructorStatuses(body: Value)
    ensures Ok(body) == Response(200, body) && Created(body) == Response(201, body)
    ensures NoContent() == Response(204, Undefined)
    ensures BadRequest(body) == Response(400, body) && NotFound(body) == Response(404, body)
  {
  }
}
