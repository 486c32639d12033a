/** The first revision, in plain JavaScript: responses, a route handler that spreads the
    outputs of its parsers into one request and adds the context last, three decoders that
    throw through `ctx.throw`, and `run`, which copies the response onto Koa's. */
module KoaRoutesJs {
  import opened Fp
  import opened Values
  import opened Middleware
  import opened Parser
  import opened KoaContext

  /** `{ status, body }` as built here: `noContent()` has no `body` property at all. */
  datatype JsResponse = JsResponse(status: int, body: Own)

  function Ok(body: Value): (r: JsResponse)
    ensures r.status == 200 && Read(r.body) == body
  {
    JsResponse(200, Present(body))
  }

  function Created(body: Value): (r: JsResponse)
    ensures r.status == 201 && Read(r.body) == body
  {
    JsResponse(201, Present(body))
  }

  function NoContent(): (r: JsResponse)
    ensures r.status == 204 && r.body.Absent?
  {
    JsResponse(204, Absent)
  }

  function BadRequest(body: Value): (r: JsResponse)
    ensures r.status == 400 && Read(r.body) == body
  {
    JsResponse(400, Present(body))
  }

  function NotFound(body: Value): (r: JsResponse)
    ensures r.status == 404 && Read(r.body) == body
  {
    JsResponse(404, Present(body))
  }

  /** The constructors use fixed, distinct statuses; all but `noContent` carry the body
      they are given, and `noContent`'s missing body reads as `undefined`. */
  lemma ConstructorsJs(body: Value)
    ensures Ok(body) == JsResponse(200, Present(body)) && Created(body) == JsResponse(201, Present(body))
    ensures BadRequest(body) == JsResponse(400, Present(body)) && NotFound(body) == JsResponse(404, Present(body))
    ensures NoContent() == JsResponse(204, Absent) && Read(NoContent().body) == Undefined
  {
  }

  /** Calling a parser: it returns the object to spread into the request, or throws. */
  datatype Parsed = Parsed(fields: Record) | Thrown(error: HttpError)

  type JsParser = Record -> Parsed

  /** What the wrapped handler does: answers with a response, or throws. */
  datatype Reply = Answered(response: JsResponse) | Raised(error: HttpError)

  /** `args.reduce((acc, parser) => ({ ...acc, ...parser(ctx) }), acc)`: the parsers are
      called in order and the first one to throw ends the fold. */
  function Reduce(acc: Record, parsers: seq<JsParser>, ctx: Record): Parsed
    decreases |parsers|
  {
    if |parsers| == 0 then Parsed(acc)
    else
      match parsers[0](ctx)
      case Thrown(e) => Thrown(e)
      case Parsed(fields) => Reduce(Merge(acc, fields), parsers[1..], ctx)
  }

  /** `parseRequest(ctx)`: the parsers' outputs spread over `{}`, then `ctx`. */
  function ParseRequest(parsers: seq<JsParser>, ctx: Record): Parsed {
    match Reduce(map[], parsers, ctx)
    case Thrown(e) => Thrown(e)
    case Parsed(fields) => Parsed(Merge(fields, map["ctx" := Obj(ctx)]))
  }

  /** `routeHandler(...parsers)(handler)`. */
  function RouteHandler(parsers: seq<JsParser>, handler: Record -> Reply): Record -> Reply {
    ctx => match ParseRequest(parsers, ctx)
           case Thrown(e) => Raised(e)
           case Parsed(request) => handler(request)
  }

  /** `codec.decode(input).map(v => ({ [key]: v })).getOrElseL(() => ctx.throw(...))`. */
  function DecodeOrThrow(decoded: Either<Errors, Value>, key: string, error: HttpError): (r: Parsed)
    ensures decoded.Left? <==> r.Thrown?
    ensures decoded.Left? ==> r.error == error
    ensures decoded.Right? ==> r.fields == map[key := decoded.right]
  {
    match decoded
    case Left(_) => Thrown(error)
    case Right(v) => Parsed(map[key := v])
  }

  function RouteParams(codec: Codec): JsParser {
    ctx => DecodeOrThrow(codec(Params(ctx)), "routeParams", HttpError(404, None))
  }

  function Query(codec: Codec): JsParser {
    ctx => DecodeOrThrow(codec(RequestField(ctx, "query")), "query", HttpError(400, Some("Invalid query")))
  }

  function Body(codec: Codec): JsParser {
    ctx => DecodeOrThrow(codec(RequestField(ctx, "body")), "body", HttpError(400, Some("Invalid body")))
  }

  /** `run(routeHandler)(ctx)`: on an answer, the response's status and body (`undefined`
      when it has none) are written onto `ctx.response`; a throw leaves it as it was and
      propagates. */
  method Run(routeHandler: Record -> Reply, ctx: Record, response: KoaResponse) returns (raised: Option<HttpError>)
    modifies response
    ensures routeHandler(ctx).Answered? ==>
      && raised.None?
      && response.status == routeHandler(ctx).response.status
      && response.body == Read(routeHandler(ctx).response.body)
    ensures routeHandler(ctx).Raised? ==> raised == Some(routeHandler(ctx).error) && unchanged(response)
  {
    var reply := routeHandler(ctx);
    match reply
    case Raised(e) =>
      raised := Some(e);
    case Answered(r) =>
      response.status := r.status;
      response.body := Read(r.body);
      raised := None;
  }

  // The fold, pointwise

  /** The first parser to throw decides the error; the ones after it are not called. */
  lemma {:induction false} ReduceThrows(acc: Record, parsers: seq<JsParser>, ctx: Record, i: nat)
    requires i < |parsers| && parsers[i](ctx).Thrown?
    requires forall j :: 0 <= j < i ==> parsers[j](ctx).Parsed?
    ensures Reduce(acc, parsers, ctx) == Thrown(parsers[i](ctx).error)
    decreases i
  {
    if i > 0 {
      ReduceThrows(Merge(acc, parsers[0](ctx).fields), parsers[1..], ctx, i - 1);
    }
  }

  lemma {:induction false} ReduceKeys(acc: Record, parsers: seq<JsParser>, ctx: Record)
    requires forall j :: 0 <= j < |parsers| ==> parsers[j](ctx).Parsed?
    ensures Reduce(acc, parsers, ctx).Parsed?
    ensures forall k :: k in Reduce(acc, parsers, ctx).fields <==>
      k in acc || exists j :: 0 <= j < |parsers| && k in parsers[j](ctx).fields
    decreases |parsers|
  {
    if |parsers| > 0 {
      var rest := parsers[1..];
      ReduceKeys(Merge(acc, parsers[0](ctx).fields), rest, ctx);
      assert forall j :: 0 <= j < |rest| ==> rest[j] == parsers[j + 1];
    }
  }

  lemma {:induction false} ReduceLastWins(acc: Record, parsers: seq<JsParser>, ctx: Record)
    requires forall j :: 0 <= j < |parsers| ==> parsers[j](ctx).Parsed?
    ensures Reduce(acc, parsers, ctx).Parsed?
    ensures var r := Reduce(acc, parsers, ctx).fields;
      forall k, j ::
        (0 <= j < |parsers| && k in parsers[j](ctx).fields &&
         forall l :: j < l < |parsers| ==> k !in parsers[l](ctx).fields) ==>
        k in r && r[k] == parsers[j](ctx).fields[k]
    ensures var r := Reduce(acc, parsers, ctx).fields;
      forall k :: k in acc && (forall j :: 0 <= j < |parsers| ==> k !in parsers[j](ctx).fields) ==>
        k in r && r[k] == acc[k]
    decreases |parsers|
  {
    if |parsers| > 0 {
      var rest := parsers[1..];
      ReduceLastWins(Merge(acc, parsers[0](ctx).fields), rest, ctx);
      assert forall j :: 0 <= j < |rest| ==> rest[j] == parsers[j + 1];
    }
  }

  /** When no parser throws, the fold holds every key of the start and of every output,
      a key taking its value from the last output that has it. */
  lemma ReduceCompletes(acc: Record, parsers: seq<JsParser>, ctx: Record)
    requires forall j :: 0 <= j < |parsers| ==> parsers[j](ctx).Parsed?
    ensures Reduce(acc, parsers, ctx).Parsed?
    ensures var r := Reduce(acc, parsers, ctx).fields;
      && (forall k :: k in r <==> k in acc || exists j :: 0 <= j < |parsers| && k in parsers[j](ctx).fields)
      && (forall k, j ::
            (0 <= j < |parsers| && k in parsers[j](ctx).fields &&
             forall l :: j < l < |parsers| ==> k !in parsers[l](ctx).fields) ==>
            k in r && r[k] == parsers[j](ctx).fields[k])
      && (forall k :: k in acc && (forall j :: 0 <= j < |parsers| ==> k !in parsers[j](ctx).fields) ==>
            k in r && r[k] == acc[k])
  {
    ReduceKeys(acc, parsers, ctx);
    ReduceLastWins(acc, parsers, ctx);
  }

  /** The first thrower at or before a throwing parser. */
  lemma {:induction false} FirstThrower(parsers: seq<JsParser>, ctx: Record, i: nat) returns (f: nat)
    requires i < |parsers| && parsers[i](ctx).Thrown?
    ensures f <= i && parsers[f](ctx).Thrown?
    ensures forall j :: 0 <= j < f ==> parsers[j](ctx).Parsed?
    decreases i
  {
    if exists j :: 0 <= j < i && parsers[j](ctx).Thrown? {
      var j :| 0 <= j < i && parsers[j](ctx).Thrown?;
      f := FirstThrower(parsers, ctx, j);
    } else {
      f := i;
    }
  }

  lemma ParseRequestThrows(parsers: seq<JsParser>, ctx: Record)
    ensures ParseRequest(parsers, ctx).Thrown? <==> exists i :: 0 <= i < |parsers| && parsers[i](ctx).Thrown?
    ensures forall i ::
      (0 <= i < |parsers| && parsers[i](ctx).Thrown? &&
       forall j :: 0 <= j < i ==> parsers[j](ctx).Parsed?) ==>
      ParseRequest(parsers, ctx) == Thrown(parsers[i](ctx).error)
  {
    forall i | 0 <= i < |parsers| && parsers[i](ctx).Thrown? && (forall j :: 0 <= j < i ==> parsers[j](ctx).Parsed?)
      ensures ParseRequest(parsers, ctx) == Thrown(parsers[i](ctx).error)
    {
      ReduceThrows(map[], parsers, ctx, i);
    }
    if exists i :: 0 <= i < |parsers| && parsers[i](ctx).Thrown? {
      var i :| 0 <= i < |parsers| && parsers[i](ctx).Thrown?;
      var f := FirstThrower(parsers, ctx, i);
      ReduceThrows(map[], parsers, ctx, f);
    } else {
      ReduceKeys(map[], parsers, ctx);
    }
  }

  lemma ParseRequestFields(parsers: seq<JsParser>, ctx: Record)
    requires forall j :: 0 <= j < |parsers| ==> parsers[j](ctx).Parsed?
    ensures ParseRequest(parsers, ctx).Parsed?
    ensures var request := ParseRequest(parsers, ctx).fields;
      && "ctx" in request && request["ctx"] == Obj(ctx)
      && (forall k :: k in request <==> k == "ctx" || exists j :: 0 <= j < |parsers| && k in parsers[j](ctx).fields)
      && (forall k, j ::
            (k != "ctx" && 0 <= j < |parsers| && k in parsers[j](ctx).fields &&
             forall l :: j < l < |parsers| ==> k !in parsers[l](ctx).fields) ==>
            request[k] == parsers[j](ctx).fields[k])
  {
    ReduceCompletes(map[], parsers, ctx);
  }

  /** `parseRequest` throws exactly when some parser throws, and then with the first
      thrower's error. Otherwise the request holds every key of every output, each from
      the last output that has it, and `ctx` is the context whatever the parsers returned. */
  lemma ParseRequestCharacterised(parsers: seq<JsParser>, ctx: Record)
    ensures ParseRequest(parsers, ctx).Thrown? <==> exists i :: 0 <= i < |parsers| && parsers[i](ctx).Thrown?
    ensures forall i ::
      (0 <= i < |parsers| && parsers[i](ctx).Thrown? &&
       forall j :: 0 <= j < i ==> parsers[j](ctx).Parsed?) ==>
      ParseRequest(parsers, ctx) == Thrown(parsers[i](ctx).error)
    ensures ParseRequest(parsers, ctx).Parsed? ==>
      var request := ParseRequest(parsers, ctx).fields;
      && "ctx" in request && request["ctx"] == Obj(ctx)
      && (forall k :: k in request <==> k == "ctx" || exists j :: 0 <= j < |parsers| && k in parsers[j](ctx).fields)
      && (forall k, j ::
            (k != "ctx" && 0 <= j < |parsers| && k in parsers[j](ctx).fields &&
             forall l :: j < l < |parsers| ==> k !in parsers[l](ctx).fields) ==>
            request[k] == parsers[j](ctx).fields[k])
  {
    ParseRequestThrows(parsers, ctx);
    if ParseRequest(parsers, ctx).Parsed? {
      ParseRequestFields(parsers, ctx);
    }
  }

  /** The route throws the parse error, or answers with whatever the handler answers for
      the parsed request. */
  lemma RouteHandlerPassesThrough(parsers: seq<JsParser>, handler: Record -> Reply, ctx: Record)
    ensures ParseRequest(parsers, ctx).Thrown? ==>
      RouteHandler(parsers, handler)(ctx) == Raised(ParseRequest(parsers, ctx).error)
    ensures ParseRequest(parsers, ctx).Parsed? ==>
      RouteHandler(parsers, handler)(ctx) == handler(ParseRequest(parsers, ctx).fields)
  {
  }

  /** With no parsers the handler gets exactly `{ ctx }`, and whatever it answers is the
      route's answer. */
  lemma NoParsers(handler: Record -> Reply, ctx: Record)
    ensures RouteHandler([], handler)(ctx) == handler(map["ctx" := Obj(ctx)])
  {
    assert Merge(map[], map["ctx" := Obj(ctx)]) == map["ctx" := Obj(ctx)];
    assert ParseRequest([], ctx) == Parsed(map["ctx" := Obj(ctx)]);
  }

  /** The decoders fail exactly when the decode fails, with 404 for route parameters,
      400 `Invalid query` and 400 `Invalid body`; on success each contributes the decoded
      value under its own key. */
  lemma DecodersThrowFixedErrors(codec: Codec, ctx: Record)
    ensures var d := codec(Params(ctx));
      && (d.Left? ==> RouteParams(codec)(ctx) == Thrown(HttpError(404, None)))
      && (d.Right? ==> RouteParams(codec)(ctx) == Parsed(map["routeParams" := d.right]))
    ensures var d := codec(RequestField(ctx, "query"));
      && (d.Left? ==> Query(codec)(ctx) == Thrown(HttpError(400, Some("Invalid query"))))
      && (d.Right? ==> Query(codec)(ctx) == Parsed(map["query" := d.right]))
    ensures var d := codec(RequestField(ctx, "body"));
      && (d.Left? ==> Body(codec)(ctx) == Thrown(HttpError(400, Some("Invalid body"))))
      && (d.Right? ==> Body(codec)(ctx) == Parsed(map["body" := d.right]))
  {
  }
}
