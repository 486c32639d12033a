/** The parts of a Koa context the first revisions read and write: the route parameters and
    request fields they decode, `ctx.throw`, and the response object `run` assigns to. */
module KoaContext {
  import opened Fp
  import opened Values

  /** The error `ctx.throw(status[, message])` raises. */
  datatype HttpError = HttpError(status: int, message: Option<string>)

  /** `ctx.params`. */
  function Params(ctx: Record): (r: Value)
    ensures "params" in ctx ==> r == ctx["params"]
    ensures "params" !in ctx ==> r == Undefined
  {
    Prop(Obj(ctx), "params")
  }

  /** `ctx.request.<field>`. */
  function RequestField(ctx: Record, field: string): (r: Value)
    ensures "request" in ctx && ctx["request"].Obj? && field in ctx["request"].fields ==>
      r == ctx["request"].fields[field]
    ensures !("request" in ctx && ctx["request"].Obj? && field in ctx["request"].fields) ==> r == Undefined
  {
    Prop(Prop(Obj(ctx), "request"), field)
  }

  /** `ctx.response`: the two fields `run` assigns. */
  class KoaResponse {
    var status: int
    var body: Value

    constructor(status: int, body: Value)
      ensures this.status == status && this.body == body
    {
      this.status := status;
      this.body := body;
    }
  }
}
