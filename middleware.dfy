/** What a middleware function returns, as the engine inspects it: a plain object whose own
    properties `value`, `response` and `finalizer` decide whether the chain continues. */
module Middleware {
  import opened Fp
  import opened Values
  import opened Responses

  /** A finalizer registered by a middleware. It is known by an identity; calling it either
      returns or throws `failure`. */
  datatype Finalizer = Finalizer(id: nat, failure: Option<Value>)

  /** An own property of an object: missing, or present with a value (possibly `undefined`). */
  datatype Own = Absent | Present(v: Value)

  /** Reading an own property: a missing one reads as `undefined`. */
  function Read(p: Own): (r: Value)
    ensures p.Absent? ==> r == Undefined
    ensures p.Present? ==> r == p.v
  {
    match p
    case Absent => Undefined
    case Present(v) => v
  }

  /** A middleware output object. `response` is either missing or holds a response;
      `finalizer` is `None` when it is missing or `undefined`. */
  datatype Output = Output(value: Own, response: Option<Response>, finalizer: Option<Finalizer>)

  /** Calling a middleware either returns an output or throws. */
  datatype Invocation = Returned(output: Output) | Threw(error: Value)

  /** A middleware function, called with the request accumulated so far. */
  type MiddlewareFn = Record -> Invocation

  /** `next(value, finalizer)`: continue, contributing `value` and maybe a finalizer. */
  function Next(value: Value, finalizer: Option<Finalizer> := None): (r: Output)
    ensures !IsMiddlewareResponse(r)
    ensures Read(r.value) == value && r.finalizer == finalizer
  {
    Output(Present(value), None, finalizer)
  }

  /** `stop(response)`: end the chain with `response`. */
  function Stop(response: Response): (r: Output)
    ensures IsMiddlewareResponse(r) && r.response == Some(response)
    ensures r.finalizer.None?
  {
    Output(Absent, Some(response), None)
  }

  /** An output stops the chain when it has an own `response` and no own `value`. */
  predicate IsMiddlewareResponse(o: Output) {
    o.response.Some? && o.value.Absent?
  }
}
