/** The middleware engine: running a route's middleware chain against a growing request,
    unwinding the finalizers the middleware registered, and the route handler that puts the
    URL parser, the chain and the request handler together. */
module Engine {
  import opened Fp
  import opened Values
  import opened Responses
  import opened Url
  import opened Middleware

  /** The observable steps of a request, in the order they happen. A finalizer that throws
      is logged and ignored (`FinalizerErrorIgnored`). */
  datatype Event =
    | Invoked(index: nat, request: Record)
    | FinalizerRan(id: nat)
    | FinalizerErrorIgnored(id: nat, error: Value)
    | HandlerInvoked(request: Record)

  /** How `runMiddleware` settles: `Left(response)` of a stopping middleware, `Right` of the
      final request together with the finalizers still to run, or a rethrown error. */
  datatype ChainResult =
    | Stopped(response: Response)
    | Completed(request: Record, finalizers: seq<Finalizer>)
    | Raised(error: Value)

  datatype Run = Run(result: ChainResult, trace: seq<Event>)

  // Finalizers

  /** The event of calling one finalizer. */
  function Effect(f: Finalizer): (e: Event)
    ensures e.FinalizerRan? <==> f.failure.None?
    ensures e.FinalizerRan? ==> e.id == f.id
    ensures e.FinalizerErrorIgnored? ==> e.id == f.id && e.error == f.failure.value
  {
    match f.failure
    case None => FinalizerRan(f.id)
    case Some(error) => FinalizerErrorIgnored(f.id, error)
  }

  /** Unwinding the finalizers: the one registered last runs first. */
  function Drain(finalizers: seq<Finalizer>): seq<Event> {
    if |finalizers| == 0 then []
    else [Effect(finalizers[|finalizers| - 1])] + Drain(finalizers[..|finalizers| - 1])
  }

  function Reversed<T>(s: seq<T>): (r: seq<T>)
    ensures |r| == |s|
    ensures forall i :: 0 <= i < |s| ==> r[i] == s[|s| - 1 - i]
  {
    seq(|s|, i requires 0 <= i < |s| => s[|s| - 1 - i])
  }

  /** Reversing is an involution, and the reversed copy holds the same elements with the
      same multiplicities. */
  lemma {:induction false} ReversedReverses<T>(s: seq<T>)
    ensures Reversed(Reversed(s)) == s
    ensures multiset(Reversed(s)) == multiset(s)
    decreases |s|
  {
    if |s| > 0 {
      var init, last := s[..|s| - 1], s[|s| - 1];
      ReversedReverses(init);
      assert Reversed(s) == [last] + Reversed(init);
      assert s == init + [last];
    }
  }

  /** Every finalizer runs exactly once, in reverse registration order; a throwing one is
      logged and the rest still run. */
  lemma {:induction false} DrainAt(finalizers: seq<Finalizer>)
    ensures |Drain(finalizers)| == |finalizers|
    ensures forall k :: 0 <= k < |finalizers| ==>
      Drain(finalizers)[k] == Effect(finalizers[|finalizers| - 1 - k])
    decreases |finalizers|
  {
    if |finalizers| > 0 {
      var init := finalizers[..|finalizers| - 1];
      DrainAt(init);
      forall k | 1 <= k < |finalizers|
        ensures Drain(finalizers)[k] == Effect(finalizers[|finalizers| - 1 - k])
      {
        assert Drain(finalizers)[k] == Drain(init)[k - 1];
      }
    }
  }

  /** Finalizers registered later are unwound earlier. */
  lemma {:induction false} DrainAppend(a: seq<Finalizer>, b: seq<Finalizer>)
    ensures Drain(a + b) == Drain(b) + Drain(a)
    decreases |b|
  {
    if |b| == 0 {
      assert a + b == a;
    } else {
      assert (a + b)[..|a + b| - 1] == a + b[..|b| - 1];
      DrainAppend(a, b[..|b| - 1]);
    }
  }

  /** `runFinalizers`: walk a reversed copy of the list, calling each finalizer and
      logging and ignoring what it throws. It never throws itself. */
  method RunFinalizers(finalizers: seq<Finalizer>, trace: seq<Event>) returns (after: seq<Event>)
    ensures after == trace + Drain(finalizers)
  {
    DrainAt(finalizers);
    var pending := Reversed(finalizers);
    after := trace;
    for k := 0 to |pending|
      invariant after == trace + Drain(finalizers)[..k]
    {
      var finalizer := pending[k];
      match finalizer.failure {
        case None =>
          after := after + [FinalizerRan(finalizer.id)];
        case Some(error) =>
          after := after + [FinalizerErrorIgnored(finalizer.id, error)];
      }
      assert Drain(finalizers)[..k + 1] == Drain(finalizers)[..k] + [Drain(finalizers)[k]];
    }
    assert Drain(finalizers)[..|pending|] == Drain(finalizers);
  }

  // The chain, step by step

  /** `{...request, ...output.value}` when the value is not `undefined`. */
  function Absorb(request: Record, o: Output): (r: Record)
    ensures Read(o.value) == Undefined ==> r == request
    ensures Read(o.value) != Undefined ==>
      var added := ShallowClone(Read(o.value)).fields;
      && r.Keys == request.Keys + added.Keys
      && (forall k :: k in added ==> r[k] == added[k])
      && (forall k :: k in request && k !in added ==> r[k] == request[k])
    ensures Read(o.value).Obj? ==> r.Keys == request.Keys + Read(o.value).fields.Keys
  {
    if Read(o.value) != Undefined then Merge(request, ShallowClone(Read(o.value)).fields) else request
  }

  /** The finalizer list after a continuing output: its finalizer appended when defined. */
  function Register(finalizers: seq<Finalizer>, o: Output): seq<Finalizer> {
    if o.finalizer.Some? then finalizers + [o.finalizer.value] else finalizers
  }

  function Prepend(events: seq<Event>, run: Run): Run {
    Run(run.result, events + run.trace)
  }

  /** The chain from middleware `index` on, given the request and the finalizers so far:
      each middleware is called with the current request; a throw or a stop unwinds the
      finalizers registered so far and ends the chain. */
  function Outcome(request: Record, finalizers: seq<Finalizer>, chain: seq<MiddlewareFn>, index: nat): Run
    decreases |chain|
  {
    if |chain| == 0 then Run(Completed(request, finalizers), [])
    else
      var call := [Invoked(index, request)];
      match chain[0](request)
      case Threw(error) => Run(Raised(error), call + Drain(finalizers))
      case Returned(o) =>
        if IsMiddlewareResponse(o) then Run(Stopped(o.response.value), call + Drain(finalizers))
        else Prepend(call, Outcome(Absorb(request, o), Register(finalizers, o), chain[1..], index + 1))
  }

  /** One step of the chain from position `i`. */
  lemma OutcomeStep(request: Record, finalizers: seq<Finalizer>, chain: seq<MiddlewareFn>, i: nat)
    requires i < |chain|
    ensures chain[i](request).Threw? ==>
      Outcome(request, finalizers, chain[i..], i) == Run(Raised(chain[i](request).error), [Invoked(i, request)] + Drain(finalizers))
    ensures chain[i](request).Returned? && IsMiddlewareResponse(chain[i](request).output) ==>
      Outcome(request, finalizers, chain[i..], i) ==
        Run(Stopped(chain[i](request).output.response.value), [Invoked(i, request)] + Drain(finalizers))
    ensures chain[i](request).Returned? && !IsMiddlewareResponse(chain[i](request).output) ==>
      var o := chain[i](request).output;
      Outcome(request, finalizers, chain[i..], i) ==
        Prepend([Invoked(i, request)], Outcome(Absorb(request, o), Register(finalizers, o), chain[i + 1..], i + 1))
  {
    assert chain[i..][0] == chain[i] && chain[i..][1..] == chain[i + 1..];
  }

  lemma AppendAssociative<T>(a: seq<T>, b: seq<T>, c: seq<T>)
    ensures a + (b + c) == (a + b) + c
  {
  }

  lemma PrependTwice(a: seq<Event>, b: seq<Event>, run: Run)
    ensures Prepend(a, Prepend(b, run)) == Prepend(a + b, run)
  {
    AppendAssociative(a, b, run.trace);
  }

  /** `runMiddleware(requestBase, middleware)`, with the events it causes. */
  method RunMiddleware(requestBase: Record, middleware: seq<MiddlewareFn>) returns (result: ChainResult, trace: seq<Event>)
    ensures Run(result, trace) == Outcome(requestBase, [], middleware, 0)
  {
    var request := requestBase;
    var finalizers: seq<Finalizer> := [];
    trace := [];
    var i := 0;
    while i < |middleware|
      invariant 0 <= i <= |middleware|
      invariant Prepend(trace, Outcome(request, finalizers, middleware[i..], i)) == Outcome(requestBase, [], middleware, 0)
    {
      OutcomeStep(request, finalizers, middleware, i);
      var call := [Invoked(i, request)];
      var output;
      match middleware[i](request) {
        case Threw(error) =>
          PrependTwice(trace, call, Run(Raised(error), Drain(finalizers)));
          trace := RunFinalizers(finalizers, trace + call);
          return Raised(error), trace;
        case Returned(o) =>
          output := o;
      }
      if IsMiddlewareResponse(output) {
        PrependTwice(trace, call, Run(Stopped(output.response.value), Drain(finalizers)));
        trace := RunFinalizers(finalizers, trace + call);
        return Stopped(output.response.value), trace;
      }
      PrependTwice(trace, call, Outcome(Absorb(request, output), Register(finalizers, output), middleware[i + 1..], i + 1));
      trace := trace + call;
      if output.finalizer.Some? {
        finalizers := finalizers + [output.finalizer.value];
      }
      if Read(output.value) != Undefined {
        request := Merge(request, ShallowClone(Read(output.value)).fields);
      }
      i := i + 1;
    }
    result := Completed(request, finalizers);
  }

  // The chain, described by its steps

  datatype State = State(request: Record, finalizers: seq<Finalizer>)

  /** The request and the finalizers after the first `k` middleware, each called with the
      request accumulated before it. */
  function StateAt(base: Record, chain: seq<MiddlewareFn>, k: nat): State
    requires k <= |chain|
  {
    if k == 0 then State(base, [])
    else
      var s := StateAt(base, chain, k - 1);
      match chain[k - 1](s.request)
      case Returned(o) => State(Absorb(s.request, o), Register(s.finalizers, o))
      case Threw(_) => s
  }

  /** Middleware `k`, called with the request accumulated before it, continues the chain. */
  predicate ContinuesAt(base: Record, chain: seq<MiddlewareFn>, k: nat)
    requires k < |chain|
  {
    var invocation := chain[k](StateAt(base, chain, k).request);
    invocation.Returned? && !IsMiddlewareResponse(invocation.output)
  }

  /** The first middleware from `k` on that does not continue, or `|chain|`. */
  function HaltFrom(base: Record, chain: seq<MiddlewareFn>, k: nat): (h: nat)
    requires k <= |chain|
    ensures k <= h <= |chain|
    ensures forall j :: k <= j < h ==> ContinuesAt(base, chain, j)
    ensures h < |chain| ==> !ContinuesAt(base, chain, h)
    decreases |chain| - k
  {
    if k == |chain| || !ContinuesAt(base, chain, k) then k else HaltFrom(base, chain, k + 1)
  }

  function HaltIndex(base: Record, chain: seq<MiddlewareFn>): (h: nat)
    ensures h <= |chain|
    ensures forall j :: 0 <= j < h ==> ContinuesAt(base, chain, j)
    ensures h < |chain| ==> !ContinuesAt(base, chain, h)
  {
    HaltFrom(base, chain, 0)
  }

  /** The invocations of middleware `lo` up to `hi` (exclusive), each with the request accumulated before it. */
  function Invocations(base: Record, chain: seq<MiddlewareFn>, lo: nat, hi: nat): (r: seq<Event>)
    requires lo <= hi <= |chain|
    ensures |r| == hi - lo
    ensures forall i :: 0 <= i < |r| ==> r[i] == Invoked(lo + i, StateAt(base, chain, lo + i).request)
    decreases hi - lo
  {
    if lo == hi then [] else [Invoked(lo, StateAt(base, chain, lo).request)] + Invocations(base, chain, lo + 1, hi)
  }

  /** How the chain ends once it stops at `h` (or completes when `h == |chain|`). */
  function Ending(base: Record, chain: seq<MiddlewareFn>, h: nat): ChainResult
    requires h <= |chain|
  {
    var s := StateAt(base, chain, h);
    if h == |chain| then Completed(s.request, s.finalizers)
    else match chain[h](s.request)
      case Threw(error) => Raised(error)
      case Returned(o) => if o.response.Some? then Stopped(o.response.value) else Completed(s.request, s.finalizers)
  }

  /** How many middleware the chain calls: up to and including the halting one. */
  function Reached(base: Record, chain: seq<MiddlewareFn>): (n: nat)
    ensures HaltIndex(base, chain) <= n <= |chain|
  {
    var h := HaltIndex(base, chain);
    if h < |chain| then h + 1 else h
  }

  /** The finalizers unwound while the chain runs: those registered before the halting
      middleware, or none when the chain completes. */
  function Unwound(base: Record, chain: seq<MiddlewareFn>): seq<Event> {
    var h := HaltIndex(base, chain);
    if h < |chain| then Drain(StateAt(base, chain, h).finalizers) else []
  }

  /** What the chain does from middleware `k` on, in terms of the halting index. */
  function Expected(base: Record, chain: seq<MiddlewareFn>, k: nat): Run
    requires k <= HaltIndex(base, chain)
  {
    Run(Ending(base, chain, HaltIndex(base, chain)), Invocations(base, chain, k, Reached(base, chain)) + Unwound(base, chain))
  }

  /** Running the chain from middleware `k`, with the state accumulated before it, does what
      `Expected` says. */
  predicate RunsAsExpected(base: Record, chain: seq<MiddlewareFn>, k: nat)
    requires k <= HaltIndex(base, chain)
  {
    var s := StateAt(base, chain, k);
    Outcome(s.request, s.finalizers, chain[k..], k) == Expected(base, chain, k)
  }

  lemma OutcomeAtHalt(base: Record, chain: seq<MiddlewareFn>)
    ensures RunsAsExpected(base, chain, HaltIndex(base, chain))
  {
    var h := HaltIndex(base, chain);
    var s := StateAt(base, chain, h);
    if h < |chain| {
      OutcomeStep(s.request, s.finalizers, chain, h);
      assert Invocations(base, chain, h, h + 1) == [Invoked(h, s.request)];
    }
  }

  lemma OutcomeBeforeHalt(base: Record, chain: seq<MiddlewareFn>, k: nat)
    requires k < HaltIndex(base, chain)
    requires RunsAsExpected(base, chain, k + 1)
    ensures RunsAsExpected(base, chain, k)
  {
    var s := StateAt(base, chain, k);
    var t := StateAt(base, chain, k + 1);
    assert Outcome(s.request, s.finalizers, chain[k..], k)
        == Prepend([Invoked(k, s.request)], Outcome(t.request, t.finalizers, chain[k + 1..], k + 1)) by {
      assert ContinuesAt(base, chain, k);
      var o := chain[k](s.request).output;
      OutcomeStep(s.request, s.finalizers, chain, k);
      assert t == State(Absorb(s.request, o), Register(s.finalizers, o));
    }
    var end := Reached(base, chain);
    var drained := Unwound(base, chain);
    var rest := Invocations(base, chain, k + 1, end);
    assert Invocations(base, chain, k, end) == [Invoked(k, s.request)] + rest;
    AppendAssociative([Invoked(k, s.request)], rest, drained);
    assert Expected(base, chain, k + 1).trace == rest + drained;
    assert Expected(base, chain, k).trace == ([Invoked(k, s.request)] + rest) + drained;
  }

  /** Downward induction from `h`: a property of `h` that carries over from each `j + 1`
      to `j` holds for every `k <= h`. */
  lemma {:induction false} DownFrom(p: nat -> bool, h: nat, k: nat)
    requires k <= h
    requires p(h)
    requires forall j: nat :: j < h && p(j + 1) ==> p(j)
    ensures p(k)
    decreases h - k
  {
    if k < h {
      DownFrom(p, h, k + 1);
    }
  }

  /** The chain characterised: the middleware before the halting one `h` all continue and
      are called in list order, each with the request accumulated so far; the request grows
      by shallow merges and the finalizer list by the defined finalizers of those middleware.
      Middleware `h` stops or throws, nothing after it is called, and the finalizers
      registered before it are unwound; its own finalizer is never registered. When no
      middleware halts, the final request and finalizers are handed back and nothing is
      unwound yet. */
  lemma OutcomeCharacterised(base: Record, chain: seq<MiddlewareFn>)
    ensures var h := HaltIndex(base, chain);
      var s := StateAt(base, chain, h);
      var run := Outcome(base, [], chain, 0);
      && (h == |chain| ==> run == Run(Completed(s.request, s.finalizers), Invocations(base, chain, 0, h)))
      && (h < |chain| ==> run.trace == Invocations(base, chain, 0, h + 1) + Drain(s.finalizers))
      && (h < |chain| && chain[h](s.request).Threw? ==> run.result == Raised(chain[h](s.request).error))
      && (h < |chain| && chain[h](s.request).Returned? ==>
            IsMiddlewareResponse(chain[h](s.request).output) &&
            run.result == Stopped(chain[h](s.request).output.response.value))
  {
    assert Outcome(base, [], chain, 0) == Expected(base, chain, 0) by {
      var h := HaltIndex(base, chain);
      var p := (k: nat) => k <= h && RunsAsExpected(base, chain, k);
      OutcomeAtHalt(base, chain);
      forall j: nat | j < h && p(j + 1) ensures p(j) {
        OutcomeBeforeHalt(base, chain, j);
      }
      DownFrom(p, h, 0);
      assert chain[0..] == chain;
      assert StateAt(base, chain, 0) == State(base, []);
    }
  }

  // Composing chains

  /** Running further middleware after a chain run: nothing is added once the chain halted. */
  function Then(run: Run, rest: seq<MiddlewareFn>, index: nat): Run {
    match run.result
    case Completed(request, finalizers) => Prepend(run.trace, Outcome(request, finalizers, rest, index))
    case _ => run
  }

  /** Running `a + b` is running `a` and then, only if `a` completed, `b` with the request
      and finalizers `a` left behind. In particular, no middleware after a halting one runs. */
  lemma {:induction false} OutcomeAppend(request: Record, finalizers: seq<Finalizer>, a: seq<MiddlewareFn>, b: seq<MiddlewareFn>, index: nat)
    ensures Outcome(request, finalizers, a + b, index) == Then(Outcome(request, finalizers, a, index), b, index + |a|)
    decreases |a|
  {
    if |a| == 0 {
      assert a + b == b;
    } else {
      assert (a + b)[0] == a[0] && (a + b)[1..] == a[1..] + b;
      match a[0](request)
      case Threw(_) =>
      case Returned(o) =>
        if !IsMiddlewareResponse(o) {
          var request', finalizers' := Absorb(request, o), Register(finalizers, o);
          OutcomeAppend(request', finalizers', a[1..], b, index + 1);
          var inner := Outcome(request', finalizers', a[1..], index + 1);
          if inner.result.Completed? {
            PrependTwice([Invoked(index, request)], inner.trace,
              Outcome(inner.result.request, inner.result.finalizers, b, index + |a|));
          }
        }
    }
  }

  // The route

  /** What the request handler does: return a response, or throw. */
  datatype HandlerResult = Responded(response: Response) | Failed(error: Value)

  /** How a route handler settles: with a response, or by rejecting with an error. */
  datatype Handled = Answered(response: Response) | Rejected(error: Value)

  datatype RouteRun = RouteRun(result: Handled, trace: seq<Event>)

  /** `route(getRouteParams, pathParser, middleware)(handler)`. The route's `method` and
      `path` are the parser's `verb` and `pattern`. */
  datatype Route = Route(
    getRouteParams: Record -> Value,
    pathParser: PathParser,
    middleware: seq<MiddlewareFn>,
    handler: Record -> HandlerResult)

  function Settle(h: HandlerResult): Handled {
    match h
    case Responded(response) => Answered(response)
    case Failed(error) => Rejected(error)
  }

  /** The request the handler receives: the chain's request with `routeParams` set to the
      captures, overriding any key of that name. */
  function HandlerRequest(request: Record, captures: Record): (r: Record)
    ensures r.Keys == request.Keys + {"routeParams"}
    ensures r["routeParams"] == Obj(captures)
    ensures forall k :: k in request && k != "routeParams" ==> r[k] == request[k]
  {
    Merge(request, map["routeParams" := Obj(captures)])
  }

  /** The route handler: parse the captures (a failure answers at once), run the chain,
      then call the handler and unwind the finalizers whether or not it throws. */
  function RouteOutcome(route: Route, requestBase: Record): RouteRun {
    match route.pathParser.parse(route.getRouteParams(requestBase))
    case Left(response) => RouteRun(Answered(response), [])
    case Right(captures) =>
      var run := Outcome(requestBase, [], route.middleware, 0);
      match run.result
      case Stopped(response) => RouteRun(Answered(response), run.trace)
      case Raised(error) => RouteRun(Rejected(error), run.trace)
      case Completed(request, finalizers) =>
        var handlerRequest := HandlerRequest(request, captures);
        RouteRun(Settle(route.handler(handlerRequest)),
                 run.trace + [HandlerInvoked(handlerRequest)] + Drain(finalizers))
  }

  /** `routeHandler(requestBase)`. */
  method RouteHandler(route: Route, requestBase: Record) returns (result: Handled, trace: seq<Event>)
    ensures RouteRun(result, trace) == RouteOutcome(route, requestBase)
  {
    var routeParams := route.pathParser.parse(route.getRouteParams(requestBase));
    if routeParams.Left? {
      return Answered(routeParams.left), [];
    }
    var middlewareOutput;
    middlewareOutput, trace := RunMiddleware(requestBase, route.middleware);
    match middlewareOutput {
      case Stopped(response) =>
        return Answered(response), trace;
      case Raised(error) =>
        return Rejected(error), trace;
      case Completed(request, finalizers) =>
        var handlerRequest := HandlerRequest(request, routeParams.right);
        trace := trace + [HandlerInvoked(handlerRequest)];
        var response := route.handler(handlerRequest);
        trace := RunFinalizers(finalizers, trace);
        result := Settle(response);
    }
  }

  predicate IsFinalizerEvent(e: Event) {
    e.FinalizerRan? || e.FinalizerErrorIgnored?
  }

  /** The finalizer events of a trace, in order. */
  function FinalizerEvents(trace: seq<Event>): (r: seq<Event>)
    ensures forall i :: 0 <= i < |r| ==> IsFinalizerEvent(r[i])
  {
    if |trace| == 0 then []
    else if IsFinalizerEvent(trace[0]) then [trace[0]] + FinalizerEvents(trace[1..])
    else FinalizerEvents(trace[1..])
  }

  lemma {:induction false} FinalizerEventsAppend(a: seq<Event>, b: seq<Event>)
    ensures FinalizerEvents(a + b) == FinalizerEvents(a) + FinalizerEvents(b)
    decreases |a|
  {
    if |a| == 0 {
      assert a + b == b;
    } else {
      assert (a + b)[1..] == a[1..] + b;
      FinalizerEventsAppend(a[1..], b);
    }
  }

  lemma {:induction false} DrainIsFinalizerEvents(finalizers: seq<Finalizer>)
    ensures FinalizerEvents(Drain(finalizers)) == Drain(finalizers)
    decreases |finalizers|
  {
    if |finalizers| > 0 {
      DrainIsFinalizerEvents(finalizers[..|finalizers| - 1]);
    }
  }

  lemma {:induction false} InvocationsHaveNoFinalizerEvents(base: Record, chain: seq<MiddlewareFn>, lo: nat, hi: nat)
    requires lo <= hi <= |chain|
    ensures FinalizerEvents(Invocations(base, chain, lo, hi)) == []
    decreases hi - lo
  {
    if lo < hi {
      InvocationsHaveNoFinalizerEvents(base, chain, lo + 1, hi);
    }
  }

  /** The route characterised. A failed capture parse answers with its response and runs
      nothing. Otherwise the chain runs as `OutcomeCharacterised` says; if it completes,
      the handler is called once with the merged request and `routeParams`, and its
      response or error is the route's. Either way the finalizers registered by then are
      unwound once, last of all. */
  lemma RouteCharacterised(route: Route, requestBase: Record)
    ensures var parsed := route.pathParser.parse(route.getRouteParams(requestBase));
      parsed.Left? ==> RouteOutcome(route, requestBase) == RouteRun(Answered(parsed.left), [])
    ensures var parsed := route.pathParser.parse(route.getRouteParams(requestBase));
      var chain := route.middleware;
      var h := HaltIndex(requestBase, chain);
      var s := StateAt(requestBase, chain, h);
      parsed.Right? && h == |chain| ==>
        var handlerRequest := HandlerRequest(s.request, parsed.right);
        RouteOutcome(route, requestBase) ==
          RouteRun(Settle(route.handler(handlerRequest)),
                   Invocations(requestBase, chain, 0, h) + [HandlerInvoked(handlerRequest)] + Drain(s.finalizers))
    ensures var parsed := route.pathParser.parse(route.getRouteParams(requestBase));
      var chain := route.middleware;
      var h := HaltIndex(requestBase, chain);
      var s := StateAt(requestBase, chain, h);
      parsed.Right? && h < |chain| ==>
        && RouteOutcome(route, requestBase).trace == Invocations(requestBase, chain, 0, h + 1) + Drain(s.finalizers)
        && RouteOutcome(route, requestBase).result ==
             match chain[h](s.request)
             case Threw(error) => Rejected(error)
             case Returned(o) => Answered(o.response.value)
  {
    OutcomeCharacterised(requestBase, route.middleware);
  }

  /** Whatever way the route ends after a successful parse, every registered finalizer
      runs exactly once, in reverse order, and nothing runs after them. */
  lemma RouteUnwindsOnce(route: Route, requestBase: Record)
    requires route.pathParser.parse(route.getRouteParams(requestBase)).Right?
    ensures var chain := route.middleware;
      var unwound := Drain(StateAt(requestBase, chain, HaltIndex(requestBase, chain)).finalizers);
      var trace := RouteOutcome(route, requestBase).trace;
      && FinalizerEvents(trace) == unwound
      && |unwound| <= |trace|
      && trace[|trace| - |unwound|..] == unwound
  {
    var chain := route.middleware;
    var h := HaltIndex(requestBase, chain);
    var s := StateAt(requestBase, chain, h);
    var parsed := route.pathParser.parse(route.getRouteParams(requestBase));
    RouteCharacterised(route, requestBase);
    DrainIsFinalizerEvents(s.finalizers);
    var n := Reached(requestBase, chain);
    InvocationsHaveNoFinalizerEvents(requestBase, chain, 0, n);
    var invocations := Invocations(requestBase, chain, 0, n);
    if h == |chain| {
      var call := [HandlerInvoked(HandlerRequest(s.request, parsed.right))];
      assert FinalizerEvents(call) == [] by {
        assert call[1..] == [];
      }
      FinalizerEventsAppend(invocations, call);
      FinalizerEventsAppend(invocations + call, Drain(s.finalizers));
    } else {
      FinalizerEventsAppend(invocations, Drain(s.finalizers));
    }
  }
}
