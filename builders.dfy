/** The route builders: `applyMiddleware` gives a route function that remembers the outside
    middleware and the parameter conversions; a route constructor remembers the method, the
    path and the middleware added so far, and `handler` turns it into a route. */
module RouteBuilder {
  import opened Values
  import opened Url
  import opened Middleware
  import opened Engine

  /** Parameter conversions by name. What a conversion does belongs to the URL parser that
      uses it, so here it is an opaque value. */
  type Conversions = map<string, Value>

  /** `URL.url(paramConversions, method, path)` as this revision calls it. Its code is not
      part of this model, so the route builders take it as a parameter. */
  type UrlFor = (Conversions, Method, string) -> PathParser

  /** What `applyMiddleware(getRouteParams, outsideMiddleware, paramConversions)` returns. */
  datatype RouteFn = RouteFn(
    getRouteParams: Record -> Value,
    middleware: seq<MiddlewareFn>,
    conversions: Conversions,
    urlFor: UrlFor)

  /** What `makeRouteConstructor` returns, before `handler` is applied. */
  datatype RouteConstructor = RouteConstructor(
    getRouteParams: Record -> Value,
    conversions: Conversions,
    verb: Method,
    path: string,
    middleware: seq<MiddlewareFn>,
    urlFor: UrlFor)

  function ApplyMiddleware(getRouteParams: Record -> Value, outsideMiddleware: seq<MiddlewareFn>,
                           paramConversions: Conversions, urlFor: UrlFor): RouteFn {
    RouteFn(getRouteParams, outsideMiddleware, paramConversions, urlFor)
  }

  /** `routeFn.useParamConversions(conversions)`: the later conversions win. */
  function UseParamConversions(rf: RouteFn, conversions: Conversions): RouteFn {
    ApplyMiddleware(rf.getRouteParams, rf.middleware, Merge(rf.conversions, conversions), rf.urlFor)
  }

  /** `routeFn.use(...middleware)`: appended after the outside middleware. */
  function Use(rf: RouteFn, middleware: seq<MiddlewareFn>): RouteFn {
    ApplyMiddleware(rf.getRouteParams, rf.middleware + middleware, rf.conversions, rf.urlFor)
  }

  /** `routeFn(method, path)`; `routeFn.get(path)` ... `routeFn.all(path)` are this with the
      method fixed. */
  function RouteFor(rf: RouteFn, verb: Method, path: string): RouteConstructor {
    RouteConstructor(rf.getRouteParams, rf.conversions, verb, path, rf.middleware, rf.urlFor)
  }

  /** `routeConstructor.use(...nextMiddleware)`. */
  function ConstructorUse(rc: RouteConstructor, nextMiddleware: seq<MiddlewareFn>): RouteConstructor {
    rc.(middleware := rc.middleware + nextMiddleware)
  }

  /** `routeConstructor.handler(fn)`: a route over the URL parser for the method and path. */
  function Handler(rc: RouteConstructor, handler: Record -> HandlerResult): Route {
    Route(rc.getRouteParams, rc.urlFor(rc.conversions, rc.verb, rc.path), rc.middleware, handler)
  }

  /** A route built as `applyMiddleware(g, outside).use(a)(verb, path).use(b).handler(h)`
      runs the middleware in the order outside, `a`, `b`, and uses the URL parser for its
      method and path with the route function's conversions. The chain of the route is
      the outside part run first, the rest only if it completed. */
  lemma BuiltRouteOrder(getRouteParams: Record -> Value, outside: seq<MiddlewareFn>, conversions: Conversions,
                        urlFor: UrlFor, a: seq<MiddlewareFn>, verb: Method, path: string,
                        b: seq<MiddlewareFn>, handler: Record -> HandlerResult, requestBase: Record)
    ensures var route := Handler(ConstructorUse(RouteFor(Use(ApplyMiddleware(getRouteParams, outside, conversions, urlFor), a), verb, path), b), handler);
      && route.middleware == outside + a + b
      && route.pathParser == urlFor(conversions, verb, path)
      && route.getRouteParams == getRouteParams
      && route.handler == handler
      && Outcome(requestBase, [], route.middleware, 0)
         == Then(Outcome(requestBase, [], outside, 0), a + b, |outside|)
  {
    assert outside + a + b == outside + (a + b);
    OutcomeAppend(requestBase, [], outside, a + b, 0);
  }

  /** Successive conversion maps merge with the later entries winning, and the middleware
      stays as it was. */
  lemma ConversionsLaterWin(rf: RouteFn, first: Conversions, second: Conversions, name: string)
    ensures var r := UseParamConversions(UseParamConversions(rf, first), second);
      && r.middleware == rf.middleware
      && r.conversions.Keys == rf.conversions.Keys + first.Keys + second.Keys
      && (name in second ==> r.conversions[name] == second[name])
      && (name !in second && name in first ==> r.conversions[name] == first[name])
      && (name !in second && name !in first && name in rf.conversions ==> r.conversions[name] == rf.conversions[name])
  {
  }

  /** Adding middleware never changes the conversions, and adding conversions never
      changes the middleware. */
  lemma UseAndConversionsIndependent(rf: RouteFn, middleware: seq<MiddlewareFn>, conversions: Conversions)
    ensures Use(UseParamConversions(rf, conversions), middleware) == UseParamConversions(Use(rf, middleware), conversions)
  {
  }
}
