# typera, modelled in Dafny

typera builds type-safe routes for Koa and Express. A route is three things: a URL
pattern with typed captures, an ordered chain of middleware, and a terminal handler.
Each middleware either continues or stops. A continuing middleware may contribute
fields to the request and may register a finalizer. A stopping middleware returns a
response. Finalizers run in reverse order once the route is done. Request parsers are
middleware that decode one input (body, query, headers, cookies) with a codec. Responses
are plain `{ status, body, headers }` values built by one constructor per status code.

The model follows the package layout:

- `fp.dfy` (`Fp`): `Option` and `Either`.
- `values.dfy` (`Values`): JavaScript values and shallow spreading.
  - Requests are maps from keys to values.
  - `{ ...a, ...b }` is `Merge(a, b)`, with `b` winning on a collision.
- `response.dfy` (`Responses`): the response catalogue, `redirect` and the streaming-body marker.
- `url.dfy` (`Url`): `url(method, ...segments)`.
  - The router pattern.
  - The capture parser, which folds the captures in the Option monad.
    - As written, the fold keeps only the last capture's record (see "## Findings").
    - The model also has the corrected fold, which merges every capture's record, and the URL parser uses it.
  - The `str` and `int` captures.
- `middleware.dfy` (`Middleware`): the middleware output object, as `isMiddlewareResponse` inspects it.
- `engine.dfy` (`Engine`): `runMiddleware`, `runFinalizers` and `route`.
  - The two loops are imperative methods. Each is proved equal to a recursive specification function (`Outcome`, `Drain`, `RouteOutcome`).
  - A closed-form characterisation of that function is then proved. It states the halting index, the accumulated request, the registered finalizers, the call order and the unwinding.
  - Side effects are a trace of events: middleware invoked, finalizer ran, finalizer error ignored, handler invoked.
- `builders.dfy` (`RouteBuilder`): `applyMiddleware`, `use`, `useParamConversions`, `makeRouteConstructor`, `handler`.
- `parser.dfy` (`Parser`): `genericP`, `generic` and their `body`, `query`, `headers` and `cookies` instantiations.
- `koa_parser.dfy` (`KoaParser`):
  - The Koa input accessors.
  - `getCookies`, with the cookie-name regular expression `/(.*?)=.*?(?:$|; )/g` modelled as a lazy, leftmost scanner.
- `legacy_response.dfy`, `legacy_context.dfy`, `legacy_parser.dfy`, `legacy_index_js.dfy`, `legacy_index_ts.dfy`:
  - The two earlier revisions under `src/`.
  - Their Koa context: `ctx.params`, `ctx.request.*`, `ctx.throw`, and `ctx.response` as a class whose fields `run` assigns.

Inputs the code reads from outside are parameters of the model:

- Codecs (`decode`): `Value -> Either<Errors, Value>`.
- `PathReporter.report`.
- `IntFromString`.
- Koa's `ctx.get('cookie')` and `ctx.cookies.get`.
- The middleware functions, the handler and `URL.url`.

## Model

| member | source | states |
|---|---|---|
| `Responses.Make` | packages/typera-common/src/response.ts:19-27 | a status constructor returns its own status code, which is a catalogue code, and passes body and headers through; omitted arguments are `undefined` |
| `Responses.CodeRoundTrip` | packages/typera-common/src/response.ts:19-920 | each constructor is recovered from its status code |
| `Responses.FromCodeInCatalogue` | packages/typera-common/src/response.ts:19-920 | a code has a constructor exactly when it is one of 100-103, 200-208, 226, 300-308, 400-418, 421-426, 428, 429, 431, 451, 500-505 |
| `Responses.FromCodeRoundTrip` | packages/typera-common/src/response.ts:19-920 | the constructor found for a code has that code |
| `Responses.CodeInjective` | packages/typera-common/src/response.ts:19-920 | no two constructors share a status code |
| `Responses.CatalogueIsExact` | packages/typera-common/src/response.ts:19-920 | every catalogue code belongs to exactly one constructor |
| `Responses.Redirect` | packages/typera-common/src/response.ts:939-948 | `redirect(s, loc)` has status `s`, which is a catalogue code, and the header `location: loc`; its body is a string from which `s` and `loc` are read back |
| `Responses.RedirectStatusesInCatalogue` | packages/typera-common/src/response.ts:922-937 | the five redirect statuses are the codes of the catalogue's 301, 302, 303, 307 and 308 constructors |
| `Responses.RedirectBodyRoundTrip` | packages/typera-common/src/response.ts:924-948 | the status and the location are read back from a redirect body |
| `Responses.StreamingBodyRecognised` | packages/typera-common/src/response.ts:957-963 | `isStreamingBody(streamingBody(cb))` holds; falsy bodies and bodies whose `_kind` is not `StreamingBody` are rejected; an accepted body is an object with `_kind` and `callback` |
| `Url.UrlParserFields` | packages/typera-common/src/url.ts:44-73 | the parser keeps the given method, has the segments' pattern and parses with the segments' captures |
| `Url.PatternIsConcatenation` | packages/typera-common/src/url.ts:49-56 | the pattern of two segment lists together is the pattern of the first followed by that of the second, and `/` when both are empty |
| `Url.CapturePatterns` | packages/typera-common/src/url.ts:79-101 | `str(p)` has pattern `:p` and `int(p)` has pattern `:p(\d+)` |
| `Url.CapturersAppend` | packages/typera-common/src/url.ts:57 | the capturers of concatenated segments are the concatenated capturers, in order |
| `Url.ParseIgnoresLiterals` | packages/typera-common/src/url.ts:57-67 | literal segments contribute nothing: removing one leaves the parse unchanged |
| `Url.FoldFailsIff` | packages/typera-common/src/url.ts:62-69 | the Option fold fails exactly when some capture result is `none` |
| `Url.ParseFailsIff` | packages/typera-common/src/url.ts:61-69 | parsing fails exactly when some capture yields `none`, and then answers 404 with undefined body and headers |
| `Url.BuiltinCapture` | packages/typera-common/src/url.ts:79-101 | `str(p)` yields `none` exactly when parameter `p` is not a string and `int(p)` exactly when `IntFromString` rejects it; otherwise each yields `{[p]: value}`, the string itself or the decoded number |
| `Url.FoldBuiltinSucceeds` | packages/typera-common/src/url.ts:62-67 | with `str` and `int` captures only, the fold succeeds exactly when every capture accepts its parameter |
| `Url.FoldBuiltinKeys` | packages/typera-common/src/url.ts:29-36 | with the corrected fold (see "## Findings"), a successful fold has the accumulator's keys plus the captured names, and an accumulated key that no capture reads keeps its value |
| `Url.FoldBuiltinLastWins` | packages/typera-common/src/url.ts:29-36 | with the corrected fold, when every capture accepts, the fold succeeds and each name holds the typed value of the last capture that reads it |
| `Url.ParseBuiltinCaptures` | packages/typera-common/src/url.ts:29-36 | with the corrected fold and `str` and `int` captures only, parsing succeeds exactly when every `str` parameter is a string and every `int` parameter decodes; the result then has exactly the captured names as keys, as the captures' result type promises, each holding the typed value of the last capture that reads it |
| `Url.ExamplePattern` | packages/typera-common/src/url.ts:49-56 | the segments `/a/`, `str('x')`, `/`, `int('y')` give the pattern `/a/:x/:y(\d+)` |
| `Url.ExampleParseSucceeds` | packages/typera-common/src/url.ts:29-36 | with the corrected fold, on `{x: 'foo', y: '42'}` that parser yields `{x: 'foo', y: 42}` |
| `Url.ExampleParseFails` | packages/typera-common/src/url.ts:93-98 | on `y: 'bar'` the integer capture fails and the parse answers 404 |
| `Url.FoldAsWrittenFails` | packages/typera-common/src/url.ts:62-67 | the fold as written, which spreads each capture's Option object and chains on its `value`, fails exactly when the corrected fold fails |
| `Url.FoldAsWrittenLast` | packages/typera-common/src/url.ts:62-67 | a successful fold as written holds, as its `value`, the last capture's record and nothing from the earlier ones |
| `Url.ParseAsWrittenCharacterised` | packages/typera-common/src/url.ts:61-69 | parsing as written fails exactly when the corrected parse does, with the same 404; on success it yields `{}` for no captures, and otherwise only the last capture's record |
| `Url.ExampleParseAsWritten` | packages/typera-common/src/url.ts:61-69 | as written, on `{x: 'foo', y: '42'}` the example parser yields `{y: 42}`, which differs from the corrected parse |
| `Middleware.Next` | packages/typera-common/src/index.ts:164-171 | a `next` output is never a middleware response, and it carries its value and finalizer |
| `Middleware.Stop` | packages/typera-common/src/index.ts:164-171 | a `stop` output is a middleware response carrying its response and no finalizer |
| `Engine.ReversedReverses` | packages/typera-common/src/index.ts:191 | `[...finalizers].reverse()` holds the same finalizers with the same multiplicities, and reversing it again gives back the list |
| `Engine.DrainAt` | packages/typera-common/src/index.ts:189-199 | draining runs every finalizer exactly once, last registered first, and a throwing one does not stop the rest |
| `Engine.DrainAppend` | packages/typera-common/src/index.ts:189-199 | draining `a + b` drains `b` and then `a` |
| `Engine.RunFinalizers` | packages/typera-common/src/index.ts:189-199 | the loop over the reversed copy appends exactly the drain of the finalizers to the trace and leaves the list alone |
| `Engine.Absorb` | packages/typera-common/src/index.ts:217-219 | an undefined `value` leaves the request unchanged; a defined one is spread over it: the keys are the request's and the spread value's, the spread value's entries win, and the request's other entries are kept; an object value adds exactly its own keys |
| `Engine.RunMiddleware` | packages/typera-common/src/index.ts:173-223 | the imperative loop produces exactly the result and trace of the chain specification `Outcome` |
| `Engine.HaltIndex` | packages/typera-common/src/index.ts:201-212 | the first middleware that does not continue: all before it continue |
| `Engine.Invocations` | packages/typera-common/src/index.ts:201-204 | middleware `i` is called with the request accumulated by the middleware before it, in list order |
| `Engine.OutcomeCharacterised` | packages/typera-common/src/index.ts:185-222 | middleware run in order on the growing request until the first stop or throw; nothing after it runs; its own finalizer is not registered; the earlier finalizers unwind; the response is returned or the error rethrown; a completed chain returns the request and finalizers |
| `Engine.OutcomeAppend` | packages/typera-common/src/index.ts:201-222 | running `a + b` is running `a`, then `b` only if `a` completed, from the state `a` left |
| `Engine.HandlerRequest` | packages/typera-common/src/index.ts:150-153 | the handler's request has every key of the chain's request plus `routeParams`, which overrides a same-named key |
| `Engine.RouteHandler` | packages/typera-common/src/index.ts:138-158 | the route handler produces exactly the result and trace of the route specification `RouteOutcome` |
| `Engine.RouteCharacterised` | packages/typera-common/src/index.ts:139-157 | a failed capture parse returns its response and runs nothing; a halted chain returns its response or rethrows; a completed chain calls the handler once on the merged request, then unwinds the finalizers, even if the handler throws |
| `Engine.RouteUnwindsOnce` | packages/typera-common/src/index.ts:148-156 | after a successful parse, the finalizer events of the route are exactly one drain of the registered finalizers, and they come last |
| `RouteBuilder.BuiltRouteOrder` | packages/typera-common/src/index.ts:61-119 | a route built with `use` before and after the method runs outside, then earlier, then later middleware, and uses the URL parser for its method, path and conversions |
| `RouteBuilder.ConversionsLaterWin` | packages/typera-common/src/index.ts:78-82 | successive conversion maps merge with later entries winning, leaving the middleware unchanged |
| `RouteBuilder.UseAndConversionsIndependent` | packages/typera-common/src/index.ts:78-89 | `use` and `useParamConversions` commute |
| `Parser.Decide` | packages/typera-common/src/parser.ts:57-70 | a decode failure stops with the error handler's response; a success continues with no finalizer and the one-key value `{[key]: result}` |
| `Parser.GenericPDecides` | packages/typera-common/src/parser.ts:46-70 | the parser middleware decodes exactly `input(req)`, then stops or continues as above |
| `Parser.CloneKeepsObjects` | packages/typera-common/src/parser.ts:65-68 | with `cloneResult` a decoded object is contributed as an equal copy; without it the decoded value itself is contributed |
| `Parser.DefaultErrorResponse` | packages/typera-common/src/parser.ts:72-95 | the default error response is 400, without headers, with the body `Invalid <key>: ` followed by the reported errors joined with commas |
| `Parser.ParserInChain` | packages/typera-common/src/parser.ts:56-70 | in a chain, a failing parser stops it with the error response after unwinding; a succeeding one sets its key in the request and registers nothing |
| `Parser.InstantiationKeys` | packages/typera-common/src/parser.ts:10-36 | `body`, `query` and `cookies` use their fixed keys without cloning; only `headers` passes `cloneResult` on |
| `KoaParser.AccessorsReadCtxRequest` | packages/typera-koa/src/parser.ts:9-25 | the accessors return `ctx.request.body`, `query` and `headers` unchanged |
| `KoaParser.FromEntries` | packages/typera-koa/src/parser.ts:38-40 | the object's keys are exactly the names, each mapped to the lookup of that name |
| `KoaParser.FirstCookieMatch` | packages/typera-koa/src/parser.ts:35-37 | the first match in a header that starts with a well-formed cookie spans exactly that cookie and its `; ` separator, its group being the name |
| `KoaParser.CookieNamesOfHeader` | packages/typera-koa/src/parser.ts:34-37 | for a header `n1=v1; n2=v2; ...` of well-formed cookies, the names read back are `n1, n2, ...` in order |
| `KoaParser.CookiesOfHeader` | packages/typera-koa/src/parser.ts:34-40 | the cookies object of such a header has exactly the cookies' names as keys, each mapped to the cookie store's value |
| `KoaParser.MissingCookieHeader` | packages/typera-koa/src/parser.ts:34-43 | without a `Cookie` header the cookies input is `{}`, and a codec that rejects it yields a 400 whose body starts `Invalid cookies: ` |
| `LegacyResponse.ConstructorsAgreeWithCatalogue` | src/response.ts:14-34 | `ok`, `created`, `noContent`, `badRequest` and `notFound` use 200, 201, 204, 400 and 404, the same codes the later catalogue uses; all pass the body except `noContent` (undefined); the codes are distinct |
| `LegacyParser.ParsersDecodeTheirInputs` | src/parser.ts:18-73 | `bodyP`, `routeParamsP` and `queryP` decode `ctx.request.body`, `ctx.params` and `ctx.request.query`, and map the result as above |
| `LegacyParser.DefaultErrorResponses` | src/parser.ts:32-80 | the default parsers fail exactly when the decode fails: 400 `invalid body`, 404 with an undefined body, 400 `Invalid query` |
| `KoaRoutesJs.ConstructorsJs` | src/index.js:1-7 | the constructors use 200, 201, 204, 400 and 404; `noContent` has no body property, which reads as `undefined` |
| `KoaRoutesJs.ReduceThrows` | src/index.js:11 | the first parser to throw decides the error |
| `KoaRoutesJs.ReduceCompletes` | src/index.js:11 | when no parser throws, the fold has every key of every output, each from the last output that has it |
| `KoaRoutesJs.ParseRequestCharacterised` | src/index.js:10-13 | parsing throws exactly when some parser throws, with the first thrower's error; otherwise every output key is present from the last output that has it, and `ctx` is always the context |
| `KoaRoutesJs.RouteHandlerPassesThrough` | src/index.js:14 | the route rethrows a parse error, or returns the handler's reply for the parsed request unchanged |
| `KoaRoutesJs.NoParsers` | src/index.js:9-14 | with no parsers the handler receives exactly `{ctx}` |
| `KoaRoutesJs.DecodersThrowFixedErrors` | src/index.js:23-39 | `routeParams`, `query` and `body` throw 404, 400 `Invalid query` and 400 `Invalid body` exactly when decoding fails, and otherwise wrap the value under their key |
| `KoaRoutesJs.Run` | src/index.js:17-21 | an answer's status and body are copied onto `ctx.response`; a missing body is written as `undefined`; a throw changes nothing and propagates |
| `KoaRoutesTs.FirstFailureWins` | src/index.ts:93-123 | decoding runs params, then query, then body, and the first failure throws (404, 400 `Invalid query`, 400 `Invalid body`); otherwise the handler gets `{params, query, body, ctx}` and its reply is returned |
| `KoaRoutesTs.NoCodecsAlwaysHandled` | src/index.ts:102-122 | with no codecs the handler always runs, on `undefined` params, query and body |
| `KoaRoutesTs.Run` | src/index.ts:131-137 | an answer's status and body are copied onto `ctx.response`; a throw changes nothing and propagates |
| `KoaRoutesTs.ConstructorStatuses` | src/index.ts:44-64 | the constructors use 200, 201, 204 (with an `undefined` body), 400 and 404, and pass the other bodies through |

## Left out

- Asynchrony is not modelled. Every `await` is a plain call, and a rejected promise is a throw.
- `console.error` in `runFinalizers` is a `FinalizerErrorIgnored` trace event.
- Numbers are integers. NaN, floating point and the `IntFromString` grammar are not modelled. `IntFromString` is a parameter `Value -> Option<int>`.
- io-ts decoding, `PathReporter.report` and the Koa cookie store are parameters. What they compute is not modelled.
- Property reads on `undefined` give `undefined` here, where JavaScript throws a `TypeError`.
- Spreading follows JavaScript for every value: an object spreads its own fields, an array or a string spreads one entry per index, and other values spread nothing. Middleware values are read through that shallow clone, and legacy parser outputs are records.
- The middleware output's `response` property is modelled as either missing or holding a response. A present but `undefined` `response` is not distinguished.
- `next` and `stop` are modelled with the output shape that `isMiddlewareResponse` reads. The middleware file of this revision holds only types.
- `URL.url` is a parameter of the route builders. `index.ts` calls it as `url(paramConversions, method, path)`, but the `url.ts` of this revision takes `(method, ...segments)`. That `url` is modelled as written.
- The route's `method` and `path` fields are the parser's method and pattern. The method shortcuts (`get`, `post`, ...) are `RouteFor` with the method fixed.
- The header `Proxy`, the streaming callback's writes to a stream, and the Express and Koa adapters are host I/O and are not modelled.
- Koa's own setters for `ctx.response` are not modelled. For example, Koa turns the status into 204 when the body becomes `undefined`.
- `KoaParser.CookieNames`: strings are sequences of Unicode characters, not of UTF-16 code units. The regular expression's `.` excludes the same four line terminators either way.
- `Values.ShallowClone`: a string spreads one entry per Dafny character, where JavaScript spreads one per UTF-16 code unit. The two differ for characters outside the Basic Multilingual Plane.
- `KoaParser.CookiesOfHeader` is stated for headers whose names contain no `=` and whose values contain no `;`, and neither contains a line terminator. Other headers are covered only by the scanner's definition.
- `KoaRoutesJs.Run`, `KoaRoutesTs.Run`: a thrown error is modelled as Koa's `HttpError(status, message)`. Other values a handler or parser might throw are not distinguished.
- `RouteBuilder.ApplyMiddleware`: the default `paramConversions = URL.builtinConversions` is not modelled. Conversions are always passed explicitly, because the `url.ts` of this revision defines no `builtinConversions`.

## Findings

| source | as written | input that shows it | evidently intended | confidence | as-written member | corrected member |
|---|---|---|---|---|---|---|
| packages/typera-common/src/url.ts:62-69 | `foldM(option, array)` is given the capture Options themselves. Each step spreads one such Option object over the record so far, and `chain` passes only its `value` to the next step, so a successful parse yields only the last capture's record | segments `/a/`, `str('x')`, `/`, `int('y')` on route parameters `{x: 'foo', y: '42'}` give `{y: 42}` | every capture's record merged, `{x: 'foo', y: 42}`, as the result type `PathSegmentsToCaptures` (url.ts:29-36) intersects them | not executed | `Url.ExampleParseAsWritten` | `Url.ParseBuiltinCaptures` |
