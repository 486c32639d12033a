/** URL patterns built from literal segments and captures, and the parser that turns the
    router's raw route parameters into typed captures or a 404 response. */
module Url {
  import opened Fp
  import opened Values
  import opened Responses

  datatype Method = Get | Post | Put | Delete | Head | Options | Patch | All

  /** A path capture: its placeholder in the router pattern and how it reads its value out
      of the route parameters. `StrParam` and `IntParam` are the built-in `str` and `int`;
      `Custom` is any other capture function with a pattern. `IntParam` carries the
      integer-string decoder of the codec library it relies on. */
  datatype PathCapture =
    | StrParam(param: string)
    | IntParam(param: string, intFromString: Value -> Option<int>)
    | Custom(customPattern: string, parser: Value -> Option<Record>)

  datatype Segment = Literal(text: string) | Capture(capture: PathCapture)

  predicate IsPathCapture(segment: Segment) {
    segment.Capture?
  }

  /** The placeholder a capture contributes to the router pattern. */
  function CapturePattern(c: PathCapture): string {
    match c
    case StrParam(param) => ":" + param
    case IntParam(param, _) => ":" + param + "(\\d+)"
    case Custom(pattern, _) => pattern
  }

  /** Runs one capture against the route parameters: a one-key record, or `None`. */
  function RunCapture(c: PathCapture, routeParams: Value): Option<Record> {
    match c
    case StrParam(param) =>
      var value := Prop(routeParams, param);
      if !value.Str? then None else Some(map[param := value])
    case IntParam(param, intFromString) =>
      (match intFromString(Prop(routeParams, param))
       case None => None
       case Some(n) => Some(map[param := Num(n)]))
    case Custom(_, parser) => parser(routeParams)
  }

  function SegmentPattern(segment: Segment): string {
    match segment
    case Literal(text) => text
    case Capture(c) => CapturePattern(c)
  }

  /** The segments' patterns joined with no separator. */
  function Joined(segments: seq<Segment>): string {
    if |segments| == 0 then "" else SegmentPattern(segments[0]) + Joined(segments[1..])
  }

  /** The router pattern: `/` for no segments. */
  function Pattern(segments: seq<Segment>): string {
    if |segments| > 0 then Joined(segments) else "/"
  }

  /** The capture segments, in order. */
  function Capturers(segments: seq<Segment>): (r: seq<PathCapture>)
    ensures |r| <= |segments|
  {
    if |segments| == 0 then []
    else if IsPathCapture(segments[0]) then [segments[0].capture] + Capturers(segments[1..])
    else Capturers(segments[1..])
  }

  function RunCaptures(captures: seq<PathCapture>, routeParams: Value): (r: seq<Option<Record>>)
    ensures |r| == |captures|
    ensures forall i :: 0 <= i < |captures| ==> r[i] == RunCapture(captures[i], routeParams)
  {
    if |captures| == 0 then [] else [RunCapture(captures[0], routeParams)] + RunCaptures(captures[1..], routeParams)
  }

  /** Folds the capture results in the Option monad, spreading each record over the
      accumulator; the first `None` makes the whole fold `None`. This is the fold the
      captures' result type describes (every capture's record, intersected); the code as
      written keeps only the last record, see `FoldAsWritten`. */
  function FoldCaptures(results: seq<Option<Record>>, acc: Record): Option<Record> {
    if |results| == 0 then Some(acc)
    else
      match results[0]
      case None => None
      case Some(obj) => FoldCaptures(results[1..], Merge(acc, obj))
  }

  /** `parse(routeParams)` of the parser that `url` builds, with the corrected fold. */
  function Parse(segments: seq<Segment>, routeParams: Value): Either<Response, Record> {
    match FoldCaptures(RunCaptures(Capturers(segments), routeParams), map[])
    case None => Left(Make(NotFound))
    case Some(captures) => Right(captures)
  }

  /** What a route needs from its URL: the HTTP method (`verb`), the router pattern and the parser. */
  datatype PathParser = PathParser(verb: Method, pattern: string, parse: Value -> Either<Response, Record>)

  /** `url(method, ...segments)()`. */
  function UrlParser(verb: Method, segments: seq<Segment>): PathParser {
    PathParser(verb, Pattern(segments), routeParams => Parse(segments, routeParams))
  }

  /** The parser carries the method (verb) it was given, the pattern of its segments, and parses
      with them. */
  lemma UrlParserFields(verb: Method, segments: seq<Segment>, routeParams: Value)
    ensures UrlParser(verb, segments).verb == verb
    ensures UrlParser(verb, segments).pattern == Pattern(segments)
    ensures UrlParser(verb, segments).parse(routeParams) == Parse(segments, routeParams)
  {
  }

  // Patterns

  lemma {:induction false} JoinedAppend(a: seq<Segment>, b: seq<Segment>)
    ensures Joined(a + b) == Joined(a) + Joined(b)
  {
    if |a| == 0 {
      assert a + b == b;
    } else {
      assert (a + b)[1..] == a[1..] + b;
      JoinedAppend(a[1..], b);
    }
  }

  /** The pattern is the in-order concatenation of the literal texts and the capture
      placeholders; no segments give `/`. */
  lemma PatternIsConcatenation(a: seq<Segment>, b: seq<Segment>)
    ensures |a + b| == 0 ==> Pattern(a + b) == "/"
    ensures |a + b| > 0 ==> Pattern(a + b) == Joined(a) + Joined(b)
  {
    JoinedAppend(a, b);
  }

  lemma CapturePatterns(param: string, intFromString: Value -> Option<int>)
    ensures CapturePattern(StrParam(param)) == ":" + param
    ensures CapturePattern(IntParam(param, intFromString)) == ":" + param + "(\\d+)"
  {
  }

  // Parsing

  lemma {:induction false} CapturersAppend(a: seq<Segment>, b: seq<Segment>)
    ensures Capturers(a + b) == Capturers(a) + Capturers(b)
  {
    if |a| == 0 {
      assert a + b == b;
    } else {
      assert (a + b)[1..] == a[1..] + b;
      CapturersAppend(a[1..], b);
    }
  }

  /** Literal segments contribute no keys: removing one does not change what is parsed. */
  lemma {:induction false} ParseIgnoresLiterals(a: seq<Segment>, text: string, b: seq<Segment>, routeParams: Value)
    ensures Parse(a + [Literal(text)] + b, routeParams) == Parse(a + b, routeParams)
  {
    CapturersAppend(a + [Literal(text)], b);
    CapturersAppend(a, [Literal(text)]);
    CapturersAppend(a, b);
    assert Capturers([Literal(text)]) == [];
    assert Capturers(a + [Literal(text)] + b) == Capturers(a + b);
  }

  lemma {:induction false} FoldFailsIff(results: seq<Option<Record>>, acc: Record)
    ensures FoldCaptures(results, acc).None? <==> exists i :: 0 <= i < |results| && results[i].None?
  {
    if |results| > 0 {
      match results[0]
      case None =>
      case Some(obj) =>
        FoldFailsIff(results[1..], Merge(acc, obj));
        if exists i :: 0 <= i < |results| && results[i].None? {
          var i :| 0 <= i < |results| && results[i].None?;
          assert results[1..][i - 1].None?;
        }
        if exists i :: 0 <= i < |results[1..]| && results[1..][i].None? {
          var i :| 0 <= i < |results[1..]| && results[1..][i].None?;
          assert results[i + 1].None?;
        }
    }
  }

  /** Some capture yields `None` for these route parameters. */
  predicate SomeCaptureFails(captures: seq<PathCapture>, routeParams: Value) {
    exists i :: 0 <= i < |captures| && RunCapture(captures[i], routeParams).None?
  }

  lemma RunFailsIff(captures: seq<PathCapture>, routeParams: Value)
    ensures FoldCaptures(RunCaptures(captures, routeParams), map[]).None? <==> SomeCaptureFails(captures, routeParams)
  {
    var results := RunCaptures(captures, routeParams);
    FoldFailsIff(results, map[]);
    if FoldCaptures(results, map[]).None? {
      var i :| 0 <= i < |results| && results[i].None?;
      assert 0 <= i < |captures| && RunCapture(captures[i], routeParams).None?;
    } else {
      forall i | 0 <= i < |captures| ensures !RunCapture(captures[i], routeParams).None? {
        assert !results[i].None?;
      }
    }
  }

  /** Parsing fails exactly when some capture yields `None`, and then the result is a 404
      response with undefined body and headers. */
  lemma ParseFailsIff(segments: seq<Segment>, routeParams: Value)
    ensures Parse(segments, routeParams).Left? <==> SomeCaptureFails(Capturers(segments), routeParams)
    ensures Parse(segments, routeParams).Left? ==>
      Parse(segments, routeParams).left == Response(404, Undefined, None)
  {
    RunFailsIff(Capturers(segments), routeParams);
    NotFoundResponse();
  }

  /** Every capture is a built-in `str` or `int`. */
  predicate OnlyBuiltinCaptures(captures: seq<PathCapture>) {
    forall i :: 0 <= i < |captures| ==> !captures[i].Custom?
  }

  /** The names the built-in captures read. */
  function ParamNames(captures: seq<PathCapture>): set<string>
    requires OnlyBuiltinCaptures(captures)
  {
    set i | 0 <= i < |captures| :: captures[i].param
  }

  /** A built-in capture accepts its route parameter: `str` a string, `int` one that the
      integer-string decoder reads. */
  predicate Accepts(c: PathCapture, routeParams: Value)
    requires !c.Custom?
  {
    if c.StrParam? then Prop(routeParams, c.param).Str?
    else c.intFromString(Prop(routeParams, c.param)).Some?
  }

  /** The typed value an accepting capture yields: the string itself, or the decoded integer. */
  function Typed(c: PathCapture, routeParams: Value): Value
    requires !c.Custom? && Accepts(c, routeParams)
  {
    if c.StrParam? then Prop(routeParams, c.param)
    else Num(c.intFromString(Prop(routeParams, c.param)).value)
  }

  /** No capture after position `i` reads the same name. */
  predicate LastWithName(captures: seq<PathCapture>, i: nat)
    requires OnlyBuiltinCaptures(captures) && i < |captures|
  {
    forall j :: i < j < |captures| ==> captures[j].param != captures[i].param
  }

  /** `str(p)` and `int(p)`: `none` when the parameter is rejected, otherwise the one-key
      record `{[p]: value}` with the typed value. */
  lemma BuiltinCapture(c: PathCapture, routeParams: Value)
    requires !c.Custom?
    ensures RunCapture(c, routeParams).Some? <==> Accepts(c, routeParams)
    ensures RunCapture(c, routeParams).Some? ==> RunCapture(c, routeParams).value == map[c.param := Typed(c, routeParams)]
  {
  }

  /** Every capture accepts its route parameter. */
  predicate AllAccept(captures: seq<PathCapture>, routeParams: Value)
    requires OnlyBuiltinCaptures(captures)
  {
    forall i :: 0 <= i < |captures| ==> Accepts(captures[i], routeParams)
  }

  /** Every capture that is the last to read its name yields its typed value in `r`. */
  predicate LastCapturesWin(captures: seq<PathCapture>, routeParams: Value, r: Record)
    requires OnlyBuiltinCaptures(captures) && AllAccept(captures, routeParams)
  {
    forall i :: 0 <= i < |captures| && LastWithName(captures, i) ==>
      captures[i].param in r && r[captures[i].param] == Typed(captures[i], routeParams)
  }

  /** One step of the fold over built-in captures. */
  lemma FoldBuiltinStep(captures: seq<PathCapture>, routeParams: Value, acc: Record)
    requires |captures| > 0 && !captures[0].Custom?
    ensures !Accepts(captures[0], routeParams) ==> FoldCaptures(RunCaptures(captures, routeParams), acc).None?
    ensures Accepts(captures[0], routeParams) ==>
      FoldCaptures(RunCaptures(captures, routeParams), acc)
      == FoldCaptures(RunCaptures(captures[1..], routeParams), Merge(acc, map[captures[0].param := Typed(captures[0], routeParams)]))
  {
    assert RunCaptures(captures, routeParams)[1..] == RunCaptures(captures[1..], routeParams);
    BuiltinCapture(captures[0], routeParams);
  }

  lemma AllAcceptCons(captures: seq<PathCapture>, routeParams: Value)
    requires |captures| > 0 && OnlyBuiltinCaptures(captures)
    ensures OnlyBuiltinCaptures(captures[1..])
    ensures AllAccept(captures, routeParams) <==> Accepts(captures[0], routeParams) && AllAccept(captures[1..], routeParams)
  {
    var rest := captures[1..];
    if Accepts(captures[0], routeParams) && AllAccept(rest, routeParams) {
      forall i | 0 <= i < |captures| ensures Accepts(captures[i], routeParams) {
        if i > 0 { assert captures[i] == rest[i - 1]; }
      }
    }
    if AllAccept(captures, routeParams) {
      forall i | 0 <= i < |rest| ensures Accepts(rest[i], routeParams) {
        assert rest[i] == captures[i + 1];
      }
    }
  }

  lemma ParamNamesCons(captures: seq<PathCapture>)
    requires |captures| > 0 && OnlyBuiltinCaptures(captures)
    ensures OnlyBuiltinCaptures(captures[1..])
    ensures ParamNames(captures) == {captures[0].param} + ParamNames(captures[1..])
  {
    var rest := captures[1..];
    forall n | n in ParamNames(captures) ensures n in {captures[0].param} + ParamNames(rest) {
      var i :| 0 <= i < |captures| && captures[i].param == n;
      if i > 0 { assert rest[i - 1].param == n; }
    }
    forall n | n in ParamNames(rest) ensures n in ParamNames(captures) {
      var i :| 0 <= i < |rest| && rest[i].param == n;
      assert captures[i + 1].param == n;
    }
  }

  /** The fold over built-in captures succeeds exactly when every capture accepts. */
  lemma {:induction false} FoldBuiltinSucceeds(captures: seq<PathCapture>, routeParams: Value, acc: Record)
    requires OnlyBuiltinCaptures(captures)
    ensures FoldCaptures(RunCaptures(captures, routeParams), acc).Some? <==> AllAccept(captures, routeParams)
    decreases |captures|
  {
    if |captures| > 0 {
      FoldBuiltinStep(captures, routeParams, acc);
      AllAcceptCons(captures, routeParams);
      if Accepts(captures[0], routeParams) {
        FoldBuiltinSucceeds(captures[1..], routeParams, Merge(acc, map[captures[0].param := Typed(captures[0], routeParams)]));
      }
    }
  }

  /** Keys and kept values carry over from the accumulator after one capture to the
      accumulator before it. */
  lemma KeysThroughStep(acc: Record, p: string, v: Value, names: set<string>, r: Record)
    requires r.Keys == Merge(acc, map[p := v]).Keys + names
    requires forall k :: k in Merge(acc, map[p := v]) && k !in names ==> r[k] == Merge(acc, map[p := v])[k]
    ensures r.Keys == acc.Keys + ({p} + names)
    ensures forall k :: k in acc && k !in {p} + names ==> r[k] == acc[k]
  {
  }

  /** A successful fold over built-in captures holds the accumulator's keys and the
      captured names; an accumulated key no capture reads keeps its value. */
  lemma {:induction false} FoldBuiltinKeys(captures: seq<PathCapture>, routeParams: Value, acc: Record)
    requires OnlyBuiltinCaptures(captures)
    ensures FoldCaptures(RunCaptures(captures, routeParams), acc).Some? ==>
      var r := FoldCaptures(RunCaptures(captures, routeParams), acc).value;
      && r.Keys == acc.Keys + ParamNames(captures)
      && (forall k :: k in acc && k !in ParamNames(captures) ==> r[k] == acc[k])
    decreases |captures|
  {
    if |captures| == 0 {
      assert ParamNames(captures) == {};
    } else {
      FoldBuiltinStep(captures, routeParams, acc);
      if Accepts(captures[0], routeParams) {
        var p, v, rest := captures[0].param, Typed(captures[0], routeParams), captures[1..];
        FoldBuiltinKeys(rest, routeParams, Merge(acc, map[p := v]));
        var folded := FoldCaptures(RunCaptures(rest, routeParams), Merge(acc, map[p := v]));
        if folded.Some? {
          ParamNamesCons(captures);
          KeysThroughStep(acc, p, v, ParamNames(rest), folded.value);
        }
      }
    }
  }

  /** In a successful fold over built-in captures, a later capture of the same name wins. */
  lemma {:induction false} FoldBuiltinLastWins(captures: seq<PathCapture>, routeParams: Value, acc: Record)
    requires OnlyBuiltinCaptures(captures) && AllAccept(captures, routeParams)
    ensures FoldCaptures(RunCaptures(captures, routeParams), acc).Some?
    ensures LastCapturesWin(captures, routeParams, FoldCaptures(RunCaptures(captures, routeParams), acc).value)
    decreases |captures|
  {
    FoldBuiltinSucceeds(captures, routeParams, acc);
    if |captures| > 0 {
      var c, rest := captures[0], captures[1..];
      var next := Merge(acc, map[c.param := Typed(c, routeParams)]);
      AllAcceptCons(captures, routeParams);
      ParamNamesCons(captures);
      FoldBuiltinStep(captures, routeParams, acc);
      FoldBuiltinLastWins(rest, routeParams, next);
      FoldBuiltinKeys(rest, routeParams, next);
      var r := FoldCaptures(RunCaptures(rest, routeParams), next).value;
      forall i | 0 <= i < |captures| && LastWithName(captures, i)
        ensures captures[i].param in r && r[captures[i].param] == Typed(captures[i], routeParams)
      {
        if i == 0 {
          LastNotLater(captures);
        } else {
          LastInTail(captures, i);
        }
      }
    }
  }

  /** The first capture, when no later one reads its name, reads a name the rest do not. */
  lemma LastNotLater(captures: seq<PathCapture>)
    requires |captures| > 0 && OnlyBuiltinCaptures(captures) && LastWithName(captures, 0)
    ensures OnlyBuiltinCaptures(captures[1..])
    ensures captures[0].param !in ParamNames(captures[1..])
  {
    var rest := captures[1..];
    forall j | 0 <= j < |rest| ensures rest[j].param != captures[0].param {
      assert rest[j] == captures[j + 1];
    }
  }

  /** A later capture that is last to read its name is also last within the rest. */
  lemma LastInTail(captures: seq<PathCapture>, i: nat)
    requires 0 < i < |captures| && OnlyBuiltinCaptures(captures) && LastWithName(captures, i)
    ensures OnlyBuiltinCaptures(captures[1..])
    ensures captures[1..][i - 1] == captures[i] && LastWithName(captures[1..], i - 1)
  {
    var rest := captures[1..];
    forall j | i - 1 < j < |rest| ensures rest[j].param != rest[i - 1].param {
      assert rest[j] == captures[j + 1];
    }
  }

  /** With built-in captures only, parsing succeeds exactly when every `str` parameter is a
      string and every `int` parameter decodes. The result then holds exactly the captured
      names, each with the typed value of the last capture that reads it. */
  lemma ParseBuiltinCaptures(segments: seq<Segment>, routeParams: Value)
    requires OnlyBuiltinCaptures(Capturers(segments))
    ensures Parse(segments, routeParams).Right? <==> AllAccept(Capturers(segments), routeParams)
    ensures Parse(segments, routeParams).Right? ==>
      && Parse(segments, routeParams).right.Keys == ParamNames(Capturers(segments))
      && LastCapturesWin(Capturers(segments), routeParams, Parse(segments, routeParams).right)
  {
    var captures := Capturers(segments);
    FoldBuiltinSucceeds(captures, routeParams, map[]);
    FoldBuiltinKeys(captures, routeParams, map[]);
    if AllAccept(captures, routeParams) {
      FoldBuiltinLastWins(captures, routeParams, map[]);
    }
  }

  // The fold as written

  /** An `Option` as the plain object it is at run time: `{_tag: 'None'}` or
      `{_tag: 'Some', value}`. */
  function OptionObject(o: Option<Record>): (r: Record)
    ensures IsNone(r) <==> o.None?
    ensures o.Some? ==> Prop(Obj(r), "value") == Obj(o.value)
  {
    match o
    case None => map["_tag" := Str("None")]
    case Some(obj) => map["_tag" := Str("Some"), "value" := Obj(obj)]
  }

  /** `isNone` reads only the tag. */
  predicate IsNone(mb: Record) {
    Prop(Obj(mb), "_tag") == Str("None")
  }

  /** `foldM(option, array)(results, {}, (acc, obj) => ({...acc, ...obj}))` as written:
      `reduce` threads `chain`, which hands the step only the `value` of the Option so far,
      and the step spreads the capture's Option object itself, tag and all. `mb` is the
      Option so far, as an object. */
  function FoldAsWritten(results: seq<Option<Record>>, mb: Record): Record {
    if |results| == 0 then mb
    else if IsNone(mb) then FoldAsWritten(results[1..], mb)
    else FoldAsWritten(results[1..], Merge(ShallowClone(Prop(Obj(mb), "value")).fields, OptionObject(results[0])))
  }

  /** `parse(routeParams)` as written: `Either.fromOption(notFound)` of that fold, started
      from `some({})`. */
  function ParseAsWritten(segments: seq<Segment>, routeParams: Value): Either<Response, Record> {
    var mb := FoldAsWritten(RunCaptures(Capturers(segments), routeParams), OptionObject(Some(map[])));
    if IsNone(mb) then Left(Make(NotFound)) else Right(ShallowClone(Prop(Obj(mb), "value")).fields)
  }

  lemma {:induction false} FoldAsWrittenStaysNone(results: seq<Option<Record>>, mb: Record)
    requires IsNone(mb)
    ensures FoldAsWritten(results, mb) == mb
  {
    if |results| > 0 {
      FoldAsWrittenStaysNone(results[1..], mb);
    }
  }

  /** The fold as written fails exactly when the corrected fold does. */
  lemma {:induction false} FoldAsWrittenFails(results: seq<Option<Record>>, mb: Record, acc: Record)
    requires !IsNone(mb)
    ensures IsNone(FoldAsWritten(results, mb)) <==> FoldCaptures(results, acc).None?
  {
    if |results| > 0 {
      var next := Merge(ShallowClone(Prop(Obj(mb), "value")).fields, OptionObject(results[0]));
      match results[0]
      case None =>
        FoldAsWrittenStaysNone(results[1..], next);
      case Some(obj) =>
        FoldAsWrittenFails(results[1..], next, Merge(acc, obj));
    }
  }

  /** A successful fold as written holds the last result's record and nothing else. */
  lemma {:induction false} FoldAsWrittenLast(results: seq<Option<Record>>, mb: Record)
    requires !IsNone(mb) && |results| > 0
    ensures !IsNone(FoldAsWritten(results, mb)) ==>
      results[|results| - 1].Some? && Prop(Obj(FoldAsWritten(results, mb)), "value") == Obj(results[|results| - 1].value)
  {
    var next := Merge(ShallowClone(Prop(Obj(mb), "value")).fields, OptionObject(results[0]));
    if results[0].None? {
      FoldAsWrittenStaysNone(results[1..], next);
    } else if |results| > 1 {
      FoldAsWrittenLast(results[1..], next);
      assert results[1..][|results| - 2] == results[|results| - 1];
    }
  }

  /** Parsing as written fails exactly as the corrected parse does, with the same 404; on
      success it yields `{}` for no captures and otherwise the last capture's record alone. */
  lemma ParseAsWrittenCharacterised(segments: seq<Segment>, routeParams: Value)
    ensures ParseAsWritten(segments, routeParams).Left? <==> Parse(segments, routeParams).Left?
    ensures ParseAsWritten(segments, routeParams).Left? ==> ParseAsWritten(segments, routeParams) == Parse(segments, routeParams)
    ensures ParseAsWritten(segments, routeParams).Right? && |Capturers(segments)| == 0 ==>
      ParseAsWritten(segments, routeParams).right == map[]
    ensures ParseAsWritten(segments, routeParams).Right? && |Capturers(segments)| > 0 ==>
      Some(ParseAsWritten(segments, routeParams).right) == RunCapture(Capturers(segments)[|Capturers(segments)| - 1], routeParams)
  {
    var results := RunCaptures(Capturers(segments), routeParams);
    var start := OptionObject(Some(map[]));
    var mb := FoldAsWritten(results, start);
    FoldAsWrittenFails(results, start, map[]);
    if !IsNone(mb) {
      if |results| > 0 {
        FoldAsWrittenLast(results, start);
        assert ShallowClone(Prop(Obj(mb), "value")) == Obj(results[|results| - 1].value);
      } else {
        assert ShallowClone(Prop(Obj(mb), "value")) == Obj(map[]);
      }
    }
  }

  /** `/a/:x/:y(\d+)`: a string capture `x` and an integer capture `y`. */
  function ExampleSegments(intFromString: Value -> Option<int>): seq<Segment> {
    [Literal("/a/"), Capture(StrParam("x")), Literal("/"), Capture(IntParam("y", intFromString))]
  }

  /** The pattern of the example after its first literal. */
  lemma ExamplePatternTail(intFromString: Value -> Option<int>)
    ensures Joined([Capture(StrParam("x")), Literal("/"), Capture(IntParam("y", intFromString))]) == ":x/:y(\\d+)"
  {
    var x, y := Capture(StrParam("x")), Capture(IntParam("y", intFromString));
    assert Joined([y]) == ":y(\\d+)" by {
      assert [y][1..] == [];
      assert ":" + "y" == ":y";
      assert CapturePattern(IntParam("y", intFromString)) == ":y" + "(\\d+)";
    }
    assert Joined([Literal("/"), y]) == "/:y(\\d+)" by {
      assert [Literal("/"), y][1..] == [y];
    }
    assert [x, Literal("/"), y][1..] == [Literal("/"), y];
  }

  lemma ExamplePattern(intFromString: Value -> Option<int>)
    ensures Pattern(ExampleSegments(intFromString)) == "/a/:x/:y(\\d+)"
  {
    var x, y := Capture(StrParam("x")), Capture(IntParam("y", intFromString));
    ExamplePatternTail(intFromString);
    assert [Literal("/a/"), x, Literal("/"), y][1..] == [x, Literal("/"), y];
  }

  lemma ExampleCapturers(intFromString: Value -> Option<int>)
    ensures Capturers(ExampleSegments(intFromString)) == [StrParam("x"), IntParam("y", intFromString)]
  {
    var segments := ExampleSegments(intFromString);
    assert segments[3..][1..] == [];
    assert Capturers(segments[3..]) == [IntParam("y", intFromString)];
    assert segments[2..][1..] == segments[3..];
    assert Capturers(segments[2..]) == [IntParam("y", intFromString)];
    assert segments[1..][1..] == segments[2..];
    assert Capturers(segments[1..]) == [StrParam("x")] + [IntParam("y", intFromString)];
  }

  /** Parsing the example: both captures succeed and give their typed values. */
  lemma ExampleParseSucceeds(intFromString: Value -> Option<int>)
    requires intFromString(Str("42")) == Some(42)
    ensures Parse(ExampleSegments(intFromString), Obj(map["x" := Str("foo"), "y" := Str("42")]))
         == Right(map["x" := Str("foo"), "y" := Num(42)])
  {
    ExampleCapturers(intFromString);
    var captures := [StrParam("x"), IntParam("y", intFromString)];
    var results := RunCaptures(captures, Obj(map["x" := Str("foo"), "y" := Str("42")]));
    assert results[0] == Some(map["x" := Str("foo")]);
    assert results[1] == Some(map["y" := Num(42)]);
    assert results[1..][1..] == [];
    assert Merge(map[], map["x" := Str("foo")]) == map["x" := Str("foo")];
    assert Merge(map["x" := Str("foo")], map["y" := Num(42)]) == map["x" := Str("foo"), "y" := Num(42)];
    assert FoldCaptures(results, map[]) == FoldCaptures(results[1..], map["x" := Str("foo")]);
  }

  /** Parsing the example: the integer capture rejects `bar`, so the result is a 404. */
  lemma ExampleParseFails(intFromString: Value -> Option<int>)
    requires intFromString(Str("bar")) == None
    ensures Parse(ExampleSegments(intFromString), Obj(map["x" := Str("foo"), "y" := Str("bar")]))
         == Left(Response(404, Undefined, None))
  {
    ExampleCapturers(intFromString);
    var captures := [StrParam("x"), IntParam("y", intFromString)];
    var results := RunCaptures(captures, Obj(map["x" := Str("foo"), "y" := Str("bar")]));
    assert results[0] == Some(map["x" := Str("foo")]);
    assert results[1] == None;
    assert FoldCaptures(results, map[]) == FoldCaptures(results[1..], Merge(map[], map["x" := Str("foo")]));
    assert FoldCaptures(results[1..], Merge(map[], map["x" := Str("foo")])) == None;
    assert Make(NotFound) == Response(404, Undefined, None);
  }

  /** Parsing the example as written: only the last capture's record survives, so `x` is
      lost and the result differs from the corrected parse. */
  lemma ExampleParseAsWritten(intFromString: Value -> Option<int>)
    requires intFromString(Str("42")) == Some(42)
    ensures ParseAsWritten(ExampleSegments(intFromString), Obj(map["x" := Str("foo"), "y" := Str("42")]))
         == Right(map["y" := Num(42)])
    ensures ParseAsWritten(ExampleSegments(intFromString), Obj(map["x" := Str("foo"), "y" := Str("42")]))
         != Parse(ExampleSegments(intFromString), Obj(map["x" := Str("foo"), "y" := Str("42")]))
  {
    var routeParams := Obj(map["x" := Str("foo"), "y" := Str("42")]);
    ExampleCapturers(intFromString);
    ExampleParseSucceeds(intFromString);
    ParseAsWrittenCharacterised(ExampleSegments(intFromString), routeParams);
    assert map["x" := Str("foo"), "y" := Num(42)] != map["y" := Num(42)] by {
      assert "x" in map["x" := Str("foo"), "y" := Num(42)];
    }
  }
}
