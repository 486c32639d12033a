/** The Koa request accessors, and the cookie reader: Koa offers no way to list the cookies,
    so their names are pulled out of the raw `Cookie` header with the global regular
    expression `/(.*?)=.*?(?:$|; )/g` and each is looked up in the cookie store. */
module KoaParser {
  import opened Fp
  import opened Values
  import opened Responses
  import opened Middleware
  import opened Parser

  // Accessors

  /** `req.ctx.request.<field>`. */
  function CtxRequestField(req: Record, field: string): Value {
    Prop(Prop(Prop(Obj(req), "ctx"), "request"), field)
  }

  function GetBody(req: Record): (r: Value)
    ensures r == CtxRequestField(req, "body")
  {
    Prop(Prop(Prop(Obj(req), "ctx"), "request"), "body")
  }

  function GetQuery(req: Record): (r: Value)
    ensures r == CtxRequestField(req, "query")
  {
    Prop(Prop(Prop(Obj(req), "ctx"), "request"), "query")
  }

  function GetHeaders(req: Record): (r: Value)
    ensures r == CtxRequestField(req, "headers")
  {
    Prop(Prop(Prop(Obj(req), "ctx"), "request"), "headers")
  }

  /** The accessors hand back the Koa request's field unchanged. */
  lemma AccessorsReadCtxRequest(ctxRequest: map<string, Value>, ctx: map<string, Value>, req: Record)
    requires "ctx" in req && req["ctx"] == Obj(ctx) && "request" in ctx && ctx["request"] == Obj(ctxRequest)
    ensures "body" in ctxRequest ==> GetBody(req) == ctxRequest["body"]
    ensures "query" in ctxRequest ==> GetQuery(req) == ctxRequest["query"]
    ensures "headers" in ctxRequest ==> GetHeaders(req) == ctxRequest["headers"]
    ensures "body" !in ctxRequest ==> GetBody(req) == Undefined
  {
  }

  // The cookie-name pattern

  /** The characters `.` does not match without the `s` flag. */
  predicate IsLineTerminator(c: char) {
    c == '\n' || c == '\r' || c == '\U{2028}' || c == '\U{2029}'
  }

  /** The lazy `.*?(?:$|; )` that follows the `=`, scanning from `v`: the first position
      where the input ends (the match ends there) or `; ` follows (the match ends after
      it), provided no line terminator comes first. */
  function ValueEnd(s: string, v: nat): (r: Option<nat>)
    requires v <= |s|
    ensures r.Some? ==> v <= r.value <= |s|
    decreases |s| - v
  {
    if v == |s| then Some(v)
    else if v + 2 <= |s| && s[v] == ';' && s[v + 1] == ' ' then Some(v + 2)
    else if IsLineTerminator(s[v]) then None
    else ValueEnd(s, v + 1)
  }

  datatype Span = Span(nameEnd: nat, end: nat)

  /** The lazy `(.*?)=` from the start of `s`, with the name tried up to `n`: the first `=`
      after which the rest of the pattern matches, the name not crossing a line terminator. */
  function NameEnd(s: string, n: nat): (r: Option<Span>)
    requires n <= |s|
    ensures r.Some? ==> n <= r.value.nameEnd < r.value.end <= |s|
    decreases |s| - n
  {
    if n == |s| then None
    else if s[n] == '=' && ValueEnd(s, n + 1).Some? then Some(Span(n, ValueEnd(s, n + 1).value))
    else if IsLineTerminator(s[n]) then None
    else NameEnd(s, n + 1)
  }

  datatype Match = Match(start: nat, nameEnd: nat, end: nat)

  /** The leftmost match starting at `start` or later. */
  function FirstMatch(s: string, start: nat): (r: Option<Match>)
    requires start <= |s|
    ensures r.Some? ==> start <= r.value.start <= r.value.nameEnd < r.value.end <= |s|
    decreases |s| - start
  {
    match NameEnd(s[start..], 0)
    case Some(span) => Some(Match(start, start + span.nameEnd, start + span.end))
    case None => if start == |s| then None else FirstMatch(s, start + 1)
  }

  /** `[...s.matchAll(re)].map(m => m[1])`: the first group of every match, each search
      resuming where the previous match ended. The pattern looks only forward, so resuming
      at `end` is matching against `s[end..]`. */
  function CookieNames(s: string): seq<string>
    decreases |s|
  {
    match FirstMatch(s, 0)
    case None => []
    case Some(m) => [s[m.start..m.nameEnd]] + CookieNames(s[m.end..])
  }

  /** `Object.fromEntries(names.map(name => [name, get(name)]))`: a later duplicate
      overwrites an earlier one. */
  function FromEntries(names: seq<string>, get: string -> Value): (r: Record)
    ensures r.Keys == set name | name in names
    ensures forall k :: k in r ==> r[k] == get(k)
    decreases |names|
  {
    if |names| == 0 then map[]
    else
      var init, last := names[..|names| - 1], names[|names| - 1];
      assert names == init + [last];
      FromEntries(init, get)[last := get(last)]
  }

  /** `getCookies(req)`: the `Cookie` header (missing reads as `''`), its names, and each
      name's value from the cookie store. */
  function GetCookies(cookieHeader: Option<string>, cookieGet: string -> Value): Value {
    var header := match cookieHeader case None => "" case Some(h) => h;
    Obj(FromEntries(CookieNames(header), cookieGet))
  }

  /** The cookie input of a request: the header and the store are read from its context. */
  function CookiesInput(cookieHeader: Record -> Option<string>, cookieGet: Record -> string -> Value): GetInput {
    req => GetCookies(cookieHeader(req), cookieGet(req))
  }

  // Well-formed headers

  /** A cookie name the pattern reads back: no `=` and no line terminator. */
  predicate GoodName(name: string) {
    forall i :: 0 <= i < |name| ==> name[i] != '=' && !IsLineTerminator(name[i])
  }

  /** A cookie value the pattern skips over: no `;` and no line terminator. */
  predicate GoodValue(value: string) {
    forall i :: 0 <= i < |value| ==> value[i] != ';' && !IsLineTerminator(value[i])
  }

  datatype Cookie = Cookie(name: string, value: string)

  /** `n1=v1; n2=v2; ...`. */
  function Header(cookies: seq<Cookie>): string {
    if |cookies| == 0 then ""
    else if |cookies| == 1 then cookies[0].name + "=" + cookies[0].value
    else cookies[0].name + "=" + cookies[0].value + "; " + Header(cookies[1..])
  }

  function Names(cookies: seq<Cookie>): (r: seq<string>)
    ensures |r| == |cookies|
    ensures forall i :: 0 <= i < |cookies| ==> r[i] == cookies[i].name
  {
    if |cookies| == 0 then [] else [cookies[0].name] + Names(cookies[1..])
  }

  lemma {:induction false} ValueScan(s: string, v: nat, stop: nat)
    requires v <= stop <= |s|
    requires forall i :: v <= i < stop ==> s[i] != ';' && !IsLineTerminator(s[i])
    ensures ValueEnd(s, v) == ValueEnd(s, stop)
    decreases stop - v
  {
    if v < stop {
      ValueScan(s, v + 1, stop);
    }
  }

  lemma {:induction false} NameScan(s: string, n: nat, stop: nat)
    requires n <= stop <= |s|
    requires forall i :: n <= i < stop ==> s[i] != '=' && !IsLineTerminator(s[i])
    ensures NameEnd(s, n) == NameEnd(s, stop)
    decreases stop - n
  {
    if n < stop {
      NameScan(s, n + 1, stop);
    }
  }

  /** The first match of a header that starts with a well-formed cookie covers exactly
      that cookie and its `; ` separator. */
  lemma FirstCookieMatch(c: Cookie, tail: string)
    requires GoodName(c.name) && GoodValue(c.value)
    requires tail == "" || (|tail| >= 2 && tail[0] == ';' && tail[1] == ' ')
    ensures var s := c.name + "=" + c.value + tail;
      FirstMatch(s, 0) == Some(Match(0, |c.name|, |c.name| + 1 + |c.value| + (if tail == "" then 0 else 2)))
  {
    var s := c.name + "=" + c.value + tail;
    var eq := |c.name|;
    var stop := eq + 1 + |c.value|;
    assert s[eq] == '=';
    ValueScan(s, eq + 1, stop);
    NameScan(s, 0, eq);
    if tail == "" {
      assert stop == |s|;
    } else {
      assert s[stop] == ';' && s[stop + 1] == ' ';
    }
    assert s[0..] == s;
  }

  /** For a header built from well-formed cookies, the names read back are the cookies'
      names, in header order. */
  lemma {:induction false} CookieNamesOfHeader(cookies: seq<Cookie>)
    requires forall i :: 0 <= i < |cookies| ==> GoodName(cookies[i].name) && GoodValue(cookies[i].value)
    ensures CookieNames(Header(cookies)) == Names(cookies)
    decreases |cookies|
  {
    if |cookies| == 0 {
      assert FirstMatch("", 0) == None by {
        assert ""[0..] == "";
      }
    } else {
      var c := cookies[0];
      var first := c.name + "=" + c.value;
      var tail := if |cookies| == 1 then "" else "; " + Header(cookies[1..]);
      var s := first + tail;
      assert Header(cookies) == s;
      FirstCookieMatch(c, tail);
      var end := |c.name| + 1 + |c.value| + (if tail == "" then 0 else 2);
      assert s[0..|c.name|] == c.name;
      if |cookies| == 1 {
        assert s[end..] == "";
        assert FirstMatch("", 0) == None by {
          assert ""[0..] == "";
        }
      } else {
        assert s[end..] == Header(cookies[1..]);
        CookieNamesOfHeader(cookies[1..]);
      }
    }
  }

  /** The names listed in order are the names of the cookies, as a set. */
  lemma NamesAsSet(cookies: seq<Cookie>)
    ensures (set name | name in Names(cookies)) == set c | c in cookies :: c.name
  {
    var names := Names(cookies);
    forall name | name in names ensures name in set c | c in cookies :: c.name {
      var i :| 0 <= i < |names| && names[i] == name;
      assert cookies[i] in cookies;
    }
    forall c | c in cookies ensures c.name in names {
      var i :| 0 <= i < |cookies| && cookies[i] == c;
      assert names[i] == c.name;
    }
  }

  /** The cookies read from a well-formed header: exactly its names, each mapped to the
      cookie store's value for it. */
  lemma CookiesOfHeader(cookies: seq<Cookie>, cookieGet: string -> Value)
    requires forall i :: 0 <= i < |cookies| ==> GoodName(cookies[i].name) && GoodValue(cookies[i].value)
    ensures GetCookies(Some(Header(cookies)), cookieGet).fields.Keys == set c | c in cookies :: c.name
    ensures forall name :: name in GetCookies(Some(Header(cookies)), cookieGet).fields ==>
      GetCookies(Some(Header(cookies)), cookieGet).fields[name] == cookieGet(name)
  {
    CookieNamesOfHeader(cookies);
    NamesAsSet(cookies);
  }

  /** Without a `Cookie` header there are no cookies, and a cookies parser whose codec
      rejects `{}` answers 400 with a body starting `Invalid cookies: `. */
  lemma MissingCookieHeader(cookieHeader: Record -> Option<string>, cookieGet: Record -> string -> Value,
                            codec: Codec, report: Reporter, req: Record)
    requires cookieHeader(req).None?
    requires codec(Obj(map[])).Left?
    ensures CookiesInput(cookieHeader, cookieGet)(req) == Obj(map[])
    ensures var invocation := Cookies(CookiesInput(cookieHeader, cookieGet), codec, report)(req);
      && invocation.Returned?
      && IsMiddlewareResponse(invocation.output)
      && invocation.output.response.value.status == 400
      && invocation.output.response.value.body.Str?
      && HasPrefix(invocation.output.response.value.body.s, "Invalid cookies: ")
  {
    assert FirstMatch("", 0) == None by {
      assert ""[0..] == "";
    }
    DefaultErrorResponse("cookies", report, codec(Obj(map[])).left);
  }
}
