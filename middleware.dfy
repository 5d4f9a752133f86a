/** The part of the chi router the middleware and handlers read: the route context
    holding the URL parameters and the route patterns matched by routing. */
module Chi {

  /** chi.Context. Routing appends keys and values pairwise. */
  datatype RouteContext = RouteContext(keys: seq<string>, values: seq<string>, patterns: seq<string>)
  {
    predicate WellFormed() {
      |keys| == |values|
    }
  }

  /** The index of the last `x` in `xs`, or -1. */
  function LastIndexOf(xs: seq<string>, x: string): (r: int)
    ensures -1 <= r < |xs|
    ensures r == -1 <==> x !in xs
    ensures r >= 0 ==> xs[r] == x && x !in xs[r + 1..]
  {
    if xs == [] then -1
    else if xs[|xs| - 1] == x then |xs| - 1
    else
      var r := LastIndexOf(xs[..|xs| - 1], x);
      assert xs[..|xs| - 1] + [xs[|xs| - 1]] == xs;
      assert r >= 0 ==> xs[r + 1..] == xs[..|xs| - 1][r + 1..] + [xs[|xs| - 1]];
      r
  }

  /** (*chi.Context).URLParam: the value of the last parameter named `key`, or "". */
  function URLParam(rc: RouteContext, key: string): (v: string)
    requires rc.WellFormed()
    ensures key !in rc.keys ==> v == ""
    ensures key in rc.keys ==> exists i :: 0 <= i < |rc.keys| && rc.keys[i] == key && v == rc.values[i] && key !in rc.keys[i + 1..]
  {
    var i := LastIndexOf(rc.keys, key);
    if i < 0 then "" else rc.values[i]
  }
}

/** chiapi/middleware: the request middleware and the context accessors of the
    middleware package. */
module ChiMiddleware {
  import opened Wrappers
  import opened Errors
  import opened GoStrings
  import opened Uuid
  import opened Zap
  import opened GoContext
  import opened Http
  import opened Chi

  /** The middleware package's own context keys. */
  const LoggerKey: Key := Key(MiddlewarePkg, "logger")
  const TraceIdKey: Key := Key(MiddlewarePkg, "traceID")
  const UserKey: Key := Key(MiddlewarePkg, "user")

  /** GetLogger: the stored logger, or a no-op logger. */
  function GetLogger(ctx: Context): Logger {
    if LoggerKey in ctx && ctx[LoggerKey].LoggerValue? then ctx[LoggerKey].l else NewNop()
  }

  /** WithLogger: GetLogger then returns `l`; every other key keeps its value. */
  function WithLogger(ctx: Context, l: Logger): (r: Context)
    ensures GetLogger(r) == l
    ensures forall k :: k != LoggerKey ==> (k in r <==> k in ctx) && (k in ctx ==> r[k] == ctx[k])
  {
    WithValue(ctx, LoggerKey, LoggerValue(l))
  }

  /** GetTraceID: the stored trace id, or "". */
  function GetTraceID(ctx: Context): string {
    StringAt(ctx, TraceIdKey)
  }

  function WithTraceID(ctx: Context, traceID: string): (r: Context)
    ensures GetTraceID(r) == traceID
    ensures forall k :: k != TraceIdKey ==> (k in r <==> k in ctx) && (k in ctx ==> r[k] == ctx[k])
  {
    WithValue(ctx, TraceIdKey, StringValue(traceID))
  }

  /** GetUser: the stored user, or "". */
  function GetUser(ctx: Context): string {
    StringAt(ctx, UserKey)
  }

  function WithUser(ctx: Context, user: string): (r: Context)
    ensures GetUser(r) == user
    ensures forall k :: k != UserKey ==> (k in r <==> k in ctx) && (k in ctx ==> r[k] == ctx[k])
  {
    WithValue(ctx, UserKey, StringValue(user))
  }

  /** Nothing stored reads as the defaults. */
  lemma EmptyContextDefaults()
    ensures GetLogger(Background()) == NewNop()
    ensures GetTraceID(Background()) == ""
    ensures GetUser(Background()) == ""
  {
  }

  // ---------------------------------------------------------------- Logger

  /** The log level for a response status, shared by the Logger middleware and
      LogTransport. */
  function StatusLevel(status: int): (lvl: Level)
    ensures lvl == Info <==> status < 400
    ensures lvl == Warn <==> 400 <= status < 500
    ensures lvl == Error <==> status >= 500
  {
    if status < 400 then Info else if status < 500 then Warn else Error
  }

  function Severity(lvl: Level): nat {
    match lvl
    case Debug => 0
    case Info => 1
    case Warn => 2
    case Error => 3
  }

  /** A worse status never logs at a milder level. */
  lemma StatusLevelMonotonic(s1: int, s2: int)
    requires s1 <= s2
    ensures Severity(StatusLevel(s1)) <= Severity(StatusLevel(s2))
  {
  }

  predicate IsRedirect(status: int) {
    300 <= status < 400
  }

  // The route pattern: the matched patterns joined, with every "/*" removed.
  function RoutePattern(patterns: seq<string>): (r: string)
    ensures |r| <= |Concat(patterns)|
  {
    RemoveAll(Concat(patterns), "/*")
  }

  // When no pattern ends in '/', normalising distributes over the patterns: each
  // pattern loses its own "/*" and nothing else.
  lemma {:induction false} RoutePatternAppend(patterns: seq<string>, p: string)
    requires forall i :: 0 <= i < |patterns| ==> patterns[i] != [] && patterns[i][|patterns[i]| - 1] != '/'
    ensures RoutePattern(patterns + [p]) == RoutePattern(patterns) + RemoveAll(p, "/*")
    decreases |patterns|
  {
    var c := Concat(patterns);
    assert (patterns + [p])[..|patterns|] == patterns;
    assert Concat(patterns + [p]) == c + p;
    if patterns != [] {
      ConcatLast(patterns);
    }
    RemoveSlashStarAppend(c, p);
  }

  lemma ConcatLast(patterns: seq<string>)
    requires patterns != [] && patterns[|patterns| - 1] != []
    ensures Concat(patterns) != [] && Concat(patterns)[|Concat(patterns)| - 1] == patterns[|patterns| - 1][|patterns[|patterns| - 1]| - 1]
  {
  }

  lemma ConcatSingle(p: string)
    ensures Concat([p]) == p
  {
    assert [p][..0] == [];
  }

  /** The route patterns chi reports for the service's routes: /health, an
      unmatched /protected/ path, /protected/{id}, and no route at all. */
  lemma RoutePatternHealth()
    ensures RoutePattern(["/health"]) == "/health"
  {
    ConcatSingle("/health");
    NoSlashStar("/health");
  }

  lemma RoutePatternProtected()
    ensures RoutePattern(["/protected/*"]) == "/protected"
  {
    ConcatSingle("/protected/*");
    assert "/protected/*" == "/protected" + "/*";
    RemoveSlashStarAppend("/protected", "/*");
    NoSlashStar("/protected");
    assert RemoveAll("/*", "/*") == RemoveAll("", "/*") == "";
  }

  lemma RoutePatternPair(first: string, second: string)
    requires first != [] && first[|first| - 1] != '/'
    ensures RoutePattern([first, second]) == RoutePattern([first]) + RemoveAll(second, "/*")
  {
    RoutePatternAppend([first], second);
    assert [first] + [second] == [first, second];
  }

  lemma ProtectedIdLiteral()
    ensures "/protected" + "/{id:[0-9]+}" == "/protected/{id:[0-9]+}"
  {
    var whole := "/protected/{id:[0-9]+}";
    assert whole[..10] == "/protected" && whole[10..] == "/{id:[0-9]+}";
    assert whole[..10] + whole[10..] == whole;
  }

  lemma RoutePatternProtectedId(first: string, id: string)
    requires first == "/protected/*" && id == "/{id:[0-9]+}"
    ensures RoutePattern([first, id]) == "/protected/{id:[0-9]+}"
  {
    RoutePatternPair(first, id);
    RoutePatternProtected();
    NoSlashStar(id);
    ProtectedIdLiteral();
  }

  lemma RoutePatternNone()
    ensures RoutePattern([]) == ""
  {
  }

  /** What the wrapped response writer reports once `next` has served the request,
      and the route patterns routing recorded. */
  datatype Served = Served(status: int, bytes: int, header: Header, patterns: seq<string>)

  /** The request-scoped logger: the base logger with the request's fields. */
  function RequestLogger(log: Logger, r: Request, traceID: string): (l: Logger)
    ensures l.core == log.core && |l.fields| == |log.fields| + 6 && l.fields[..|log.fields|] == log.fields
    ensures l.fields[|log.fields|..] == [
      Field("trace_id", Str(traceID)),
      Field("method", Str(r.verb)),
      Field("path", Str(r.path)),
      Field("query", Str(r.rawQuery)),
      Field("referer", Str(r.GetHeader("Referer"))),
      Field("user_agent", Str(r.GetHeader("User-Agent")))]
  {
    Zap.With(log, [
      Field("trace_id", Str(traceID)),
      Field("method", Str(r.verb)),
      Field("path", Str(r.path)),
      Field("query", Str(r.rawQuery)),
      Field("referer", Str(r.GetHeader("Referer"))),
      Field("user_agent", Str(r.GetHeader("User-Agent")))])
  }

  /** The fields Logger adds once `next` has returned. */
  function CompletionFields(s: Served, elapsed: int): (fs: seq<Field>)
    ensures |fs| >= 4 && fs[0] == Field("route_pattern", Str(RoutePattern(s.patterns)))
    ensures (exists i :: 0 <= i < |fs| && fs[i].key == "location") <==> IsRedirect(s.status)
    ensures IsRedirect(s.status) ==> fs[1] == Field("location", Str(HeaderGet(s.header, "Location")))
    ensures fs[|fs| - 3..] == [Field("status", Int(s.status)), Field("bytes", Int(s.bytes)), Field("duration", Duration(elapsed))]
  {
    var head := [Field("route_pattern", Str(RoutePattern(s.patterns)))];
    var location := if IsRedirect(s.status) then [Field("location", Str(HeaderGet(s.header, "Location")))] else [];
    var tail := [Field("status", Int(s.status)), Field("bytes", Int(s.bytes)), Field("duration", Duration(elapsed))];
    var fs := head + location + tail;
    assert fs[|fs| - 3..] == tail;
    assert IsRedirect(s.status) ==> fs[1].key == "location";
    assert !IsRedirect(s.status) ==> fs == head + tail;
    fs
  }

  /** What one request through Logger does: the request handed to `next` (once)
      and the log entries written afterwards. */
  datatype LoggerRun = LoggerRun(forwarded: Request, entries: seq<Entry>)

  /** Logger(log)(next): `next` gets the request with the request logger in its
      context; one "request complete" entry then goes out at the level of the
      status, carrying the request fields and the completion fields. */
  function Logger(log: Logger, r: Request, next: Request -> Served, elapsed: int): (run: LoggerRun)
    ensures run.forwarded == r.WithContext(run.forwarded.ctx)
    ensures GetLogger(run.forwarded.ctx) == RequestLogger(log, r, GetTraceID(r.ctx))
    ensures forall k :: k != LoggerKey ==> (k in run.forwarded.ctx <==> k in r.ctx) && (k in r.ctx ==> run.forwarded.ctx[k] == r.ctx[k])
    ensures |run.entries| <= 1 && (run.entries != [] <==> log.core.Sink?)
    ensures forall e :: e in run.entries ==>
      && e.level == StatusLevel(next(run.forwarded).status)
      && e.message == "request complete"
      && e.fields == RequestLogger(log, r, GetTraceID(r.ctx)).fields + CompletionFields(next(run.forwarded), elapsed)
  {
    var l := RequestLogger(log, r, GetTraceID(r.ctx));
    var forwarded := r.WithContext(WithLogger(r.ctx, l));
    var served := next(forwarded);
    var done := Zap.With(l, CompletionFields(served, elapsed));
    LoggerRun(forwarded, Log(done, StatusLevel(served.status), "request complete", []))
  }

  // ---------------------------------------------------------------- TraceID

  /** The trace id TraceID settles on: "" for a nil header map, the X-Trace-Id
      header when it is non-empty, else a new UUID in its text form. */
  function ChooseTraceID(r: Request, newId: UuidBytes): (t: string)
    ensures r.header.None? ==> t == ""
    ensures r.header.Some? && r.GetHeader("X-Trace-Id") != "" ==> t == r.GetHeader("X-Trace-Id")
    ensures r.header.Some? && r.GetHeader("X-Trace-Id") == "" ==> t == UuidString(newId) && |t| == 36
  {
    if r.header.None? then ""
    else
      var t := r.GetHeader("X-Trace-Id");
      if t == "" then UuidString(newId) else t
  }

  /** What TraceID does before calling `next`: the response header it sets and the
      request it forwards. */
  datatype TraceStep = TraceStep(responseHeader: Header, forwarded: Request)

  function TraceID(r: Request, w: Header, newId: UuidBytes): (s: TraceStep)
    ensures s.responseHeader == HeaderSet(w, "X-Trace-Id", ChooseTraceID(r, newId))
    ensures s.forwarded == r.WithContext(WithTraceID(r.ctx, ChooseTraceID(r, newId)))
  {
    var t := ChooseTraceID(r, newId);
    TraceStep(HeaderSet(w, "X-Trace-Id", t), r.WithContext(WithTraceID(r.ctx, t)))
  }

  /** The response header and the context carry the same id. */
  lemma TraceIDAgrees(r: Request, w: Header, newId: UuidBytes)
    ensures var s := TraceID(r, w, newId);
      HeaderGet(s.responseHeader, "X-Trace-Id") == GetTraceID(s.forwarded.ctx)
  {
  }

  /** The two cases the middleware's tests exercise: an empty header gets a
      36-character id, and a set header is kept. */
  lemma TraceIDExamples(h: Header, newId: UuidBytes, ctx: Context)
    ensures var r := Request("GET", "", "", Some(map[]), map[], ctx);
      |HeaderGet(TraceID(r, h, newId).responseHeader, "X-Trace-Id")| == 36
    ensures var r := Request("GET", "", "", Some(map["X-Trace-Id" := ["my-cool-trace-id"]]), map[], ctx);
      HeaderGet(TraceID(r, h, newId).responseHeader, "X-Trace-Id") == "my-cool-trace-id"
  {
  }

  // ---------------------------------------------------------------- User and Authenticator

  /** A JWT claim value: a string or anything else. */
  datatype ClaimValue = ClaimString(s: string) | ClaimOther(tag: nat)

  datatype Token = Token(valid: bool)

  /** What jwtauth.FromContext returns for a request: the token (nil when absent),
      its claims, and an error. */
  datatype JwtLookup = JwtLookup(token: Option<Token>, claims: map<string, ClaimValue>, err: Option<Error>)

  /** The e-mail claim, when it is a non-empty string. */
  function EmailClaim(jwt: JwtLookup): (e: Option<string>)
    ensures e.Some? <==> "email" in jwt.claims && jwt.claims["email"].ClaimString? && jwt.claims["email"].s != ""
    ensures e.Some? ==> e.value == jwt.claims["email"].s
  {
    if "email" in jwt.claims && jwt.claims["email"].ClaimString? && jwt.claims["email"].s != "" then
      Some(jwt.claims["email"].s)
    else None
  }

  /** User(next): the request `next` gets. The lookup error is ignored. */
  function User(r: Request, jwt: JwtLookup): (forwarded: Request)
    ensures EmailClaim(jwt).Some? ==> forwarded == r.WithContext(WithUser(r.ctx, EmailClaim(jwt).value))
    ensures EmailClaim(jwt).None? ==> forwarded == r
  {
    match EmailClaim(jwt)
    case Some(email) => r.WithContext(WithUser(r.ctx, email))
    case None => r
  }

  /** Inside `next`, GetUser reads the e-mail claim, or what was there before. */
  lemma UserSeesEmail(r: Request, jwt: JwtLookup)
    ensures EmailClaim(jwt).Some? ==> GetUser(User(r, jwt).ctx) == EmailClaim(jwt).value
    ensures EmailClaim(jwt).None? ==> GetUser(User(r, jwt).ctx) == GetUser(r.ctx)
  {
  }

  /** The unauthorized handler in force: the caller's, or the default one. */
  datatype UnauthorizedHandler = DefaultUnauthorized | GivenUnauthorized(id: nat)

  /** Which handler serves the request: exactly one of them. */
  datatype Gate = RunNext | RunUnauthorized(handler: UnauthorizedHandler)

  function UnauthorizedFor(given: Option<nat>): (h: UnauthorizedHandler)
    ensures given.None? <==> h == DefaultUnauthorized
  {
    match given
    case None => DefaultUnauthorized
    case Some(id) => GivenUnauthorized(id)
  }

  /** Authenticator(unauthorized)(next): `next` runs only for a valid token found
      without error; every other request goes to the unauthorized handler. */
  function Authenticator(unauthorized: Option<nat>, jwt: JwtLookup): (g: Gate)
    ensures g == RunNext <==> jwt.err.None? && jwt.token.Some? && jwt.token.value.valid
    ensures g != RunNext ==> g == RunUnauthorized(UnauthorizedFor(unauthorized))
  {
    if jwt.err.Some? then RunUnauthorized(UnauthorizedFor(unauthorized))
    else if jwt.token.None? || !jwt.token.value.valid then RunUnauthorized(UnauthorizedFor(unauthorized))
    else RunNext
  }

  /** The default unauthorized handler: a plain-text 401 with body "unauthorized\n". */
  method WriteDefaultUnauthorized(w: ResponseWriter)
    modifies w
    ensures w.header == HeaderSet(HeaderSet(old(w.header), "Content-Type", "text/plain; charset=utf-8"), "X-Content-Type-Options", "nosniff")
    ensures HeaderGet(w.header, "Content-Type") == "text/plain; charset=utf-8"
    ensures HeaderGet(w.header, "X-Content-Type-Options") == "nosniff"
    ensures old(w.status).None? ==> w.status == Some(StatusUnauthorized) && w.sentHeader == w.header
    ensures old(w.status).Some? ==> w.status == old(w.status) && w.sentHeader == old(w.sentHeader)
    ensures w.body == old(w.body) + "unauthorized\n"
  {
    w.Set("Content-Type", "text/plain; charset=utf-8");
    w.Set("X-Content-Type-Options", "nosniff");
    w.WriteHeader(StatusUnauthorized);
    w.Write("unauthorized\n");
  }

  // ---------------------------------------------------------------- Version

  /** Version(v)(next): the response header before `next` runs. The request and the
      status are left to `next`. */
  function Version(v: string, w: Header): (r: Header)
    ensures "X-Version" in r && r["X-Version"] == [v] && HeaderGet(r, "X-Version") == v
    ensures forall k :: k != "X-Version" ==> (k in r <==> k in w) && (k in w ==> r[k] == w[k])
  {
    HeaderSet(w, "X-Version", v)
  }

  /** Applying Version twice leaves only the later value. */
  lemma VersionReplaces(v1: string, v2: string, w: Header)
    ensures Version(v2, Version(v1, w)) == Version(v2, w)
  {
  }
}
