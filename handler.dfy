/** pkg/tracing and pkg/identity: the context accessors the handlers read. Each
    package has its own private key type, so these keys differ from the
    middleware package's keys of the same name. */
module Identity {
  import opened GoContext

  const TracingTraceIdKey: Key := Key(TracingPkg, "traceID")
  const IdentityUserKey: Key := Key(IdentityPkg, "user")

  /** tracing.FromContext */
  function TracingTraceID(ctx: Context): string {
    StringAt(ctx, TracingTraceIdKey)
  }

  /** tracing.WithTraceID */
  function WithTracingTraceID(ctx: Context, traceID: string): (r: Context)
    ensures TracingTraceID(r) == traceID
    ensures forall k :: k != TracingTraceIdKey ==> (k in r <==> k in ctx) && (k in ctx ==> r[k] == ctx[k])
  {
    WithValue(ctx, TracingTraceIdKey, StringValue(traceID))
  }

  /** identity.FromContext */
  function IdentityUser(ctx: Context): string {
    StringAt(ctx, IdentityUserKey)
  }

  /** identity.WithUser */
  function WithIdentityUser(ctx: Context, user: string): (r: Context)
    ensures IdentityUser(r) == user
    ensures forall k :: k != IdentityUserKey ==> (k in r <==> k in ctx) && (k in ctx ==> r[k] == ctx[k])
  {
    WithValue(ctx, IdentityUserKey, StringValue(user))
  }
}

/** chiapi/handler: each handler settles on a status and a SimpleResponse, and
    writeResponse sends it as XML or JSON depending on the Accept header. */
module Handler {
  import opened Wrappers
  import opened GoStrings
  import opened GoContext
  import opened Http
  import opened Chi
  import opened Identity
  import Errors

  /** SimpleResponse: the trace id and a message. */
  datatype SimpleResponse = SimpleResponse(traceID: string, message: string)

  /** What a handler answers: a status and a SimpleResponse. */
  datatype Reply = Reply(status: int, body: SimpleResponse)

  datatype Format = Xml | Json

  /** writeResponse's choice: XML exactly when Accept starts with "text/xml". */
  function Negotiate(accept: string): (f: Format) {
    if HasPrefix(accept, "text/xml") then Xml else Json
  }

  function ContentType(f: Format): string {
    match f
    case Xml => "text/xml; charset=utf-8"
    case Json => "application/json; charset=utf-8"
  }

  /** The header after writeXMLResponse / writeJSONResponse set theirs. */
  function ResponseHeader(h: Header, f: Format): (r: Header)
    ensures HeaderGet(r, "Content-Type") == ContentType(f)
    ensures HeaderGet(r, "X-Content-Type-Options") == "nosniff"
    ensures forall k :: k != "Content-Type" && k != "X-Content-Type-Options" ==> (k in r <==> k in h) && (k in h ==> r[k] == h[k])
  {
    HeaderSet(HeaderSet(h, "Content-Type", ContentType(f)), "X-Content-Type-Options", "nosniff")
  }

  /** The encoders' escaping of a string: `json` for the inside of a JSON string,
      `attr` for an XML attribute value. */
  datatype Escapes = Escapes(json: string -> string, attr: string -> string)

  /** Characters neither encoder rewrites: printable ASCII other than the quotes,
      the backslash and the markup characters. */
  predicate PlainChar(c: char) {
    ' ' <= c <= '~' && c != '"' && c != '\\' && c != '<' && c != '>' && c != '&' && c != '\''
  }

  predicate Plain(s: string) {
    forall i :: 0 <= i < |s| ==> PlainChar(s[i])
  }

  /** Both encoders leave plain text as it is. */
  ghost predicate FaithfulEscapes(e: Escapes) {
    forall s :: Plain(s) ==> e.json(s) == s && e.attr(s) == s
  }

  /** json.NewEncoder(w).Encode(resp): the object with its two keys, and a newline. */
  function JsonBody(resp: SimpleResponse, e: Escapes): string {
    "{\"trace_id\":\"" + e.json(resp.traceID) + "\",\"message\":\"" + e.json(resp.message) + "\"}\n"
  }

  /** xml.NewEncoder(w).Encode(resp): the trace id as an attribute, the message
      as raw inner XML, no newline. */
  function XmlBody(resp: SimpleResponse, e: Escapes): string {
    "<simpleResponse traceId=\"" + e.attr(resp.traceID) + "\">" + resp.message + "</simpleResponse>"
  }

  function Body(f: Format, resp: SimpleResponse, e: Escapes): string {
    match f
    case Xml => XmlBody(resp, e)
    case Json => JsonBody(resp, e)
  }

  /** The message travels verbatim inside an XML body, between the opening tag
      and the closing one, and that body is never the JSON one. */
  lemma XmlBodyCarriesMessage(resp: SimpleResponse, e: Escapes)
    ensures var b := XmlBody(resp, e);
      var open := "<simpleResponse traceId=\"" + e.attr(resp.traceID) + "\">";
      && b[..|open|] == open
      && b[|open|..|open| + |resp.message|] == resp.message
      && b[|b| - 17..] == "</simpleResponse>"
      && b != JsonBody(resp, e)
  {
    var open := "<simpleResponse traceId=\"" + e.attr(resp.traceID) + "\">";
    var b := XmlBody(resp, e);
    assert b == open + resp.message + "</simpleResponse>";
    assert b[0] == '<' && JsonBody(resp, e)[0] == '{';
  }

  /** writeXMLResponse / writeJSONResponse, after the choice: the two headers,
      then the status, then the encoded body. */
  method WriteEncoded(w: ResponseWriter, f: Format, status: int, resp: SimpleResponse, e: Escapes)
    modifies w
    ensures w.header == ResponseHeader(old(w.header), f)
    ensures old(w.status).None? ==> w.status == Some(status) && w.sentHeader == w.header
    ensures old(w.status).Some? ==> w.status == old(w.status) && w.sentHeader == old(w.sentHeader)
    ensures w.body == old(w.body) + Body(f, resp, e)
  {
    w.Set("Content-Type", ContentType(f));
    w.Set("X-Content-Type-Options", "nosniff");
    w.WriteHeader(status);
    w.Write(Body(f, resp, e));
  }

  /** writeResponse(r, w, status, resp) */
  method WriteResponse(r: Request, w: ResponseWriter, status: int, resp: SimpleResponse, e: Escapes)
    modifies w
    ensures Responded(r, w, Reply(status, resp), e)
  {
    var accept := r.GetHeader("Accept");
    if HasPrefix(accept, "text/xml") {
      WriteEncoded(w, Xml, status, resp, e);
    } else {
      WriteEncoded(w, Json, status, resp, e);
    }
  }

  /** What writeResponse leaves in `w`: the negotiated headers, the status (unless
      one was already sent) and the encoded body after what was written before. */
  twostate predicate Responded(r: Request, w: ResponseWriter, rep: Reply, e: Escapes)
    reads w
  {
    var f := Negotiate(r.GetHeader("Accept"));
    && w.header == ResponseHeader(old(w.header), f)
    && (old(w.status).None? ==> w.status == Some(rep.status) && w.sentHeader == w.header)
    && (old(w.status).Some? ==> w.status == old(w.status) && w.sentHeader == old(w.sentHeader))
    && w.body == old(w.body) + Body(f, rep.body, e)
  }

  /** Negotiation on the Accept header: "text/xml" and anything starting with it
      choose XML; no header, "application/xml" and "application/json" choose JSON. */
  lemma NegotiateChoices(accept: string, rest: string)
    requires accept == "text/xml"
    ensures Negotiate(accept) == Xml && Negotiate(accept + rest) == Xml
    ensures Negotiate("") == Json
    ensures Negotiate("application/xml") == Json && Negotiate("application/json") == Json
    ensures |rest| < 8 ==> Negotiate(rest) == Json
  {
    assert (accept + rest)[..8] == accept;
    assert "application/xml"[0] != accept[0] && "application/json"[0] != accept[0];
  }

  // ---------------------------------------------------------------- handlers

  /** Health: 200 "OK". */
  function HealthReply(r: Request): (rep: Reply)
    ensures rep.status == StatusOK && rep.body.message == "OK"
  {
    Reply(StatusOK, SimpleResponse(TracingTraceID(r.ctx), "OK"))
  }

  /** Cached: 500 when the cache lookup fails, else 200 with the cached value. */
  function CachedReply(r: Request, value: Result<string, Errors.Error>): (rep: Reply)
    ensures value.Failure? <==> rep.status == StatusInternalServerError
    ensures value.Failure? ==> rep.body.message == "error getting value from cache"
    ensures value.Success? ==> rep.status == StatusOK && rep.body.message == value.value
  {
    match value
    case Failure(_) => Reply(StatusInternalServerError, SimpleResponse(TracingTraceID(r.ctx), "error getting value from cache"))
    case Success(v) => Reply(StatusOK, SimpleResponse(TracingTraceID(r.ctx), v))
  }

  /** routeParamInt(ctx, name): the "id" parameter, whatever `name` says, as
      strconv.Atoi reads it with the error dropped. */
  function RouteParamInt(rc: RouteContext, name: string): (n: int)
    requires rc.WellFormed()
    ensures MinInt64 <= n <= MaxInt64
    ensures !AtoiSyntax(URLParam(rc, "id")) ==> n == 0
  {
    Atoi(URLParam(rc, "id"))
  }

  /** routeParamInt reads back any int64 the route carries as its "id", under
      whichever name it is asked for. */
  lemma RouteParamIntReadsId(rc: RouteContext, name: string, i: int)
    requires rc.WellFormed() && MinInt64 <= i <= MaxInt64
    requires URLParam(rc, "id") == FormatInt(i)
    ensures RouteParamInt(rc, name) == i
  {
    AtoiFormatInt(i);
  }

  function ProtectedMessage(user: string, id: int): string {
    "your username is: " + user + "; the id you requested is: " + FormatInt(id)
  }

  /** Protected: 200 naming the user from the identity package and the id. */
  function ProtectedReply(r: Request, rc: RouteContext): (rep: Reply)
    requires rc.WellFormed()
    ensures rep.status == StatusOK
    ensures rep.body.message == ProtectedMessage(IdentityUser(r.ctx), RouteParamInt(rc, "id"))
  {
    Reply(StatusOK, SimpleResponse(TracingTraceID(r.ctx), ProtectedMessage(IdentityUser(r.ctx), RouteParamInt(rc, "id"))))
  }

  /** The Protected message gives back the user and the requested id: the user
      sits between the two fixed phrases and the digits after them read back as
      the id. */
  lemma ProtectedMessageParts(user: string, id: int)
    requires MinInt64 <= id <= MaxInt64
    ensures var m := ProtectedMessage(user, id);
      && m[18..18 + |user|] == user
      && m[18 + |user|..18 + |user| + 27] == "; the id you requested is: "
      && Atoi(m[18 + |user| + 27..]) == id
  {
    PartsOfFour("your username is: ", user, "; the id you requested is: ", FormatInt(id));
    AtoiFormatInt(id);
  }

  // Each part of a four-part concatenation is found at its offset.
  lemma PartsOfFour(a: string, b: string, c: string, d: string)
    ensures var m := a + b + c + d;
      && m[|a|..|a| + |b|] == b
      && m[|a| + |b|..|a| + |b| + |c|] == c
      && m[|a| + |b| + |c|..] == d
  {
    var m := a + b + c + d;
    assert m[|a|..] == b + c + d;
    assert (b + c + d)[..|b|] == b;
    assert m[|a| + |b|..] == c + d;
    assert (c + d)[..|c|] == c;
  }

  /** Unauthorized: 401 "unauthorized". */
  function UnauthorizedReply(r: Request): (rep: Reply)
    ensures rep.status == StatusUnauthorized && rep.body.message == "unauthorized"
  {
    Reply(StatusUnauthorized, SimpleResponse(TracingTraceID(r.ctx), "unauthorized"))
  }

  /** NotFound: 404 "not found". */
  function NotFoundReply(r: Request): (rep: Reply)
    ensures rep.status == StatusNotFound && rep.body.message == "not found"
  {
    Reply(StatusNotFound, SimpleResponse(TracingTraceID(r.ctx), "not found"))
  }

  /** Every handler answers with the tracing package's trace id of the request,
      "" when there is none. */
  lemma RepliesCarryTraceID(r: Request, rc: RouteContext, value: Result<string, Errors.Error>)
    requires rc.WellFormed()
    ensures var t := TracingTraceID(r.ctx);
      && HealthReply(r).body.traceID == t
      && CachedReply(r, value).body.traceID == t
      && ProtectedReply(r, rc).body.traceID == t
      && UnauthorizedReply(r).body.traceID == t
      && NotFoundReply(r).body.traceID == t
    ensures TracingTraceIdKey !in r.ctx ==> TracingTraceID(r.ctx) == ""
  {
  }

  /** The handlers as they run: one reply, written once. */
  method Health(w: ResponseWriter, r: Request, e: Escapes)
    modifies w
    ensures Responded(r, w, HealthReply(r), e)
  {
    var rep := HealthReply(r);
    WriteResponse(r, w, rep.status, rep.body, e);
  }

  /** `value` is what h.cache.GetValue returned. */
  method Cached(w: ResponseWriter, r: Request, value: Result<string, Errors.Error>, e: Escapes)
    modifies w
    ensures Responded(r, w, CachedReply(r, value), e)
  {
    var traceID := TracingTraceID(r.ctx);
    if value.Failure? {
      WriteResponse(r, w, StatusInternalServerError, SimpleResponse(traceID, "error getting value from cache"), e);
      return;
    }
    WriteResponse(r, w, StatusOK, SimpleResponse(traceID, value.value), e);
  }

  /** `rc` is the route context routing stored in the request's context. */
  method Protected(w: ResponseWriter, r: Request, rc: RouteContext, e: Escapes)
    requires rc.WellFormed()
    modifies w
    ensures Responded(r, w, ProtectedReply(r, rc), e)
  {
    var user := IdentityUser(r.ctx);
    var traceID := TracingTraceID(r.ctx);
    var id := RouteParamInt(rc, "id");
    WriteResponse(r, w, StatusOK, SimpleResponse(traceID, ProtectedMessage(user, id)), e);
  }

  method Unauthorized(w: ResponseWriter, r: Request, e: Escapes)
    modifies w
    ensures Responded(r, w, UnauthorizedReply(r), e)
  {
    WriteResponse(r, w, StatusUnauthorized, SimpleResponse(TracingTraceID(r.ctx), "unauthorized"), e);
  }

  method NotFound(w: ResponseWriter, r: Request, e: Escapes)
    modifies w
    ensures Responded(r, w, NotFoundReply(r), e)
  {
    WriteResponse(r, w, StatusNotFound, SimpleResponse(TracingTraceID(r.ctx), "not found"), e);
  }

  // ---------------------------------------------------------------- examples

  /** The JSON body the handler test expects for Health with trace id
      "my-trace-id", written out in the pieces the encoder emits. */
  lemma HealthJsonExample(r: Request, e: Escapes, traceID: string)
    requires FaithfulEscapes(e)
    requires traceID == "my-trace-id"
    requires TracingTraceID(r.ctx) == traceID
    ensures JsonBody(HealthReply(r).body, e) == "{\"trace_id\":\"" + "my-trace-id" + "\",\"message\":\"" + "OK" + "\"}\n"
  {
    PlainExamples(traceID, "OK");
  }

  /** The XML body the handler test expects for Health with trace id
      "my-trace-id", written out in the pieces the encoder emits. */
  lemma HealthXmlExample(r: Request, e: Escapes, traceID: string)
    requires FaithfulEscapes(e)
    requires traceID == "my-trace-id"
    requires TracingTraceID(r.ctx) == traceID
    ensures XmlBody(HealthReply(r).body, e) == "<simpleResponse traceId=\"" + "my-trace-id" + "\">" + "OK" + "</simpleResponse>"
  {
    PlainExamples(traceID, "OK");
  }

  // The trace id and the message of the Health examples are plain text.
  lemma PlainExamples(traceID: string, ok: string)
    requires traceID == "my-trace-id" && ok == "OK"
    ensures Plain(traceID) && Plain(ok)
  {
  }

  /** The message the Protected test expects for user "my-user-name" and id "1". */
  lemma ProtectedExample(r: Request, user: string, one: string)
    requires user == "my-user-name" && one == "1"
    requires IdentityUser(r.ctx) == user
    ensures ProtectedReply(r, RouteContext(["id"], [one], [])).body.message
      == "your username is: " + "my-user-name" + "; the id you requested is: " + "1"
  {
    var rc := RouteContext(["id"], [one], []);
    assert URLParam(rc, "id") == one;
    assert FormatInt(1) == one;
    RouteParamIntReadsId(rc, "id", 1);
  }
}
