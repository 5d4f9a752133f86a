/** pkg/httputil: http.RoundTripper decorators for outgoing requests. Each one
    adjusts the request (a header, the context) and delegates to the transport it
    wraps; LogTransport also logs the outcome. A chain of decorators is a
    `RoundTripper` value ending in a leaf that actually sends the request. */
module Transport {
  import opened Wrappers
  import opened GoStrings
  import opened Uuid
  import Base64
  import Errors
  import opened Zap
  import opened GoContext
  import opened Http
  import ChiMiddleware

  /** An http.Response as the decorators read it. */
  datatype Response = Response(status: int, header: Header)

  /** The two results of RoundTrip; Go lets both be set at once. */
  datatype Reply = Reply(resp: Option<Response>, err: Option<Errors.Error>)

  /** An outgoing request as a value: method, URL text, header and context. */
  datatype Outgoing = Outgoing(verb: string, url: string, header: Header, ctx: Context)

  /** A chain of round-trippers. A `Leaf` sends the request; leaf 0 is
      http.DefaultTransport. */
  datatype RoundTripper =
    | Leaf(id: nat)
    | SetHeader(key: string, value: string, inner: RoundTripper)
    | TraceIds(inner: RoundTripper)
    | DefaultLog(log: Logger, inner: RoundTripper)
    | LogRequests(inner: RoundTripper)

  const DefaultTransport: RoundTripper := Leaf(0)

  /** `if old == nil { old = http.DefaultTransport }`; None is a nil transport. */
  function OrDefault(given: Option<RoundTripper>): RoundTripper {
    given.GetOr(DefaultTransport)
  }

  /** HeaderTransport(key, value, given) */
  function HeaderTransport(key: string, value: string, given: Option<RoundTripper>): RoundTripper {
    SetHeader(key, value, OrDefault(given))
  }

  /** APIKeyTransport(apiKey, given) */
  function APIKeyTransport(apiKey: string, given: Option<RoundTripper>): RoundTripper {
    HeaderTransport("X-Api-Key", apiKey, Some(OrDefault(given)))
  }

  /** The Authorization value of section 2 of RFC 7617: "Basic " and the base 64
      encoding of the UTF-8 bytes of user-id ':' password. */
  function BasicAuthValue(username: string, password: string): string {
    "Basic " + Base64.Encode(Utf8(username + ":" + password))
  }

  /** BasicAuthTransport(username, password, given) */
  function BasicAuthTransport(username: string, password: string, given: Option<RoundTripper>): RoundTripper {
    HeaderTransport("Authorization", BasicAuthValue(username, password), given)
  }

  /** TraceIDTransport(old) */
  function TraceIDTransport(given: RoundTripper): RoundTripper {
    TraceIds(given)
  }

  /** DefaultLogTransport(log, old) */
  function DefaultLogTransport(log: Logger, given: RoundTripper): RoundTripper {
    DefaultLog(log, given)
  }

  /** LogTransport(old) */
  function LogTransport(given: RoundTripper): RoundTripper {
    LogRequests(given)
  }

  /** What a round trip cannot compute itself: the leaves' replies, the bytes
      uuid.New draws, and the duration time.Since reports. */
  datatype World = World(send: (nat, Outgoing) -> Reply, newId: UuidBytes, elapsed: int)

  /** The request TraceIDTransport hands on: a non-empty context trace id is kept,
      an empty one is replaced by a new UUID that also goes into the context; the
      X-Trace-Id header is set to the id used. */
  function WithOutgoingTraceID(req: Outgoing, newId: UuidBytes): (r: Outgoing)
    ensures r.verb == req.verb && r.url == req.url
    ensures ChiMiddleware.GetTraceID(req.ctx) != "" ==> r.ctx == req.ctx
    ensures ChiMiddleware.GetTraceID(req.ctx) == "" ==>
      r.ctx == ChiMiddleware.WithTraceID(req.ctx, UuidString(newId)) && |ChiMiddleware.GetTraceID(r.ctx)| == 36
    ensures r.header == HeaderSet(req.header, "X-Trace-Id", ChiMiddleware.GetTraceID(r.ctx))
    ensures ChiMiddleware.GetTraceID(r.ctx) != ""
  {
    var traceID := ChiMiddleware.GetTraceID(req.ctx);
    if traceID == "" then
      var id := UuidString(newId);
      Outgoing(req.verb, req.url, HeaderSet(req.header, "X-Trace-Id", id), ChiMiddleware.WithTraceID(req.ctx, id))
    else
      Outgoing(req.verb, req.url, HeaderSet(req.header, "X-Trace-Id", traceID), req.ctx)
  }

  /** The logger LogTransport builds before sending: the context's logger with
      the direction, URL and method. */
  function RequestLog(req: Outgoing): Logger {
    Zap.With(ChiMiddleware.GetLogger(req.ctx), [
      Field("direction", Str("outgoing")),
      Field("url", Str(req.url)),
      Field("method", Str(req.verb))])
  }

  /** The fields LogTransport adds for a response: the status, and the Location
      header only for a 3xx status. */
  function ResponseFields(resp: Response): (fs: seq<Field>)
    ensures 1 <= |fs| <= 2 && fs[0] == Field("status", Int(resp.status))
    ensures (exists i :: 0 <= i < |fs| && fs[i].key == "location") <==> ChiMiddleware.IsRedirect(resp.status)
    ensures |fs| == 2 ==> fs[1] == Field("location", Str(HeaderGet(resp.header, "Location")))
  {
    var status := [Field("status", Int(resp.status))];
    if 300 <= resp.status < 400 then
      var fs := status + [Field("location", Str(HeaderGet(resp.header, "Location")))];
      assert fs[1].key == "location";
      fs
    else
      status
  }

  /** The entries LogTransport writes once the inner transport has returned: a
      "request error" entry when there is an error, then a "request complete"
      entry at the status's level when there is a response. */
  function LogEntries(l: Logger, reply: Reply, elapsed: int): (es: seq<Entry>)
    ensures l.core.Nop? ==> es == []
    ensures l.core.Sink? ==> |es| == (if reply.err.Some? then 1 else 0) + (if reply.resp.Some? then 1 else 0)
    ensures forall e :: e in es ==> e.sink == l.core.id && |e.fields| > |l.fields| && e.fields[..|l.fields|] == l.fields && e.fields[|l.fields|] == Field("duration", Duration(elapsed))
    ensures l.core.Sink? && reply.err.Some? ==>
      es[0] == Entry(l.core.id, Error, "request error", l.fields + [Field("duration", Duration(elapsed)), Field("error", ErrorField(reply.err.value))])
    ensures forall e :: e in es && e.message == "request complete" ==>
      && reply.resp.Some?
      && e.level == ChiMiddleware.StatusLevel(reply.resp.value.status)
      && e.fields == l.fields + [Field("duration", Duration(elapsed))] + ResponseFields(reply.resp.value)
    ensures l.core.Sink? && reply.resp.Some? ==> es[|es| - 1].message == "request complete"
  {
    var timed := Zap.With(l, [Field("duration", Duration(elapsed))]);
    var errs := if reply.err.Some? then Log(timed, Error, "request error", [Field("error", ErrorField(reply.err.value))]) else [];
    var done :=
      if reply.resp.Some? then
        Log(Zap.With(timed, ResponseFields(reply.resp.value)), ChiMiddleware.StatusLevel(reply.resp.value.status), "request complete", [])
      else [];
    assert forall e :: e in errs ==> e.message == "request error";
    errs + done
  }

  /** The outcome of a round trip through a chain: the reply, the request as the
      leaf received it, and the log entries written, in order. */
  datatype TripResult = TripResult(reply: Reply, sent: Outgoing, entries: seq<Entry>)

  /** RoundTrip through a chain, as a value. */
  function Trip(t: RoundTripper, req: Outgoing, w: World): TripResult
    decreases t
  {
    match t
    case Leaf(id) => TripResult(w.send(id, req), req, [])
    case SetHeader(key, value, inner) => Trip(inner, req.(header := HeaderSet(req.header, key, value)), w)
    case TraceIds(inner) => Trip(inner, WithOutgoingTraceID(req, w.newId), w)
    case DefaultLog(log, inner) => Trip(inner, req.(ctx := ChiMiddleware.WithLogger(req.ctx, log)), w)
    case LogRequests(inner) =>
      var r := Trip(inner, req, w);
      r.(entries := r.entries + LogEntries(RequestLog(req), r.reply, w.elapsed))
  }

  /** The leaf at the end of a chain. */
  function Innermost(t: RoundTripper): nat {
    match t
    case Leaf(id) => id
    case SetHeader(_, _, inner) => Innermost(inner)
    case TraceIds(inner) => Innermost(inner)
    case DefaultLog(_, inner) => Innermost(inner)
    case LogRequests(inner) => Innermost(inner)
  }

  /** The header keys the decorators of a chain set. */
  function SetKeys(t: RoundTripper): set<string> {
    match t
    case Leaf(_) => {}
    case SetHeader(key, _, inner) => {key} + SetKeys(inner)
    case TraceIds(inner) => {"X-Trace-Id"} + SetKeys(inner)
    case DefaultLog(_, inner) => SetKeys(inner)
    case LogRequests(inner) => SetKeys(inner)
  }

  /** No decorator changes the reply: a chain returns exactly what its leaf
      returns for the request that reached it, and the method and URL reach the
      leaf unchanged. */
  lemma {:induction false} ReplyIsLeafReply(t: RoundTripper, req: Outgoing, w: World)
    ensures var trip := Trip(t, req, w);
      && trip.reply == w.send(Innermost(t), trip.sent)
      && trip.sent.verb == req.verb && trip.sent.url == req.url
    decreases t
  {
    match t
    case Leaf(_) =>
    case SetHeader(key, value, inner) => ReplyIsLeafReply(inner, req.(header := HeaderSet(req.header, key, value)), w);
    case TraceIds(inner) => ReplyIsLeafReply(inner, WithOutgoingTraceID(req, w.newId), w);
    case DefaultLog(log, inner) => ReplyIsLeafReply(inner, req.(ctx := ChiMiddleware.WithLogger(req.ctx, log)), w);
    case LogRequests(inner) => ReplyIsLeafReply(inner, req, w);
  }

  /** A header no decorator sets reaches the leaf as the caller left it; a header
      one sets reaches it with exactly one value. */
  lemma {:induction false} HeadersOnlyFromDecorators(t: RoundTripper, req: Outgoing, w: World)
    ensures var h := Trip(t, req, w).sent.header;
      && (forall k :: k !in SetKeys(t) ==> (k in h <==> k in req.header) && (k in h ==> h[k] == req.header[k]))
      && (forall k :: k in SetKeys(t) ==> k in h && |h[k]| == 1)
    decreases t
  {
    match t
    case Leaf(_) =>
    case SetHeader(key, value, inner) => HeadersOnlyFromDecorators(inner, req.(header := HeaderSet(req.header, key, value)), w);
    case TraceIds(inner) => HeadersOnlyFromDecorators(inner, WithOutgoingTraceID(req, w.newId), w);
    case DefaultLog(log, inner) => HeadersOnlyFromDecorators(inner, req.(ctx := ChiMiddleware.WithLogger(req.ctx, log)), w);
    case LogRequests(inner) => HeadersOnlyFromDecorators(inner, req, w);
  }

  /** HeaderTransport replaces any value the header had with exactly `value`
      unless a transport further in sets the same header again; a nil `old` (None)
      sends through DefaultTransport. */
  lemma HeaderTransportSets(key: string, value: string, given: Option<RoundTripper>, req: Outgoing, w: World)
    requires key !in SetKeys(OrDefault(given))
    ensures var trip := Trip(HeaderTransport(key, value, given), req, w);
      && key in trip.sent.header && trip.sent.header[key] == [value]
      && HeaderGet(trip.sent.header, key) == value
      && (forall k :: k != key && k !in SetKeys(OrDefault(given)) ==> (k in trip.sent.header <==> k in req.header))
      && (given.None? ==> trip.reply == w.send(0, trip.sent))
  {
    var inner := OrDefault(given);
    var req' := req.(header := HeaderSet(req.header, key, value));
    HeadersOnlyFromDecorators(inner, req', w);
    ReplyIsLeafReply(inner, req', w);
  }

  /** APIKeyTransport sends X-Api-Key with exactly the key given. */
  lemma APIKeyTransportSets(apiKey: string, given: Option<RoundTripper>, req: Outgoing, w: World)
    requires "X-Api-Key" !in SetKeys(OrDefault(given))
    ensures HeaderGet(Trip(APIKeyTransport(apiKey, given), req, w).sent.header, "X-Api-Key") == apiKey
  {
    HeaderTransportSets("X-Api-Key", apiKey, Some(OrDefault(given)), req, w);
  }

  /** BasicAuthTransport sends an Authorization header from which the user-id and
      password are recovered: after "Basic " comes base 64 that decodes to the UTF-8
      bytes of username ':' password. */
  lemma BasicAuthTransportSets(username: string, password: string, given: Option<RoundTripper>, req: Outgoing, w: World)
    requires "Authorization" !in SetKeys(OrDefault(given))
    ensures var v := HeaderGet(Trip(BasicAuthTransport(username, password, given), req, w).sent.header, "Authorization");
      && HasPrefix(v, "Basic ")
      && Base64.Decode(v[6..]) == Some(Utf8(username + ":" + password))
  {
    HeaderTransportSets("Authorization", BasicAuthValue(username, password), given, req, w);
    var v := BasicAuthValue(username, password);
    assert v[6..] == Base64.Encode(Utf8(username + ":" + password));
    Base64.DecodeEncode(Utf8(username + ":" + password));
  }

  /** The credential the transport's test expects for user "test", password "pass". */
  lemma BasicAuthExample(username: string, password: string)
    requires username == "test" && password == "pass"
    ensures BasicAuthValue(username, password) == "Basic " + "dGVzdDpwYXNz"
  {
    var s := username + ":" + password;
    assert s == "test:pass";
    TestPassBytes(s);
    EncodeTestPass(Utf8(s));
  }

  // The UTF-8 bytes of "test:pass".
  lemma TestPassBytes(s: string)
    requires s == "test:pass"
    ensures Utf8(s) == [116, 101, 115, 116, 58, 112, 97, 115, 115]
  {
    Utf8Ascii(s);
  }

  // Their base 64 encoding, one 3-byte group at a time.
  lemma EncodeTestPass(b: seq<byte>)
    requires b == [116, 101, 115, 116, 58, 112, 97, 115, 115]
    ensures Base64.Encode(b) == "dGVzdDpwYXNz"
  {
    assert b[3..][3..] == b[6..];
    assert Base64.Encode(b[6..][3..]) == "";
    assert Base64.Encode(b[6..]) == "YXNz";
    assert Base64.Encode(b[3..]) == "dDpw" + "YXNz";
    assert Base64.Encode(b) == "dGVz" + "dDpwYXNz";
  }

  /** TraceIDTransport in front of a leaf: the leaf gets an X-Trace-Id header
      equal to the trace id in the context it receives, which is the caller's id
      when that was non-empty. */
  lemma TraceIDTransportSends(id: nat, req: Outgoing, w: World)
    ensures var sent := Trip(TraceIDTransport(Leaf(id)), req, w).sent;
      && HeaderGet(sent.header, "X-Trace-Id") == ChiMiddleware.GetTraceID(sent.ctx) != ""
      && (ChiMiddleware.GetTraceID(req.ctx) != "" ==> ChiMiddleware.GetTraceID(sent.ctx) == ChiMiddleware.GetTraceID(req.ctx))
      && (ChiMiddleware.GetTraceID(req.ctx) == "" ==> ChiMiddleware.GetTraceID(sent.ctx) == UuidString(w.newId))
  {
  }

  /** DefaultLogTransport in front of LogTransport: every entry goes to the given
      logger's sink and starts with its fields followed by the request's; a no-op
      logger writes nothing. */
  lemma DefaultLogFeedsLogTransport(log: Logger, id: nat, req: Outgoing, w: World)
    ensures var es := Trip(DefaultLogTransport(log, LogTransport(Leaf(id))), req, w).entries;
      && (log.core.Nop? ==> es == [])
      && (forall e :: e in es ==>
            && e.sink == log.core.id
            && |e.fields| >= |log.fields| + 3
            && e.fields[..|log.fields| + 3] == log.fields + [Field("direction", Str("outgoing")), Field("url", Str(req.url)), Field("method", Str(req.verb))])
  {
    var req' := req.(ctx := ChiMiddleware.WithLogger(req.ctx, log));
    var l := RequestLog(req');
    assert l.fields == log.fields + [Field("direction", Str("outgoing")), Field("url", Str(req.url)), Field("method", Str(req.verb))];
    var inner := Trip(Leaf(id), req', w);
    assert Trip(LogTransport(Leaf(id)), req', w).entries == [] + LogEntries(l, inner.reply, w.elapsed);
    assert Trip(DefaultLogTransport(log, LogTransport(Leaf(id))), req, w).entries == LogEntries(l, w.send(id, req'), w.elapsed);
  }

  // ---------------------------------------------------------------- in place

  /** A request's header map, shared by every copy of the request. */
  class HeaderMap {
    var entries: Header

    constructor (h: Header)
      ensures entries == h
    {
      entries := h;
    }

    /** req.Header.Set(key, value) */
    method Set(key: string, value: string)
      modifies this
      ensures entries == HeaderSet(old(entries), key, value)
    {
      entries := HeaderSet(entries, key, value);
    }
  }

  /** An *http.Request on its way out. req.WithContext copies the request but
      not its header map, so every copy shares `header`. */
  datatype OutRequest = OutRequest(verb: string, url: string, header: HeaderMap, ctx: Context)
  {
    function Value(): Outgoing
      reads header
    {
      Outgoing(verb, url, header.entries, ctx)
    }
  }

  /** What LogTransport logs once the inner transport has returned, step by step:
      the duration, an error entry, then the status (and location) fields and the
      completion entry. */
  method LogOutcome(l: Logger, reply: Reply, elapsed: int) returns (entries: seq<Entry>)
    ensures entries == LogEntries(l, reply, elapsed)
  {
    entries := [];
    var log := Zap.With(l, [Field("duration", Duration(elapsed))]);
    if reply.err.Some? {
      entries := entries + Log(log, Error, "request error", [Field("error", ErrorField(reply.err.value))]);
    }
    ghost var timed := log;
    if reply.resp.Some? {
      var status := reply.resp.value.status;
      log := Zap.With(log, [Field("status", Int(status))]);
      if status >= 300 && status < 400 {
        log := Zap.With(log, [Field("location", Str(HeaderGet(reply.resp.value.header, "Location")))]);
      }
      assert log == Zap.With(timed, ResponseFields(reply.resp.value));
      entries := entries + Log(log, ChiMiddleware.StatusLevel(status), "request complete", []);
    }
  }

  /** rt.RoundTrip(req): the decorators set headers on the caller's own header
      map, so when the call returns the caller's request carries every header
      the chain set. */
  method RoundTrip(t: RoundTripper, req: OutRequest, w: World) returns (reply: Reply, entries: seq<Entry>)
    modifies req.header
    decreases t
    ensures var trip := Trip(t, old(req.Value()), w);
      reply == trip.reply && entries == trip.entries && req.header.entries == trip.sent.header
  {
    match t
    case Leaf(id) =>
      reply := w.send(id, req.Value());
      entries := [];
    case SetHeader(key, value, inner) =>
      req.header.Set(key, value);
      reply, entries := RoundTrip(inner, req, w);
    case TraceIds(inner) =>
      var ctx := req.ctx;
      var traceID := ChiMiddleware.GetTraceID(ctx);
      var forwarded := req;
      if traceID == "" {
        traceID := UuidString(w.newId);
        forwarded := req.(ctx := ChiMiddleware.WithTraceID(ctx, traceID));
      }
      forwarded.header.Set("X-Trace-Id", traceID);
      reply, entries := RoundTrip(inner, forwarded, w);
    case DefaultLog(log, inner) =>
      reply, entries := RoundTrip(inner, req.(ctx := ChiMiddleware.WithLogger(req.ctx, log)), w);
    case LogRequests(inner) =>
      var l := RequestLog(req.Value());
      reply, entries := RoundTrip(inner, req, w);
      var logged := LogOutcome(l, reply, w.elapsed);
      entries := entries + logged;
  }
}
