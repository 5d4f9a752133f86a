/** How the middleware hands values to the handlers behind it in the router
    (chiapi/router/router.go): User sits in front of Protected and TraceID in
    front of every handler. The middleware stores under the middleware
    package's own context keys, while the handlers read the identity and
    tracing packages' keys, so nothing reaches them. The intended versions
    store under the keys the handlers read. */
module Wiring {
  import opened Wrappers
  import opened GoStrings
  import opened Uuid
  import opened GoContext
  import opened Http
  import opened Chi
  import opened ChiMiddleware
  import opened Identity
  import opened Handler

  /** As written: behind User, Protected names no user even when the token
      carries an e-mail claim, though the router's test expects the e-mail. */
  lemma ProtectedBehindUserAsWritten(r: Request, jwt: JwtLookup, rc: RouteContext)
    requires rc.WellFormed()
    requires IdentityUser(r.ctx) == "" && EmailClaim(jwt).Some?
    ensures var m := ProtectedReply(User(r, jwt), rc).body.message;
      && m == ProtectedMessage("", RouteParamInt(rc, "id"))
      && m != ProtectedMessage(EmailClaim(jwt).value, RouteParamInt(rc, "id"))
  {
    var email := EmailClaim(jwt).value;
    var forwarded := User(r, jwt);
    assert IdentityUser(forwarded.ctx) == IdentityUser(r.ctx) by {
      assert forwarded.ctx == WithUser(r.ctx, email);
      assert IdentityUserKey != UserKey;
    }
    var id := RouteParamInt(rc, "id");
    assert |ProtectedMessage("", id)| < |ProtectedMessage(email, id)|;
  }

  /** As written, for the middleware's own test (user "my-user"): the handler
      behind User reads "" from the identity package instead. */
  lemma UserTestAsWritten(r: Request, jwt: JwtLookup, user: string)
    requires user == "my-user"
    requires jwt == JwtLookup(Some(Token(true)), map["email" := ClaimString(user)], None)
    requires IdentityUser(r.ctx) == ""
    ensures IdentityUser(User(r, jwt).ctx) == "" != user
  {
    assert EmailClaim(jwt) == Some(user);
    assert User(r, jwt).ctx == WithUser(r.ctx, user);
    assert IdentityUserKey != UserKey;
  }

  /** User as intended: the e-mail claim goes where the handlers look for it. */
  function UserIntended(r: Request, jwt: JwtLookup): (forwarded: Request)
    ensures EmailClaim(jwt).Some? ==> IdentityUser(forwarded.ctx) == EmailClaim(jwt).value
    ensures EmailClaim(jwt).None? ==> forwarded == r
    ensures forwarded == r.WithContext(forwarded.ctx)
  {
    match EmailClaim(jwt)
    case Some(email) => r.WithContext(WithIdentityUser(r.ctx, email))
    case None => r
  }

  /** Behind the intended User, Protected names the e-mail of the token. */
  lemma ProtectedBehindUserIntended(r: Request, jwt: JwtLookup, rc: RouteContext)
    requires rc.WellFormed()
    requires EmailClaim(jwt).Some?
    ensures ProtectedReply(UserIntended(r, jwt), rc).body.message
      == ProtectedMessage(EmailClaim(jwt).value, RouteParamInt(rc, "id"))
  {
  }

  /** As written: behind TraceID, a handler answers with an empty trace id while
      the response header carries the request's X-Trace-Id. */
  lemma HealthBehindTraceIDAsWritten(r: Request, w: Header, newId: UuidBytes)
    requires r.header.Some? && TracingTraceIdKey !in r.ctx
    ensures var s := TraceID(r, w, newId);
      && HealthReply(s.forwarded).body.traceID == ""
      && HeaderGet(s.responseHeader, "X-Trace-Id") != ""
  {
    var s := TraceID(r, w, newId);
    assert s.forwarded.ctx == WithTraceID(r.ctx, ChooseTraceID(r, newId));
    assert TracingTraceIdKey != TraceIdKey;
    assert TracingTraceIdKey !in s.forwarded.ctx;
    TraceIDAgrees(r, w, newId);
  }

  /** TraceID as intended: the id also goes under the tracing package's key. */
  function TraceIDIntended(r: Request, w: Header, newId: UuidBytes): (s: TraceStep)
    ensures GetTraceID(s.forwarded.ctx) == TracingTraceID(s.forwarded.ctx) == HeaderGet(s.responseHeader, "X-Trace-Id")
    ensures s.responseHeader == TraceID(r, w, newId).responseHeader
  {
    var t := ChooseTraceID(r, newId);
    TraceStep(HeaderSet(w, "X-Trace-Id", t), r.WithContext(WithTracingTraceID(WithTraceID(r.ctx, t), t)))
  }

  /** Behind the intended TraceID every handler answers with the id the response
      header carries. */
  lemma HealthBehindTraceIDIntended(r: Request, w: Header, newId: UuidBytes)
    requires r.header.Some?
    ensures var s := TraceIDIntended(r, w, newId);
      && HealthReply(s.forwarded).body.traceID == HeaderGet(s.responseHeader, "X-Trace-Id")
      && HealthReply(s.forwarded).body.traceID != ""
  {
  }
}
