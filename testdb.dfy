/** The `testdb` package: builds a DB over a shared Database by registering the
    package's statements and installing its Logger and NewRelic middleware. */
module TestDb {
  import opened Wrappers
  import opened Errors
  import opened GoContext
  import opened Database
  import opened GoMaps

  /** Where the NewRelic middleware keeps its datastore segment. */
  const SegmentKey: Key := Key(TestDbPkg, "newrelicsegment")

  /** testdb.Logger: Before and After only write log lines (not modelled);
      Before keeps the context and After returns nil. */
  const LoggerMiddleware: Middleware :=
    Middleware(
      (ctx: Context, name: string, stmt: string, args: seq<Arg>) => BeforeReply(ctx, None),
      (ctx: Context, err: Option<Error>, name: string, stmt: string, args: seq<Arg>) => None)

  /** testdb.NewRelic: Before stores a segment naming the statement and its text;
      After ends it and returns nil. */
  const NewRelicMiddleware: Middleware :=
    Middleware(
      (ctx: Context, name: string, stmt: string, args: seq<Arg>) =>
        BeforeReply(WithValue(ctx, SegmentKey, SegmentValue(name, stmt)), None),
      (ctx: Context, err: Option<Error>, name: string, stmt: string, args: seq<Arg>) => None)

  /** The registry after registering `keys` of `stmts` one after another. */
  function RegisterAll(base: map<string, string>, stmts: map<string, string>, keys: seq<string>): map<string, string>
    requires forall k :: k in keys ==> k in stmts
  {
    if keys == [] then base
    else RegisterAll(base, stmts, keys[..|keys| - 1])[keys[|keys| - 1] := stmts[keys[|keys| - 1]]]
  }

  /** Registering some keys leaves the base entries except where a registered key
      overrides them. */
  lemma {:induction false} RegisterAllIsUnion(base: map<string, string>, stmts: map<string, string>, keys: seq<string>)
    requires forall k :: k in keys ==> k in stmts
    ensures RegisterAll(base, stmts, keys) == base + map k | k in keys :: stmts[k]
    decreases |keys|
  {
    if keys != [] {
      var init := keys[..|keys| - 1];
      assert forall k :: k in init ==> k in keys;
      RegisterAllIsUnion(base, stmts, init);
      assert forall k :: k in keys <==> k in init || k == keys[|keys| - 1];
    }
  }

  /** Registering every key, in any iteration order, adds every statement under
      its own key. */
  lemma RegisterAllKeys(base: map<string, string>, stmts: map<string, string>, order: seq<string>)
    requires IsIterationOrder(stmts, order)
    ensures RegisterAll(base, stmts, order) == base + stmts
  {
    RegisterAllIsUnion(base, stmts, order);
    assert (map k | k in order :: stmts[k]) == stmts;
  }

  lemma RegisterAllStep(base: map<string, string>, stmts: map<string, string>, order: seq<string>, i: nat)
    requires IsIterationOrder(stmts, order) && i < |order|
    ensures RegisterAll(base, stmts, order[..i + 1]) == RegisterAll(base, stmts, order[..i])[order[i] := stmts[order[i]]]
  {
    assert order[..i + 1][..i] == order[..i];
  }

  lemma EveryKeyVisited(conn: Conn, stmts: map<string, string>, order: seq<string>)
    requires IsIterationOrder(stmts, order)
    requires forall j :: 0 <= j < |order| ==> Validate(conn, stmts[order[j]]).None?
    ensures forall k :: k in stmts ==> Validate(conn, stmts[k]).None?
  {
    forall k | k in stmts
      ensures Validate(conn, stmts[k]).None?
    {
      var j :| 0 <= j < |order| && order[j] == k;
    }
  }

  /** testdb.DB: a wrapper around the shared Database. */
  class DB {
    const db: Database

    constructor Wrap(db: Database)
      ensures this.db == db
    {
      this.db := db;
    }
  }

  /** initializeStatements: registers the statements in iteration order and stops
      at the first error. On success every statement is registered under its own
      key; on failure only those visited before the failing one are. */
  method InitializeStatements(db: Database, stmts: map<string, string>, order: seq<string>) returns (err: Option<Error>, failedAt: nat)
    requires db.Valid()
    requires IsIterationOrder(stmts, order)
    modifies db`statements
    ensures db.Valid()
    ensures failedAt <= |order|
    ensures forall i :: 0 <= i < failedAt ==> Validate(db.conn, stmts[order[i]]).None?
    ensures err.None? <==> failedAt == |order|
    ensures err.Some? ==> err == Validate(db.conn, stmts[order[failedAt]])
    ensures db.statements == RegisterAll(old(db.statements), stmts, order[..failedAt])
    ensures err.None? ==> db.statements == old(db.statements) + stmts
    ensures err.None? ==> forall k :: k in stmts ==> Validate(db.conn, stmts[k]).None?
  {
    var i := 0;
    while i < |order|
      invariant 0 <= i <= |order|
      invariant db.Valid()
      invariant forall j :: 0 <= j < i ==> Validate(db.conn, stmts[order[j]]).None?
      invariant db.statements == RegisterAll(old(db.statements), stmts, order[..i])
    {
      var k := order[i];
      err := db.RegisterStatement(k, stmts[k]);
      if err.Some? {
        return err, i;
      }
      RegisterAllStep(old(db.statements), stmts, order, i);
      i := i + 1;
    }
    assert order[..i] == order;
    RegisterAllKeys(old(db.statements), stmts, order);
    EveryKeyVisited(db.conn, stmts, order);
    return None, |order|;
  }

  /** testdb.New: on a registration error, no DB and no middleware; otherwise every
      statement registered, Logger then NewRelic installed after what was already
      there, and a DB over the very same Database. */
  method New(db: Database, stmts: map<string, string>, order: seq<string>) returns (r: DB?, err: Option<Error>)
    requires db.Valid()
    requires IsIterationOrder(stmts, order)
    modifies db
    ensures db.Valid()
    ensures err.Some? ==> r == null && db.middleware == old(db.middleware)
    ensures err.Some? ==> exists i :: 0 <= i < |order| && err == Validate(db.conn, stmts[order[i]])
                                     && db.statements == RegisterAll(old(db.statements), stmts, order[..i])
    ensures err.None? ==> r != null && fresh(r) && r.db == db
    ensures err.None? ==> db.statements == old(db.statements) + stmts
    ensures err.None? ==> db.middleware == old(db.middleware) + [LoggerMiddleware, NewRelicMiddleware]
    ensures err.None? ==> forall k :: k in stmts ==> Validate(db.conn, stmts[k]).None?
  {
    var failedAt;
    err, failedAt := InitializeStatements(db, stmts, order);
    if err.Some? {
      return null, err;
    }
    var self := db.With([LoggerMiddleware]);
    self := db.With([NewRelicMiddleware]);
    r := new DB.Wrap(db);
  }

  /** The same backend with its error dropped. */
  function WithoutError(backend: Backend): Backend {
    (c: Context, q: string, a: seq<Arg>) => BackendReply(backend(c, q, a).res, None)
  }

  /** With testdb's middleware installed last, the backend's error has no effect on
      the call: it runs exactly as if the backend had succeeded. */
  lemma InstalledMiddlewareMasksErrors(statements: map<string, string>, pre: seq<Middleware>, ctx: Context,
                                       name: string, args: seq<Arg>, caller: Caller, expand: Expander, backend: Backend)
    requires forall i, c, e, n, s, a :: 0 <= i < |pre| ==> pre[i].after(c, e, n, s, a) == None
    ensures var mws := pre + [LoggerMiddleware, NewRelicMiddleware];
      Pipeline(statements, mws, ctx, name, args, caller, expand, backend)
      == Pipeline(statements, mws, ctx, name, args, caller, expand, WithoutError(backend))
  {
    var mws := pre + [LoggerMiddleware, NewRelicMiddleware];
    forall c, e, n, s, a
      ensures AfterUpTo(mws, |mws|, c, e, n, s, a) == Threading(None)
    {
      NilAftersMask(mws, |mws|, c, e, n, s, a);
    }
  }

  /** ExecContext failing as database/sql does: no result, an error. */
  function FailingBackend(e: Error): Backend {
    (c: Context, q: string, a: seq<Arg>) => BackendReply(None, Some(e))
  }

  /** The context the backend sees behind testdb's middleware. */
  function SegmentContext(ctx: Context, name: string, stmt: string): Context {
    WithValue(ctx, SegmentKey, SegmentValue(name, stmt))
  }

  /** As written: behind Logger and NewRelic a registered statement whose
      arguments expand reaches the backend; its result is returned and its error
      is replaced by nil. A failing expansion is the call's error. */
  lemma InstalledMiddlewareDropsBackendError(statements: map<string, string>, ctx: Context, name: string,
                                             args: seq<Arg>, caller: Caller, expand: Expander, backend: Backend)
    requires name in statements
    ensures var stmt := Annotate(statements[name], caller);
      var x := Expanded(stmt, args, expand);
      var o := Pipeline(statements, [LoggerMiddleware, NewRelicMiddleware], ctx, name, args, caller, expand, backend);
      && (x.Failure? ==> o.res == None && o.err == Some(x.error))
      && (x.Success? ==> o.err == None && o.res == backend(SegmentContext(ctx, name, stmt), x.value.0, x.value.1).res)
  {
    var mws := [LoggerMiddleware, NewRelicMiddleware];
    var stmt := Annotate(statements[name], caller);
    InstalledBeforesSegment(mws, ctx, name, stmt, args);
    var x := Expanded(stmt, args, expand);
    if x.Success? {
      var c := SegmentContext(ctx, name, stmt);
      NilAftersMask(mws, 2, c, backend(c, x.value.0, x.value.1).err, name, x.value.0, x.value.1);
    }
  }

  // testdb's two Before hooks (and their pass-through twins) leave the segment
  // in the context and never fail.
  lemma InstalledBeforesSegment(mws: seq<Middleware>, ctx: Context, name: string, stmt: string, args: seq<Arg>)
    requires mws == [LoggerMiddleware, NewRelicMiddleware] || mws == [LoggerPassThrough, NewRelicPassThrough]
    ensures BeforeUpTo(mws, 2, ctx, name, stmt, args) == Proceeding(SegmentContext(ctx, name, stmt))
  {
    var c := SegmentContext(ctx, name, stmt);
    assert BeforeUpTo(mws, 0, ctx, name, stmt, args) == Proceeding(ctx);
    assert mws[0].before(ctx, name, stmt, args) == BeforeReply(ctx, None);
    assert BeforeUpTo(mws, 1, ctx, name, stmt, args) == Proceeding(ctx);
    assert mws[1].before(ctx, name, stmt, args) == BeforeReply(c, None);
  }

  /** As written, the consequence for Insert: when the arguments expand and
      ExecContext fails, Insert is left with a nil result and a nil error, so it
      calls LastInsertId on nil. */
  lemma InsertAfterFailureHitsNilResult(statements: map<string, string>, ctx: Context, name: string,
                                        args: seq<Arg>, caller: Caller, expand: Expander, e: Error)
    requires name in statements
    requires Expanded(Annotate(statements[name], caller), args, expand).Success?
    ensures var o := Pipeline(statements, [LoggerMiddleware, NewRelicMiddleware], ctx, name, args, caller, expand, FailingBackend(e));
      ReadCount(o.res, o.err, LastInsertId) == NilResultPanic
  {
    InstalledMiddlewareDropsBackendError(statements, ctx, name, args, caller, expand, FailingBackend(e));
  }

  /** The evidently intended hooks: the same Before, and an After that returns the
      error it was given. */
  const LoggerPassThrough: Middleware :=
    Middleware(LoggerMiddleware.before,
      (ctx: Context, err: Option<Error>, name: string, stmt: string, args: seq<Arg>) => err)

  const NewRelicPassThrough: Middleware :=
    Middleware(NewRelicMiddleware.before,
      (ctx: Context, err: Option<Error>, name: string, stmt: string, args: seq<Arg>) => err)

  /** After hooks that pass the error through end the call with the backend's
      error: the first of them aborts on it, or all of them keep nil. */
  lemma {:induction false} PassThroughAftersKeep(mws: seq<Middleware>, k: nat, ctx: Context, err: Option<Error>, name: string, stmt: string, args: seq<Arg>)
    requires 0 < k <= |mws|
    requires forall i, e :: 0 <= i < k ==> mws[i].after(ctx, e, name, stmt, args) == e
    ensures err.Some? ==> AfterUpTo(mws, k, ctx, err, name, stmt, args) == Aborted(0, err.value)
    ensures err.None? ==> AfterUpTo(mws, k, ctx, err, name, stmt, args) == Threading(None)
    decreases k
  {
    if k > 1 {
      PassThroughAftersKeep(mws, k - 1, ctx, err, name, stmt, args);
    }
  }

  /** Corrected: behind pass-through hooks the backend's error is the call's error,
      and on success its result is the call's result. A failing expansion is the
      call's error, as before. */
  lemma PassThroughKeepsBackendError(statements: map<string, string>, ctx: Context, name: string,
                                     args: seq<Arg>, caller: Caller, expand: Expander, backend: Backend)
    requires name in statements
    ensures var stmt := Annotate(statements[name], caller);
      var x := Expanded(stmt, args, expand);
      var o := Pipeline(statements, [LoggerPassThrough, NewRelicPassThrough], ctx, name, args, caller, expand, backend);
      && (x.Failure? ==> o.res == None && o.err == Some(x.error))
      && (x.Success? ==>
            var reply := backend(SegmentContext(ctx, name, stmt), x.value.0, x.value.1);
            o.err == reply.err && (reply.err.None? ==> o.res == reply.res))
  {
    var mws := [LoggerPassThrough, NewRelicPassThrough];
    var stmt := Annotate(statements[name], caller);
    InstalledBeforesSegment(mws, ctx, name, stmt, args);
    var x := Expanded(stmt, args, expand);
    if x.Success? {
      var c := SegmentContext(ctx, name, stmt);
      PassThroughAftersKeep(mws, 2, c, backend(c, x.value.0, x.value.1).err, name, x.value.0, x.value.1);
    }
  }

  /** Corrected, the consequence for Insert: when the arguments expand, a failing
      ExecContext is reported. */
  lemma InsertAfterFailureReportsIt(statements: map<string, string>, ctx: Context, name: string,
                                    args: seq<Arg>, caller: Caller, expand: Expander, e: Error)
    requires name in statements
    requires Expanded(Annotate(statements[name], caller), args, expand).Success?
    ensures var o := Pipeline(statements, [LoggerPassThrough, NewRelicPassThrough], ctx, name, args, caller, expand, FailingBackend(e));
      ReadCount(o.res, o.err, LastInsertId) == Failed(e)
  {
    PassThroughKeepsBackendError(statements, ctx, name, args, caller, expand, FailingBackend(e));
  }

  /** A Go map variable: nil until it is made. */
  datatype GoMap = NilMap | Made(entries: map<string, string>)

  /** m[k] = v: a nil map panics (None); a made map gains the entry. */
  function Assign(m: GoMap, k: string, v: string): (r: Option<GoMap>)
    ensures r.None? <==> m.NilMap?
    ensures r.Some? ==> r.value == Made(m.entries[k := v])
  {
    match m
    case NilMap => None
    case Made(entries) => Some(Made(entries[k := v]))
  }

  const UserInsertName := "user_insert"
  const UserInsertSql := "INSERT INTO users (created_by, updated_by, username) VALUES (?, ?, ?)"
  const UserSelectActiveName := "user_select_active"
  const UserSelectActiveSql := "SELECT id, created_at, updated_at, created_by, updated_by, username FROM users WHERE deleted_at IS NULL"

  /** The statements user.go's init adds. */
  const UserStatements: map<string, string> := map[UserInsertName := UserInsertSql, UserSelectActiveName := UserSelectActiveSql]

  /** user.go's init: two assignments into the package's `statements` map. */
  function InitUserStatements(m: GoMap): Option<GoMap> {
    match Assign(m, UserInsertName, UserInsertSql)
    case None => None
    case Some(m1) => Assign(m1, UserSelectActiveName, UserSelectActiveSql)
  }

  /** As written: the package variable is declared and never made, so init panics. */
  lemma InitOnDeclaredMapPanics()
    ensures InitUserStatements(NilMap) == None
  {
  }

  /** Corrected: on a made, empty map init leaves exactly the two user statements,
      and New registers both of them, in either iteration order. */
  lemma InitOnMadeMapRegistersUsers(base: map<string, string>, order: seq<string>)
    requires order == [UserInsertName, UserSelectActiveName] || order == [UserSelectActiveName, UserInsertName]
    ensures InitUserStatements(Made(map[])) == Some(Made(UserStatements))
    ensures IsIterationOrder(UserStatements, order)
    ensures RegisterAll(base, UserStatements, order) == base + UserStatements
  {
    assert UserInsertName != UserSelectActiveName;
    RegisterAllKeys(base, UserStatements, order);
  }
}
