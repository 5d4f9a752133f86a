/** The statement registry and middleware pipeline of the vendored `database`
    package: a Database owns a name-to-SQL map and an ordered list of middleware,
    and runs a registered statement through Before hooks, the backend and After
    hooks. The driver (Ping, Preparex, ExecContext, SelectContext, GetContext),
    sqlx.In, runtime.Caller and the middleware hooks are collaborators whose
    behaviour is given to the model as functions. */
module Database {
  import opened Wrappers
  import opened Errors
  import opened GoStrings
  import opened GoContext

  /** A query argument (a Go interface{} value). */
  datatype Arg = IntArg(i: int) | StringArg(s: string) | SliceArg(items: seq<Arg>)

  /** What a Before hook returns: a context and an error. */
  datatype BeforeReply = BeforeReply(ctx: Context, err: Option<Error>)

  /** A Middleware: its two hooks, as functions of what they are given
      (context, statement name, statement text, arguments). */
  datatype Middleware = Middleware(
    before: (Context, string, string, seq<Arg>) -> BeforeReply,
    after: (Context, Option<Error>, string, string, seq<Arg>) -> Option<Error>)

  /** A sql.Result: its two accessors, each of which can fail. */
  datatype SqlResult = SqlResult(lastInsertId: Result<int, Error>, rowsAffected: Result<int, Error>)

  /** What a backend call returns. SelectContext and GetContext return only an
      error; they are backends whose `res` is None. */
  datatype BackendReply = BackendReply(res: Option<SqlResult>, err: Option<Error>)

  /** ExecContext, SelectContext or GetContext of the DB or of a Tx. */
  type Backend = (Context, string, seq<Arg>) -> BackendReply

  /** sqlx.In: the rebound query and flattened arguments, or an error. */
  type Expander = (string, seq<Arg>) -> Result<(string, seq<Arg>), Error>

  /** What Preparex does with a statement: fail, return a nil statement (as mocks
      do), or return a statement whose Close may fail. */
  datatype Prepared = PrepareFailed(err: Error) | NilStatement | PreparedStatement(closeErr: Option<Error>)

  /** The DB collaborator: the result of Ping and the behaviour of Preparex. */
  datatype Conn = Conn(ping: Option<Error>, prepare: string -> Prepared)

  /** What runtime.Caller(3) reports: the file and line of the public method's caller. */
  datatype Caller = Caller(file: string, line: int)

  /** The collaborators one call reaches, in order. */
  datatype Step =
    | BeforeHook(index: nat)
    | ExpandArgs
    | BackendCall(query: string, args: seq<Arg>)
    | AfterHook(index: nat)

  /** The result of exec / execSelect / execGet and the steps it took. */
  datatype Outcome = Outcome(res: Option<SqlResult>, err: Option<Error>, steps: seq<Step>)

  /** ValidateStatement: Preparex's error, else Close's error, else nil. */
  function Validate(conn: Conn, statement: string): (err: Option<Error>)
    ensures conn.prepare(statement).PrepareFailed? ==> err == Some(conn.prepare(statement).err)
    ensures conn.prepare(statement).NilStatement? ==> err == None
    ensures conn.prepare(statement).PreparedStatement? ==> err == conn.prepare(statement).closeErr
  {
    match conn.prepare(statement)
    case PrepareFailed(e) => Some(e)
    case NilStatement => None
    case PreparedStatement(closeErr) => closeErr
  }

  /** getStatement's trimming of the caller's path to its last two segments. */
  function TrimCallerPath(file: string): string {
    var idx := LastIndexByte(file, '/');
    var idx2 := if idx != -1 then LastIndexByte(file[..idx], '/') else -1;
    if idx2 != -1 then file[idx2 + 1..] else file
  }

  /** Number of '/' in a path. */
  function Slashes(s: string): nat {
    multiset(s)['/']
  }

  // Counting '/' distributes over concatenation.
  lemma SlashesConcat(a: string, b: string)
    ensures Slashes(a + b) == Slashes(a) + Slashes(b)
  {
    assert multiset(a + b) == multiset(a) + multiset(b);
  }

  lemma NoSlashes(s: string)
    requires '/' !in s
    ensures Slashes(s) == 0
  {
    assert '/' !in multiset(s);
  }

  // A path segment that starts with the only '/' it holds.
  lemma OneSlash(s: string)
    requires |s| > 0 && s[0] == '/' && '/' !in s[1..]
    ensures Slashes(s) == 1
  {
    assert s == [s[0]] + s[1..];
    SlashesConcat([s[0]], s[1..]);
    NoSlashes(s[1..]);
  }

  // A path with a '/' and none before its last one holds exactly one.
  lemma OnlySlash(file: string, idx: nat)
    requires idx < |file| && file[idx] == '/' && '/' !in file[idx + 1..] && '/' !in file[..idx]
    ensures Slashes(file) == 1
  {
    assert file == file[..idx] + file[idx..];
    assert file[idx..][1..] == file[idx + 1..];
    OneSlash(file[idx..]);
    NoSlashes(file[..idx]);
    SlashesConcat(file[..idx], file[idx..]);
  }

  // A path with two '/' at idx2 < idx and none after idx2 but the one at idx.
  lemma TwoSlashes(file: string, idx: nat, idx2: nat)
    requires idx2 < idx < |file| && file[idx] == '/' && file[idx2] == '/'
    requires '/' !in file[idx + 1..] && '/' !in file[idx2 + 1..idx]
    ensures Slashes(file[idx2 + 1..]) == 1
    ensures Slashes(file) >= 2
  {
    var tail := file[idx2 + 1..];
    assert tail[idx - idx2 - 1..][1..] == file[idx + 1..];
    assert tail[..idx - idx2 - 1] == file[idx2 + 1..idx];
    OnlySlash(tail, idx - idx2 - 1);
    assert file == file[..idx2 + 1] + tail;
    SlashesConcat(file[..idx2 + 1], tail);
    assert file[..idx2 + 1][idx2] == '/';
    assert '/' in multiset(file[..idx2 + 1]);
  }

  /** What trimming promises about the kept part `r` of a path. */
  ghost predicate TrimmedTo(file: string, r: string) {
    && |r| <= |file| && file[|file| - |r|..] == r
    && Slashes(r) <= 1
    && (Slashes(file) < 2 ==> r == file)
    && (Slashes(file) >= 2 ==> Slashes(r) == 1 && |r| < |file| && file[|file| - |r| - 1] == '/')
  }

  lemma KeepWhole(file: string)
    requires Slashes(file) <= 1
    ensures TrimmedTo(file, file)
  {
    assert file[0..] == file;
  }

  lemma KeepAfter(file: string, idx: nat, idx2: nat)
    requires idx2 < idx < |file| && file[idx] == '/' && file[idx2] == '/'
    requires '/' !in file[idx + 1..] && '/' !in file[idx2 + 1..idx]
    ensures TrimmedTo(file, file[idx2 + 1..])
  {
    TwoSlashes(file, idx, idx2);
  }

  /** With fewer than two '/', the path is kept whole; otherwise what is kept is
      what follows its second-to-last '/'. Either way it is a suffix of the path
      with at most one '/'. */
  lemma TrimCallerPathSpec(file: string)
    ensures var r := TrimCallerPath(file);
      && |r| <= |file| && file[|file| - |r|..] == r
      && Slashes(r) <= 1
      && (Slashes(file) < 2 ==> r == file)
      && (Slashes(file) >= 2 ==> Slashes(r) == 1 && |r| < |file| && file[|file| - |r| - 1] == '/')
  {
    var idx := LastIndexByte(file, '/');
    if idx == -1 {
      NoSlashes(file);
      KeepWhole(file);
    } else {
      var idx2 := LastIndexByte(file[..idx], '/');
      if idx2 == -1 {
        OnlySlash(file, idx);
        KeepWhole(file);
      } else {
        assert file[..idx][idx2 + 1..] == file[idx2 + 1..idx];
        KeepAfter(file, idx, idx2);
      }
    }
    assert TrimmedTo(file, TrimCallerPath(file));
  }

  /** The statement text getStatement returns: the registered SQL stamped with the
      caller's trimmed path and line, as `%s /* %s:%d */`. */
  function Annotate(sql: string, caller: Caller): string {
    sql + " /* " + TrimCallerPath(caller.file) + ":" + FormatInt(caller.line) + " */"
  }

  /** getStatement: the annotated statement of a registered name, else
      ErrUnregisteredStatement. */
  function GetStatement(statements: map<string, string>, name: string, caller: Caller): (r: Result<string, Error>)
    ensures r.Failure? <==> name !in statements
    ensures r.Failure? ==> r.error == ErrUnregisteredStatement
    ensures r.Success? ==> HasPrefix(r.value, statements[name] + " /* ")
  {
    if name !in statements then Failure(ErrUnregisteredStatement)
    else Success(Annotate(statements[name], caller))
  }

  /** Where the Before loop stands after the first k hooks: still going with the
      context so far, or stopped by hook `at` with its error. */
  datatype BeforeState = Proceeding(ctx: Context) | Stopped(at: nat, err: Error)

  function BeforeUpTo(mws: seq<Middleware>, k: nat, ctx: Context, name: string, stmt: string, args: seq<Arg>): BeforeState
    requires k <= |mws|
  {
    if k == 0 then Proceeding(ctx)
    else match BeforeUpTo(mws, k - 1, ctx, name, stmt, args)
      case Stopped(j, e) => Stopped(j, e)
      case Proceeding(c) =>
        var reply := mws[k - 1].before(c, name, stmt, args);
        if reply.err.Some? then Stopped(k - 1, reply.err.value) else Proceeding(reply.ctx)
  }

  /** Where the After loop stands after the first k hooks: still threading the
      error along, or stopped by hook `at` with a non-nil error. */
  datatype AfterState = Threading(carried: Option<Error>) | Aborted(at: nat, err: Error)

  function AfterUpTo(mws: seq<Middleware>, k: nat, ctx: Context, err: Option<Error>, name: string, stmt: string, args: seq<Arg>): AfterState
    requires k <= |mws|
  {
    if k == 0 then Threading(err)
    else match AfterUpTo(mws, k - 1, ctx, err, name, stmt, args)
      case Aborted(j, e) => Aborted(j, e)
      case Threading(e) =>
        var e' := mws[k - 1].after(ctx, e, name, stmt, args);
        if e'.Some? then Aborted(k - 1, e'.value) else Threading(None)
  }

  function BeforeSteps(n: nat): seq<Step> {
    seq(n, i requires 0 <= i => BeforeHook(i))
  }

  function AfterSteps(n: nat): seq<Step> {
    seq(n, i requires 0 <= i => AfterHook(i))
  }

  /** exec / execSelect / execGet as one function of the registry, the middleware
      list and the collaborators. */
  function Pipeline(statements: map<string, string>, mws: seq<Middleware>, ctx: Context, name: string,
                    args: seq<Arg>, caller: Caller, expand: Expander, backend: Backend): Outcome
  {
    match GetStatement(statements, name, caller)
    case Failure(e) => Outcome(None, Some(e), [])
    case Success(stmt) => FromStatement(mws, ctx, name, stmt, args, expand, backend)
  }

  /** The query and arguments the backend gets: sqlx.In's rebinding when there
      are arguments, the statement as it is otherwise. */
  function Expanded(stmt: string, args: seq<Arg>, expand: Expander): Result<(string, seq<Arg>), Error> {
    if |args| > 0 then expand(stmt, args) else Success((stmt, args))
  }

  /** The pipeline once the statement is found: Before hooks, expansion, backend. */
  function FromStatement(mws: seq<Middleware>, ctx: Context, name: string, stmt: string,
                         args: seq<Arg>, expand: Expander, backend: Backend): Outcome
  {
    match BeforeUpTo(mws, |mws|, ctx, name, stmt, args)
    case Stopped(j, e) => Outcome(None, Some(e), BeforeSteps(j + 1))
    case Proceeding(c) =>
      var pre := BeforeSteps(|mws|) + (if |args| > 0 then [ExpandArgs] else []);
      match Expanded(stmt, args, expand)
      case Failure(e) => Outcome(None, Some(e), pre)
      case Success(qa) => FromBackend(mws, c, name, qa.0, qa.1, backend, pre)
  }

  /** The pipeline from the backend call on: the backend, then the After hooks. */
  function FromBackend(mws: seq<Middleware>, c: Context, name: string, query: string, qargs: seq<Arg>,
                       backend: Backend, pre: seq<Step>): Outcome
  {
    var reply := backend(c, query, qargs);
    var called := pre + [BackendCall(query, qargs)];
    match AfterUpTo(mws, |mws|, c, reply.err, name, query, qargs)
    case Aborted(j, e) => Outcome(None, Some(e), called + AfterSteps(j + 1))
    case Threading(e) => Outcome(reply.res, e, called + AfterSteps(|mws|))
  }

  lemma {:induction false} BeforeStaysStopped(mws: seq<Middleware>, k: nat, m: nat, ctx: Context, name: string, stmt: string, args: seq<Arg>)
    requires k <= m <= |mws|
    requires BeforeUpTo(mws, k, ctx, name, stmt, args).Stopped?
    ensures BeforeUpTo(mws, m, ctx, name, stmt, args) == BeforeUpTo(mws, k, ctx, name, stmt, args)
    decreases m
  {
    if m > k {
      BeforeStaysStopped(mws, k, m - 1, ctx, name, stmt, args);
    }
  }

  lemma {:induction false} AfterStaysAborted(mws: seq<Middleware>, k: nat, m: nat, ctx: Context, err: Option<Error>, name: string, stmt: string, args: seq<Arg>)
    requires k <= m <= |mws|
    requires AfterUpTo(mws, k, ctx, err, name, stmt, args).Aborted?
    ensures AfterUpTo(mws, m, ctx, err, name, stmt, args) == AfterUpTo(mws, k, ctx, err, name, stmt, args)
    decreases m
  {
    if m > k {
      AfterStaysAborted(mws, k, m - 1, ctx, err, name, stmt, args);
    }
  }

  /** A Before that fails stops the call: its error is the call's error, no later
      hook, no backend and no After hook runs, and the result is nil. */
  lemma FirstBeforeErrorAborts(statements: map<string, string>, mws: seq<Middleware>, ctx: Context, name: string,
                               args: seq<Arg>, caller: Caller, expand: Expander, backend: Backend, j: nat, c: Context)
    requires name in statements && j < |mws|
    requires BeforeUpTo(mws, j, ctx, name, Annotate(statements[name], caller), args) == Proceeding(c)
    requires mws[j].before(c, name, Annotate(statements[name], caller), args).err.Some?
    ensures var o := Pipeline(statements, mws, ctx, name, args, caller, expand, backend);
      && o.res == None
      && o.err == mws[j].before(c, name, Annotate(statements[name], caller), args).err
      && o.steps == BeforeSteps(j + 1)
      && forall s :: s in o.steps ==> s.BeforeHook?
  {
    BeforeStaysStopped(mws, j + 1, |mws|, ctx, name, Annotate(statements[name], caller), args);
  }

  /** Every After that returns nil, whatever it is given, leaves the call with a nil
      error: with at least one such middleware a backend error is masked, and the
      backend's result is returned. */
  lemma {:induction false} NilAftersMask(mws: seq<Middleware>, k: nat, ctx: Context, err: Option<Error>, name: string, stmt: string, args: seq<Arg>)
    requires 0 < k <= |mws|
    requires forall i, e :: 0 <= i < k ==> mws[i].after(ctx, e, name, stmt, args) == None
    ensures AfterUpTo(mws, k, ctx, err, name, stmt, args) == Threading(None)
    decreases k
  {
    if k > 1 {
      NilAftersMask(mws, k - 1, ctx, err, name, stmt, args);
    }
  }

  /** With no middleware, the backend's result and error are the call's. */
  lemma NoMiddlewarePassesBackendThrough(statements: map<string, string>, ctx: Context, name: string,
                                         caller: Caller, expand: Expander, backend: Backend)
    requires name in statements
    ensures var o := Pipeline(statements, [], ctx, name, [], caller, expand, backend);
      var reply := backend(ctx, Annotate(statements[name], caller), []);
      o.res == reply.res && o.err == reply.err
      && o.steps == [BackendCall(Annotate(statements[name], caller), [])]
  {
    assert BeforeSteps(0) + [] == [];
  }

  /** The first After that returns an error ends the call with that error and a
      nil result; later After hooks do not run. */
  lemma FirstAfterErrorAborts(mws: seq<Middleware>, j: nat, ctx: Context, err: Option<Error>, name: string, stmt: string, args: seq<Arg>)
    requires j < |mws|
    requires AfterUpTo(mws, j, ctx, err, name, stmt, args).Threading?
    requires mws[j].after(ctx, AfterUpTo(mws, j, ctx, err, name, stmt, args).carried, name, stmt, args).Some?
    ensures AfterUpTo(mws, |mws|, ctx, err, name, stmt, args)
         == Aborted(j, mws[j].after(ctx, AfterUpTo(mws, j, ctx, err, name, stmt, args).carried, name, stmt, args).value)
  {
    AfterStaysAborted(mws, j + 1, |mws|, ctx, err, name, stmt, args);
  }

  /** The order of a call's steps: Before hooks by index, then argument expansion,
      then the backend, then After hooks by index. */
  function Rank(s: Step): nat {
    match s
    case BeforeHook(_) => 0
    case ExpandArgs => 1
    case BackendCall(_, _) => 2
    case AfterHook(_) => 3
  }

  predicate InOrder(a: Step, b: Step) {
    Rank(a) < Rank(b)
    || (a.BeforeHook? && b.BeforeHook? && a.index < b.index)
    || (a.AfterHook? && b.AfterHook? && a.index < b.index)
  }

  lemma ConcatInOrder(xs: seq<Step>, ys: seq<Step>)
    requires forall i, j :: 0 <= i < j < |xs| ==> InOrder(xs[i], xs[j])
    requires forall i, j :: 0 <= i < j < |ys| ==> InOrder(ys[i], ys[j])
    requires forall i, j :: 0 <= i < |xs| && 0 <= j < |ys| ==> InOrder(xs[i], ys[j])
    ensures forall i, j :: 0 <= i < j < |xs + ys| ==> InOrder((xs + ys)[i], (xs + ys)[j])
  {
    forall i, j | 0 <= i < j < |xs + ys|
      ensures InOrder((xs + ys)[i], (xs + ys)[j])
    {
      if j < |xs| {
      } else if i >= |xs| {
        assert InOrder(ys[i - |xs|], ys[j - |xs|]);
      } else {
        assert InOrder(xs[i], ys[j - |xs|]);
      }
    }
  }

  lemma BeforeStepsInOrder(n: nat)
    ensures forall i, j :: 0 <= i < j < |BeforeSteps(n)| ==> InOrder(BeforeSteps(n)[i], BeforeSteps(n)[j])
    ensures forall s :: s in BeforeSteps(n) ==> s.BeforeHook?
  {
  }

  lemma AfterStepsInOrder(n: nat)
    ensures forall i, j :: 0 <= i < j < |AfterSteps(n)| ==> InOrder(AfterSteps(n)[i], AfterSteps(n)[j])
    ensures forall s :: s in AfterSteps(n) ==> s.AfterHook?
  {
  }

  /** The three ordering facts about a call's steps. */
  ghost predicate StepsOrdered(steps: seq<Step>, n: nat) {
    && (forall i, j :: 0 <= i < j < |steps| ==> InOrder(steps[i], steps[j]))
    && (forall i :: 0 <= i < |steps| && steps[i].BackendCall? ==> forall k :: 0 <= k < n ==> BeforeHook(k) in steps)
    && (forall i :: 0 <= i < |steps| && steps[i].AfterHook? ==> exists q, a :: BackendCall(q, a) in steps)
  }

  /** The steps of a call that reached the backend: all n Before hooks, possibly the
      expansion, the backend call, then m After hooks. */
  lemma CalledStepsInOrder(n: nat, pre: seq<Step>, q: string, a: seq<Arg>, m: nat)
    requires pre == BeforeSteps(n) || pre == BeforeSteps(n) + [ExpandArgs]
    ensures StepsOrdered(pre + [BackendCall(q, a)] + AfterSteps(m), n)
  {
    BeforeStepsInOrder(n);
    AfterStepsInOrder(m);
    ConcatInOrder(BeforeSteps(n), [ExpandArgs]);
    ConcatInOrder(pre, [BackendCall(q, a)]);
    ConcatInOrder(pre + [BackendCall(q, a)], AfterSteps(m));
    var steps := pre + [BackendCall(q, a)] + AfterSteps(m);
    assert steps[|pre|] == BackendCall(q, a);
    forall k | 0 <= k < n
      ensures BeforeHook(k) in steps
    {
      assert steps[k] == BeforeSteps(n)[k];
    }
  }

  lemma FromBackendOrdered(mws: seq<Middleware>, c: Context, name: string, query: string, qargs: seq<Arg>,
                           backend: Backend, pre: seq<Step>)
    requires pre == BeforeSteps(|mws|) || pre == BeforeSteps(|mws|) + [ExpandArgs]
    ensures StepsOrdered(FromBackend(mws, c, name, query, qargs, backend, pre).steps, |mws|)
  {
    var reply := backend(c, query, qargs);
    var m := match AfterUpTo(mws, |mws|, c, reply.err, name, query, qargs)
      case Aborted(j, _) => j + 1
      case Threading(_) => |mws|;
    assert FromBackend(mws, c, name, query, qargs, backend, pre).steps == pre + [BackendCall(query, qargs)] + AfterSteps(m);
    CalledStepsInOrder(|mws|, pre, query, qargs, m);
  }

  lemma FromStatementOrdered(mws: seq<Middleware>, ctx: Context, name: string, stmt: string,
                             args: seq<Arg>, expand: Expander, backend: Backend)
    ensures StepsOrdered(FromStatement(mws, ctx, name, stmt, args, expand, backend).steps, |mws|)
  {
    match BeforeUpTo(mws, |mws|, ctx, name, stmt, args)
    case Stopped(j, e) =>
      BeforeStepsInOrder(j + 1);
    case Proceeding(c) =>
      var pre := BeforeSteps(|mws|) + (if |args| > 0 then [ExpandArgs] else []);
      var expanded := Expanded(stmt, args, expand);
      if expanded.Success? {
        FromBackendOrdered(mws, c, name, expanded.value.0, expanded.value.1, backend, pre);
      } else {
        BeforeStepsInOrder(|mws|);
        ConcatInOrder(BeforeSteps(|mws|), if |args| > 0 then [ExpandArgs] else []);
        assert forall s :: s in pre ==> !s.AfterHook? && !s.BackendCall?;
      }
  }

  /** Each call takes its steps in order; the backend is reached only after every
      Before hook has run, and After hooks run only once the backend has. */
  lemma StepsInOrder(statements: map<string, string>, mws: seq<Middleware>, ctx: Context, name: string,
                     args: seq<Arg>, caller: Caller, expand: Expander, backend: Backend)
    ensures var steps := Pipeline(statements, mws, ctx, name, args, caller, expand, backend).steps;
      && (forall i, j :: 0 <= i < j < |steps| ==> InOrder(steps[i], steps[j]))
      && (forall i :: 0 <= i < |steps| && steps[i].BackendCall? ==> forall k :: 0 <= k < |mws| ==> BeforeHook(k) in steps)
      && (forall i :: 0 <= i < |steps| && steps[i].AfterHook? ==> exists q, a :: BackendCall(q, a) in steps)
  {
    if name in statements {
      FromStatementOrdered(mws, ctx, name, Annotate(statements[name], caller), args, expand, backend);
    }
  }

  /** A name that was never registered fails with ErrUnregisteredStatement before
      any hook, expansion or backend call; a registered one never fails that way. */
  lemma UnregisteredNameRunsNothing(statements: map<string, string>, mws: seq<Middleware>, ctx: Context, name: string,
                                    args: seq<Arg>, caller: Caller, expand: Expander, backend: Backend)
    ensures var o := Pipeline(statements, mws, ctx, name, args, caller, expand, backend);
      name !in statements <==> o == Outcome(None, Some(ErrUnregisteredStatement), [])
  {
    if name in statements {
      RegisteredTakesSteps(mws, ctx, name, Annotate(statements[name], caller), args, expand, backend);
    }
  }

  // Once the statement is found, something always runs: a hook, the expansion or
  // the backend.
  lemma RegisteredTakesSteps(mws: seq<Middleware>, ctx: Context, name: string, stmt: string,
                             args: seq<Arg>, expand: Expander, backend: Backend)
    ensures FromStatement(mws, ctx, name, stmt, args, expand, backend).steps != []
  {
    match BeforeUpTo(mws, |mws|, ctx, name, stmt, args)
    case Stopped(j, e) =>
      assert BeforeSteps(j + 1)[0] == BeforeHook(0);
    case Proceeding(c) =>
  }

  /** The query the backend receives. Only a registered statement reaches the
      backend. Without arguments it gets the registered SQL stamped with the
      caller's location; with arguments it gets exactly what sqlx.In made of that
      stamped SQL and the arguments. */
  lemma QuerySentIsAnnotated(statements: map<string, string>, mws: seq<Middleware>, ctx: Context, name: string,
                             args: seq<Arg>, caller: Caller, expand: Expander, backend: Backend, q: string, a: seq<Arg>)
    requires BackendCall(q, a) in Pipeline(statements, mws, ctx, name, args, caller, expand, backend).steps
    ensures name in statements
    ensures |args| == 0 ==> q == statements[name] + " /* " + TrimCallerPath(caller.file) + ":" + FormatInt(caller.line) + " */" && a == []
    ensures |args| > 0 ==> expand(Annotate(statements[name], caller), args) == Success((q, a))
  {
    if name in statements {
      var stmt := Annotate(statements[name], caller);
      var n := |mws|;
      match BeforeUpTo(mws, n, ctx, name, stmt, args)
      case Stopped(j, e) =>
      case Proceeding(c) =>
        var pre := BeforeSteps(n) + (if |args| > 0 then [ExpandArgs] else []);
        BeforeStepsInOrder(n);
        assert forall s :: s in pre ==> !s.BackendCall?;
        match Expanded(stmt, args, expand)
        case Failure(e) =>
        case Success(qa) =>
          var reply := backend(c, qa.0, qa.1);
          match AfterUpTo(mws, n, c, reply.err, name, qa.0, qa.1)
          case Aborted(j, e) =>
            AfterStepsInOrder(j + 1);
            OnlyBackendCall(pre, qa.0, qa.1, AfterSteps(j + 1), q, a);
          case Threading(e) =>
            AfterStepsInOrder(n);
            OnlyBackendCall(pre, qa.0, qa.1, AfterSteps(n), q, a);
    }
  }

  // The one backend call among hooks and the expansion.
  lemma OnlyBackendCall(pre: seq<Step>, q0: string, a0: seq<Arg>, post: seq<Step>, q: string, a: seq<Arg>)
    requires forall s :: s in pre ==> !s.BackendCall?
    requires forall s :: s in post ==> s.AfterHook?
    requires BackendCall(q, a) in pre + [BackendCall(q0, a0)] + post
    ensures q == q0 && a == a0
  {
  }

  /** A failing sqlx.In ends the call with its error once every Before hook has
      run: no backend call and no After hook. */
  lemma ExpansionFailureSkipsBackend(statements: map<string, string>, mws: seq<Middleware>, ctx: Context, name: string,
                                     args: seq<Arg>, caller: Caller, expand: Expander, backend: Backend)
    requires name in statements && |args| > 0
    requires BeforeUpTo(mws, |mws|, ctx, name, Annotate(statements[name], caller), args).Proceeding?
    requires expand(Annotate(statements[name], caller), args).Failure?
    ensures var o := Pipeline(statements, mws, ctx, name, args, caller, expand, backend);
      && o.res == None
      && o.err == Some(expand(Annotate(statements[name], caller), args).error)
      && o.steps == BeforeSteps(|mws|) + [ExpandArgs]
      && forall s :: s in o.steps ==> !s.BackendCall? && !s.AfterHook?
  {
    BeforeStepsInOrder(|mws|);
  }

  /** What Insert, Update and Delete make of exec's outcome: exec's error, else
      the accessor's value or error. A nil result with a nil error has no accessor
      to call: in Go the method call dereferences nil and panics. */
  datatype CountOutcome = Count(n: int) | Failed(err: Error) | NilResultPanic

  function ReadCount(res: Option<SqlResult>, err: Option<Error>, accessor: SqlResult -> Result<int, Error>): (r: CountOutcome)
    ensures err.Some? ==> r == Failed(err.value)
    ensures r == NilResultPanic <==> err.None? && res.None?
    ensures r.Count? ==> accessor(res.value) == Success(r.n)
  {
    if err.Some? then Failed(err.value)
    else if res.None? then NilResultPanic
    else match accessor(res.value)
      case Failure(e) => Failed(e)
      case Success(n) => Count(n)
  }

  function LastInsertId(r: SqlResult): Result<int, Error> { r.lastInsertId }
  function RowsAffected(r: SqlResult): Result<int, Error> { r.rowsAffected }

  /** The Before loop: each hook gets the context the previous one returned; the
      first error stops the loop after that hook has run. */
  method RunBefore(mws: seq<Middleware>, ctx: Context, name: string, stmt: string, args: seq<Arg>)
    returns (state: BeforeState, steps: seq<Step>)
    ensures state == BeforeUpTo(mws, |mws|, ctx, name, stmt, args)
    ensures steps == BeforeSteps(if state.Stopped? then state.at + 1 else |mws|)
  {
    var c := ctx;
    steps := [];
    var i := 0;
    while i < |mws|
      invariant 0 <= i <= |mws|
      invariant BeforeUpTo(mws, i, ctx, name, stmt, args) == Proceeding(c)
      invariant steps == BeforeSteps(i)
    {
      var reply := mws[i].before(c, name, stmt, args);
      steps := steps + [BeforeHook(i)];
      assert steps == BeforeSteps(i + 1);
      if reply.err.Some? {
        BeforeStaysStopped(mws, i + 1, |mws|, ctx, name, stmt, args);
        return Stopped(i, reply.err.value), steps;
      }
      c := reply.ctx;
      i := i + 1;
    }
    state := Proceeding(c);
  }

  /** The After loop: each hook gets the error the previous one returned; the first
      non-nil error stops the loop after that hook has run. */
  method RunAfter(mws: seq<Middleware>, ctx: Context, err: Option<Error>, name: string, stmt: string, args: seq<Arg>)
    returns (state: AfterState, steps: seq<Step>)
    ensures state == AfterUpTo(mws, |mws|, ctx, err, name, stmt, args)
    ensures steps == AfterSteps(if state.Aborted? then state.at + 1 else |mws|)
  {
    var e := err;
    steps := [];
    var i := 0;
    while i < |mws|
      invariant 0 <= i <= |mws|
      invariant AfterUpTo(mws, i, ctx, err, name, stmt, args) == Threading(e)
      invariant steps == AfterSteps(i)
    {
      e := mws[i].after(ctx, e, name, stmt, args);
      steps := steps + [AfterHook(i)];
      assert steps == AfterSteps(i + 1);
      if e.Some? {
        AfterStaysAborted(mws, i + 1, |mws|, ctx, err, name, stmt, args);
        return Aborted(i, e.value), steps;
      }
      i := i + 1;
    }
    state := Threading(e);
  }

  /** Run once the statement is found. */
  method RunStatement(mws: seq<Middleware>, ctx: Context, name: string, stmt: string,
                      args: seq<Arg>, expand: Expander, backend: Backend)
    returns (res: Option<SqlResult>, err: Option<Error>, steps: seq<Step>)
    ensures Outcome(res, err, steps) == FromStatement(mws, ctx, name, stmt, args, expand, backend)
  {
    var before;
    before, steps := RunBefore(mws, ctx, name, stmt, args);
    if before.Stopped? {
      return None, Some(before.err), steps;
    }
    var query, qargs := stmt, args;
    if |args| > 0 {
      steps := steps + [ExpandArgs];
      var expanded := expand(stmt, args);
      if expanded.Failure? {
        return None, Some(expanded.error), steps;
      }
      query, qargs := expanded.value.0, expanded.value.1;
    }
    res, err, steps := CallBackend(mws, before.ctx, name, query, qargs, backend, steps);
  }

  /** Run from the backend call on. */
  method CallBackend(mws: seq<Middleware>, c: Context, name: string, query: string, qargs: seq<Arg>,
                     backend: Backend, pre: seq<Step>)
    returns (res: Option<SqlResult>, err: Option<Error>, steps: seq<Step>)
    ensures Outcome(res, err, steps) == FromBackend(mws, c, name, query, qargs, backend, pre)
  {
    var reply := backend(c, query, qargs);
    var after, afterSteps := RunAfter(mws, c, reply.err, name, query, qargs);
    steps := pre + [BackendCall(query, qargs)] + afterSteps;
    if after.Aborted? {
      return None, Some(after.err), steps;
    }
    res, err := reply.res, after.carried;
  }

  /** database.Database. `Valid` is the registry invariant: every registered
      statement passed ValidateStatement. */
  class Database {
    var statements: map<string, string>
    var middleware: seq<Middleware>
    const conn: Conn

    ghost predicate Valid()
      reads this
    {
      forall n :: n in statements ==> Validate(conn, statements[n]).None?
    }

    constructor Empty(conn: Conn)
      ensures this.conn == conn && statements == map[] && middleware == [] && Valid()
    {
      this.conn := conn;
      statements := map[];
      middleware := [];
    }

    /** New: no Database when Ping fails; otherwise an empty registry and no middleware. */
    static method New(conn: Conn) returns (db: Database?, err: Option<Error>)
      ensures err == conn.ping
      ensures db == null <==> err.Some?
      ensures db != null ==> fresh(db) && db.conn == conn && db.statements == map[] && db.middleware == [] && db.Valid()
    {
      if conn.ping.Some? {
        return null, conn.ping;
      }
      db := new Database.Empty(conn);
      err := None;
    }

    /** With: appends the given middleware after those installed, in order, and
        returns the same Database. */
    method With(mw: seq<Middleware>) returns (self: Database)
      modifies this`middleware
      ensures self == this
      ensures middleware == old(middleware) + mw
    {
      var i := 0;
      while i < |mw|
        invariant 0 <= i <= |mw|
        invariant middleware == old(middleware) + mw[..i]
      {
        middleware := middleware + [mw[i]];
        i := i + 1;
        assert mw[..i] == mw[..i - 1] + [mw[i - 1]];
      }
      assert mw[..i] == mw;
      return this;
    }

    /** ValidateStatement */
    method ValidateStatement(statement: string) returns (err: Option<Error>)
      ensures err == Validate(conn, statement)
    {
      var p := conn.prepare(statement);
      match p
      case PrepareFailed(e) => err := Some(e);
      case NilStatement => err := None;
      case PreparedStatement(closeErr) => err := closeErr;
    }

    /** RegisterStatement: stores name -> statement only when it validates; on a
        validation error the registry is unchanged. */
    method RegisterStatement(name: string, statement: string) returns (err: Option<Error>)
      requires Valid()
      modifies this`statements
      ensures Valid()
      ensures err == Validate(conn, statement)
      ensures err.None? ==> statements == old(statements)[name := statement]
      ensures err.Some? ==> statements == old(statements)
    {
      err := ValidateStatement(statement);
      if err.Some? {
        return;
      }
      statements := statements[name := statement];
    }

    /** exec / execSelect / execGet: look the statement up, run the Before hooks,
        expand the arguments, call the backend, run the After hooks. */
    method Run(ctx: Context, backend: Backend, name: string, args: seq<Arg>, caller: Caller, expand: Expander)
      returns (res: Option<SqlResult>, err: Option<Error>, steps: seq<Step>)
      ensures Outcome(res, err, steps) == Pipeline(statements, middleware, ctx, name, args, caller, expand, backend)
    {
      var got := GetStatement(statements, name, caller);
      if got.Failure? {
        return None, Some(got.error), [];
      }
      res, err, steps := RunStatement(middleware, ctx, name, got.value, args, expand, backend);
    }

    /** Exec and ExecTx (the backend is the DB's or the transaction's ExecContext). */
    method Exec(ctx: Context, backend: Backend, name: string, args: seq<Arg>, caller: Caller, expand: Expander)
      returns (res: Option<SqlResult>, err: Option<Error>)
      ensures var o := Pipeline(statements, middleware, ctx, name, args, caller, expand, backend);
        res == o.res && err == o.err
    {
      var steps;
      res, err, steps := Run(ctx, backend, name, args, caller, expand);
    }

    /** Select, SelectTx, Get and GetTx: the same pipeline with a backend that
        returns only an error (binding rows into `dest` is not modelled). */
    method Select(ctx: Context, backend: Backend, name: string, args: seq<Arg>, caller: Caller, expand: Expander)
      returns (err: Option<Error>)
      ensures err == Pipeline(statements, middleware, ctx, name, args, caller, expand, backend).err
    {
      var res, steps;
      res, err, steps := Run(ctx, backend, name, args, caller, expand);
    }

    /** Insert and InsertTx: exec, then LastInsertId. */
    method Insert(ctx: Context, backend: Backend, name: string, args: seq<Arg>, caller: Caller, expand: Expander)
      returns (r: CountOutcome)
      ensures var o := Pipeline(statements, middleware, ctx, name, args, caller, expand, backend);
        r == ReadCount(o.res, o.err, LastInsertId)
    {
      var res, err, steps := Run(ctx, backend, name, args, caller, expand);
      r := ReadCount(res, err, LastInsertId);
    }

    /** Update, UpdateTx, Delete and DeleteTx: exec, then RowsAffected. */
    method Update(ctx: Context, backend: Backend, name: string, args: seq<Arg>, caller: Caller, expand: Expander)
      returns (r: CountOutcome)
      ensures var o := Pipeline(statements, middleware, ctx, name, args, caller, expand, backend);
        r == ReadCount(o.res, o.err, RowsAffected)
    {
      var res, err, steps := Run(ctx, backend, name, args, caller, expand);
      r := ReadCount(res, err, RowsAffected);
    }
  }
}
