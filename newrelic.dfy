/** chiapi/middleware NewRelicChiRouter: one New Relic transaction per request,
    started under the URL path, given the trace id, the URL parameters and the
    query values as attributes once `next` has run, renamed to the route pattern
    when there is one, and ended. */
module NewRelicRouter {
  import opened Wrappers
  import opened GoContext
  import opened GoMaps
  import opened Http
  import opened Chi
  import opened ChiMiddleware

  /** The calls the middleware makes on the transaction after starting it. */
  datatype TxnCall = AddAttribute(key: string, value: string) | SetName(name: string) | End

  /** Where newrelic.NewContext puts the transaction. */
  const TransactionKey: Key := Key(NewRelicPkg, "transaction")

  /** A started transaction and the calls made on it, in order. */
  class Transaction {
    const startName: string
    var calls: seq<TxnCall>

    /** nr.StartTransaction(name, w, r) */
    constructor Start(name: string)
      ensures startName == name && calls == []
    {
      startName := name;
      calls := [];
    }

    method AddAttribute(key: string, value: string)
      modifies this`calls
      ensures calls == old(calls) + [TxnCall.AddAttribute(key, value)]
    {
      calls := calls + [TxnCall.AddAttribute(key, value)];
    }

    method SetName(name: string)
      modifies this`calls
      ensures calls == old(calls) + [TxnCall.SetName(name)]
    {
      calls := calls + [TxnCall.SetName(name)];
    }

    method End()
      modifies this`calls
      ensures calls == old(calls) + [TxnCall.End]
    {
      calls := calls + [TxnCall.End];
    }
  }

  /** The attributes for the first n URL parameters, skipping the "*" key. */
  function ParamAttributes(rc: RouteContext, n: nat): seq<TxnCall>
    requires rc.WellFormed() && n <= |rc.keys|
  {
    if n == 0 then []
    else
      var last := if rc.keys[n - 1] == "*" then [] else [TxnCall.AddAttribute(rc.keys[n - 1], rc.values[n - 1])];
      ParamAttributes(rc, n - 1) + last
  }

  /** URL.Query() never maps a key to an empty list of values. */
  ghost predicate ParsedQuery(query: map<string, seq<string>>) {
    forall k :: k in query ==> |query[k]| > 0
  }

  /** The attributes for the first n query keys in iteration order: each key with
      its first value. */
  function QueryAttributes(query: map<string, seq<string>>, order: seq<string>, n: nat): seq<TxnCall>
    requires forall k :: k in order ==> k in query && |query[k]| > 0
    requires n <= |order|
  {
    if n == 0 then []
    else QueryAttributes(query, order, n - 1) + [TxnCall.AddAttribute(order[n - 1], query[order[n - 1]][0])]
  }

  /** Everything the middleware calls on the transaction, in order. */
  function TxnCalls(traceID: string, rc: RouteContext, query: map<string, seq<string>>, order: seq<string>): seq<TxnCall>
    requires rc.WellFormed()
    requires forall k :: k in order ==> k in query && |query[k]| > 0
  {
    [TxnCall.AddAttribute("X-Trace-Id", traceID)]
    + ParamAttributes(rc, |rc.keys|)
    + QueryAttributes(query, order, |order|)
    + (if RoutePattern(rc.patterns) != "" then [TxnCall.SetName(RoutePattern(rc.patterns))] else [])
    + [TxnCall.End]
  }

  /** The loop over the URL parameters: one attribute per key except "*". */
  method AddParams(txn: Transaction, rc: RouteContext)
    requires rc.WellFormed()
    modifies txn`calls
    ensures txn.calls == old(txn.calls) + ParamAttributes(rc, |rc.keys|)
  {
    var i := 0;
    while i < |rc.keys|
      invariant 0 <= i <= |rc.keys|
      invariant txn.calls == old(txn.calls) + ParamAttributes(rc, i)
    {
      if rc.keys[i] != "*" {
        txn.AddAttribute(rc.keys[i], rc.values[i]);
      }
      i := i + 1;
    }
  }

  /** The loop over the query map: each key with its first value. */
  method AddQuery(txn: Transaction, query: map<string, seq<string>>, order: seq<string>)
    requires ParsedQuery(query) && IsIterationOrder(query, order)
    modifies txn`calls
    ensures txn.calls == old(txn.calls) + QueryAttributes(query, order, |order|)
  {
    var j := 0;
    while j < |order|
      invariant 0 <= j <= |order|
      invariant txn.calls == old(txn.calls) + QueryAttributes(query, order, j)
    {
      var k := order[j];
      txn.AddAttribute(k, query[k][0]);
      j := j + 1;
    }
  }

  /** NewRelicChiRouter(nr)(next): `routed` is the route context as routing left it
      once `next` returned, `order` the iteration order of the query map. */
  method NewRelicChiRouter(r: Request, routed: RouteContext, order: seq<string>)
    returns (txn: Transaction, forwarded: Request)
    requires routed.WellFormed()
    requires ParsedQuery(r.query) && IsIterationOrder(r.query, order)
    ensures fresh(txn)
    ensures txn.startName == r.path
    ensures forwarded == r.WithContext(WithValue(r.ctx, TransactionKey, TransactionValue(r.path)))
    ensures txn.calls == TxnCalls(GetTraceID(r.ctx), routed, r.query, order)
  {
    txn := new Transaction.Start(r.path);
    forwarded := r.WithContext(WithValue(r.ctx, TransactionKey, TransactionValue(r.path)));
    // next.ServeHTTP(txn, forwarded) runs here; its effect on routing is `routed`.

    assert GetTraceID(forwarded.ctx) == GetTraceID(r.ctx) by {
      assert TransactionKey != TraceIdKey;
    }
    txn.AddAttribute("X-Trace-Id", GetTraceID(forwarded.ctx));
    AddParams(txn, routed);
    AddQuery(txn, r.query, order);
    ghost var attributes := txn.calls;
    assert attributes == [TxnCall.AddAttribute("X-Trace-Id", GetTraceID(r.ctx))]
      + ParamAttributes(routed, |routed.keys|) + QueryAttributes(r.query, order, |order|);
    var routePattern := RoutePattern(routed.patterns);
    if routePattern != "" {
      txn.SetName(routePattern);
    }
    assert txn.calls == attributes + (if routePattern != "" then [TxnCall.SetName(routePattern)] else []);
    txn.End();
  }

  lemma {:induction false} ParamAttributesSpec(rc: RouteContext, n: nat, key: string, value: string)
    requires rc.WellFormed() && n <= |rc.keys|
    ensures TxnCall.AddAttribute(key, value) in ParamAttributes(rc, n)
        <==> exists i :: 0 <= i < n && rc.keys[i] == key && key != "*" && rc.values[i] == value
    ensures |ParamAttributes(rc, n)| <= n
    ensures forall c :: c in ParamAttributes(rc, n) ==> c.AddAttribute?
  {
    if n > 0 {
      ParamAttributesSpec(rc, n - 1, key, value);
      forall c | c in ParamAttributes(rc, n)
        ensures c.AddAttribute?
      {
        ParamAttributesSpec(rc, n - 1, c.key, c.value);
      }
    }
  }

  /** Every URL parameter except "*" becomes an attribute with the value at the same
      index, and no other attribute comes from the parameters. */
  lemma ParamsBecomeAttributes(rc: RouteContext, key: string, value: string)
    requires rc.WellFormed()
    ensures TxnCall.AddAttribute(key, value) in ParamAttributes(rc, |rc.keys|)
        <==> exists i :: 0 <= i < |rc.keys| && rc.keys[i] == key && key != "*" && rc.values[i] == value
  {
    ParamAttributesSpec(rc, |rc.keys|, key, value);
  }

  lemma {:induction false} QueryAttributesSpec(query: map<string, seq<string>>, order: seq<string>, n: nat)
    requires forall k :: k in order ==> k in query && |query[k]| > 0
    requires n <= |order|
    ensures |QueryAttributes(query, order, n)| == n
    ensures forall i :: 0 <= i < n ==> QueryAttributes(query, order, n)[i] == TxnCall.AddAttribute(order[i], query[order[i]][0])
  {
    if n > 0 {
      QueryAttributesSpec(query, order, n - 1);
    }
  }

  /** Each query key is recorded exactly once, with its first value only. */
  lemma QueryKeysOnceWithFirstValue(query: map<string, seq<string>>, order: seq<string>)
    requires ParsedQuery(query) && IsIterationOrder(query, order)
    ensures var qs := QueryAttributes(query, order, |order|);
      && (forall c :: c in qs ==> c.AddAttribute? && c.key in query && c.value == query[c.key][0])
      && (forall k :: k in query ==> exists i :: 0 <= i < |qs| && qs[i].key == k)
      && (forall i, j :: 0 <= i < j < |qs| ==> qs[i].key != qs[j].key)
  {
    QueryAttributesSpec(query, order, |order|);
    var qs := QueryAttributes(query, order, |order|);
    forall k | k in query
      ensures exists i :: 0 <= i < |qs| && qs[i].key == k
    {
      var i :| 0 <= i < |order| && order[i] == k;
      assert qs[i].key == k;
    }
  }

  // Attributes, then at most one renaming, then End.
  lemma AttributesNameEnd(attrs: seq<TxnCall>, pattern: string)
    requires forall c :: c in attrs ==> c.AddAttribute?
    ensures var calls := attrs + (if pattern != "" then [TxnCall.SetName(pattern)] else []) + [TxnCall.End];
      && calls[|calls| - 1] == TxnCall.End
      && (forall i :: 0 <= i < |calls| - 1 ==> calls[i] != TxnCall.End)
      && (forall n :: TxnCall.SetName(n) in calls <==> n == pattern && n != "")
  {
    var name := if pattern != "" then [TxnCall.SetName(pattern)] else [];
    var calls := attrs + name + [TxnCall.End];
    forall i | 0 <= i < |attrs|
      ensures calls[i].AddAttribute?
    {
      assert calls[i] == attrs[i] && attrs[i] in attrs;
    }
    forall i | |attrs| <= i < |calls| - 1
      ensures calls[i] == name[i - |attrs|]
    {
    }
    forall n
      ensures TxnCall.SetName(n) in calls <==> n == pattern && n != ""
    {
      if TxnCall.SetName(n) in calls {
        var i :| 0 <= i < |calls| && calls[i] == TxnCall.SetName(n);
        assert |attrs| <= i < |calls| - 1;
      }
      if n == pattern && n != "" {
        assert calls[|attrs|] == TxnCall.SetName(n);
      }
    }
  }

  /** The trace id attribute comes first; the transaction is renamed exactly when the
      route pattern is non-empty, to that pattern; End is called once, last. */
  lemma CallsShape(traceID: string, rc: RouteContext, query: map<string, seq<string>>, order: seq<string>)
    requires rc.WellFormed()
    requires forall k :: k in order ==> k in query && |query[k]| > 0
    ensures var calls := TxnCalls(traceID, rc, query, order);
      && calls[0] == TxnCall.AddAttribute("X-Trace-Id", traceID)
      && calls[|calls| - 1] == TxnCall.End
      && (forall i :: 0 <= i < |calls| - 1 ==> calls[i] != TxnCall.End)
      && (forall n :: TxnCall.SetName(n) in calls <==> n == RoutePattern(rc.patterns) && n != "")
  {
    var ps := ParamAttributes(rc, |rc.keys|);
    var qs := QueryAttributes(query, order, |order|);
    ParamAttributesSpec(rc, |rc.keys|, "", "");
    QueryAttributesSpec(query, order, |order|);
    var attrs := [TxnCall.AddAttribute("X-Trace-Id", traceID)] + ps + qs;
    assert forall c :: c in attrs ==> c.AddAttribute?;
    AttributesNameEnd(attrs, RoutePattern(rc.patterns));
    assert TxnCalls(traceID, rc, query, order)[0] == attrs[0];
  }

  /** The transaction names the router's tests expect: /health, /protected/{id}
      and no renaming for an unmatched path. */
  lemma RouterTransactionNames(traceID: string, query: map<string, seq<string>>, order: seq<string>, first: string, id: string)
    requires forall k :: k in order ==> k in query && |query[k]| > 0
    requires first == "/protected/*" && id == "/{id:[0-9]+}"
    ensures TxnCall.SetName("/health") in TxnCalls(traceID, RouteContext([], [], ["/health"]), query, order)
    ensures TxnCall.SetName("/protected/{id:[0-9]+}") in TxnCalls(traceID, RouteContext(["id"], ["1"], [first, id]), query, order)
    ensures forall n :: TxnCall.SetName(n) !in TxnCalls(traceID, RouteContext([], [], []), query, order)
  {
    RoutePatternHealth();
    RoutePatternProtectedId(first, id);
    RoutePatternNone();
    CallsShape(traceID, RouteContext([], [], ["/health"]), query, order);
    CallsShape(traceID, RouteContext(["id"], ["1"], [first, id]), query, order);
    CallsShape(traceID, RouteContext([], [], []), query, order);
  }
}
