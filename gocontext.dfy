/** A Go context.Context, reduced to what the core reads and writes: a map from
    keys to values. A Go context key is a value of a package-private named type, so
    two packages that both use the key name "user" have two different keys; a key
    here is therefore the pair (package, name). */
module GoContext {
  import Zap

  /** The packages whose private key types appear in the core. */
  datatype Package =
    | MiddlewarePkg   // chiapi/middleware
    | IdentityPkg     // pkg/identity
    | TracingPkg      // pkg/tracing
    | LoggingPkg      // pkg/logging
    | TestDbPkg       // pkg/testdb
    | NewRelicPkg     // github.com/newrelic/go-agent
    | OtherPkg(id: nat)

  datatype Key = Key(pkg: Package, name: string)

  /** The dynamic values the core stores. */
  datatype Value =
    | StringValue(s: string)
    | LoggerValue(l: Zap.Logger)
    | SegmentValue(operation: string, query: string)   // a New Relic datastore segment
    | TransactionValue(name: string)                    // a New Relic transaction, by its starting name
    | OtherValue(tag: nat)

  type Context = map<Key, Value>

  /** context.Background() */
  function Background(): Context {
    map[]
  }

  /** context.WithValue: a child context in which `k` is bound to `v`. */
  function WithValue(ctx: Context, k: Key, v: Value): (r: Context)
    ensures k in r && r[k] == v
    ensures forall k' :: k' != k ==> (k' in r <==> k' in ctx) && (k' in ctx ==> r[k'] == ctx[k'])
  {
    ctx[k := v]
  }

  /** `ctx.Value(k).(string)` with the comma-ok form: the string stored under `k`,
      or "" when there is none or it is not a string. */
  function StringAt(ctx: Context, k: Key): string {
    if k in ctx && ctx[k].StringValue? then ctx[k].s else ""
  }
}
