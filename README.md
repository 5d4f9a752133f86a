# example-go: statement registry, request middleware and response rules, in Dafny

This project models the sequential core of `example-go`, a small HTTP service
written in Go on chi, and proves properties of it:

- **`database` package (vendored).** A `Database` owns a map from statement
  names to SQL and an ordered list of middleware. Statements are registered
  only after they validate. Each call does the following:
  - looks up the name;
  - stamps the SQL with the caller's trimmed file path and line;
  - runs every Before hook, then the `sqlx.In` expansion, then the backend
    (`ExecContext`, `SelectContext` or `GetContext`);
  - threads the error through every After hook.
- **`pkg/testdb`.** Its `New` registers the package's statements in map
  iteration order and then installs the Logger and NewRelic middleware.
- **`chiapi/middleware`.** It covers:
  - the request logger, with its log level and route-pattern rules;
  - trace-id selection;
  - e-mail claim extraction;
  - the JWT gate and its default 401 handler;
  - the `X-Version` header;
  - the New Relic transaction: its attributes, its name and its `End`.
- **`pkg/httputil`.** These are the outgoing `RoundTripper` decorators:
  - a fixed header, an API key, and HTTP Basic credentials. The Basic value is
    `"Basic " + base64(user ":" pass)` per section 2 of RFC 7617, with the
    padded standard alphabet of section 4 of RFC 4648;
  - trace-id propagation;
  - logging.
- **`chiapi/handler`.** Content negotiation on `Accept`, the fixed response
  headers, and the status and message each handler answers with.

A Go `context.Context` is a `map<Key, Value>`. A key is a pair of a package and
a name, because Go context keys are typed per package. So
`middleware.contextKey("user")` and `identity.contextKey("user")` are different
keys.

Several things are inputs or functions given to the model rather than modelled:
- the database driver: `Ping`, `Preparex` and `Close`, and the three backends;
- `sqlx.In` and `runtime.Caller`;
- the middleware hooks;
- `uuid.New()` and elapsed times;
- the network behind a round-tripper;
- the JSON and XML encoders' escaping.

Modules and files:

| file | module | models |
|---|---|---|
| `wrappers.dfy` | `Wrappers`, `Errors`, `GoMaps` | Option/Result, error values, Go's map iteration order as a ghost permutation |
| `gostrings.dfy` | `GoStrings`, `Uuid` | `strings.LastIndexByte`, `HasPrefix`, `Join`, `Replace(s, "/*", "", -1)`, `strconv.Itoa`/`Atoi` (64-bit), UTF-8, UUID text |
| `base64.dfy` | `Base64` | RFC 4648 standard encoding with padding, and its decoder |
| `gocontext.dfy` | `GoContext` | `context.Background`, `context.WithValue` |
| `zap.dfy` | `Zap` | a zap logger as a core plus fields; `With` and logging one entry |
| `http.dfy` | `Http` | header maps, requests, and `http.ResponseWriter` as a class |
| `database.dfy` | `Database` | `vendor/gogs.rickbassham.com/rick/database/db.go` |
| `testdb.dfy` | `TestDb` | `pkg/testdb` |
| `middleware.dfy` | `Chi`, `ChiMiddleware` | chi's route context; Logger, TraceID, User, Authenticator, Version |
| `newrelic.dfy` | `NewRelicRouter` | `chiapi/middleware/newrelic.go` |
| `transport.dfy` | `Transport` | `pkg/httputil/transport.go` |
| `handler.dfy` | `Identity`, `Handler` | the identity/tracing context accessors, `response.go`, `handler.go` |
| `wiring.dfy` | `Wiring` | what the handlers see behind the middleware, as `chiapi/router/router.go` arranges it |

## Model

| member | source | states |
|---|---|---|
| Database.Validate | vendor/gogs.rickbassham.com/rick/database/db.go:101-116 | The error is one of three things: Preparex's error; nil for a nil prepared statement; or else Close's error. |
| Database.Database.ValidateStatement | vendor/gogs.rickbassham.com/rick/database/db.go:101-116 | Returns exactly `Validate` of the Database's connection and the statement. |
| Database.Database.New | vendor/gogs.rickbassham.com/rick/database/db.go:66-76 | The error is Ping's error. There is no Database exactly when Ping fails; otherwise a fresh Database with an empty registry, no middleware and the invariant. |
| Database.Database.With | vendor/gogs.rickbassham.com/rick/database/db.go:79-85 | The middleware list becomes the old list followed by the arguments in order, and the same Database is returned. |
| Database.Database.RegisterStatement | vendor/gogs.rickbassham.com/rick/database/db.go:89-98 | The error is the validation error. On success the registry maps name to statement, replacing an earlier entry, and keeps every other entry. On error the registry is unchanged. The invariant "every registered statement validates" is kept. |
| Database.GetStatement | vendor/gogs.rickbassham.com/rick/database/db.go:339-359 | Fails exactly for an unregistered name, and then with ErrUnregisteredStatement. Otherwise the text starts with the registered SQL followed by `" /* "`. |
| Database.TrimCallerPathSpec | vendor/gogs.rickbassham.com/rick/database/db.go:347-354 | The kept part is a suffix of the path with at most one '/'. A path with fewer than two '/' is kept whole. Otherwise exactly what follows the second-to-last '/' is kept. |
| Database.Pipeline | vendor/gogs.rickbassham.com/rick/database/db.go:118-148 | exec, execSelect and execGet as one function: the lookup, then the Before hooks, the expansion, the backend and the After hooks. Its properties are the lemmas in the rows below, and Run, Exec, Select, Insert and Update are proved equal to it. |
| Database.Expanded | vendor/gogs.rickbassham.com/rick/database/db.go:131-136 | What the backend gets: sqlx.In's result when there are arguments, the statement and no change otherwise. `QuerySentIsAnnotated` and `ExpansionFailureSkipsBackend` state its two outcomes. |
| Database.TrimCallerPath | vendor/gogs.rickbassham.com/rick/database/db.go:347-354 | getStatement's path trimming; `TrimCallerPathSpec` states what it keeps. |
| Database.Annotate | vendor/gogs.rickbassham.com/rick/database/db.go:356 | `%s /* %s:%d */` of the SQL, the trimmed file and the line; `GetStatement` and `QuerySentIsAnnotated` state how it reaches the backend. |
| Database.QuerySentIsAnnotated | vendor/gogs.rickbassham.com/rick/database/db.go:131-138 | A backend call happens only for a registered name. Without arguments it receives `sql + " /* " + trimmed file + ":" + line + " */"` and no arguments. With arguments it receives exactly what sqlx.In returned for that annotated SQL and the arguments. |
| Database.ExpansionFailureSkipsBackend | vendor/gogs.rickbassham.com/rick/database/db.go:131-136 | When every Before hook passes and sqlx.In fails, the call ends with sqlx.In's error and a nil result, after the hooks and the expansion: no backend call and no After hook. |
| Database.UnregisteredNameRunsNothing | vendor/gogs.rickbassham.com/rick/database/db.go:119-122 | A call fails with ErrUnregisteredStatement, a nil result and no hook, expansion or backend step if and only if the name is unregistered. |
| Database.RegisteredTakesSteps | vendor/gogs.rickbassham.com/rick/database/db.go:124-138 | Once the statement is found, at least one collaborator always runs. |
| Database.RunBefore | vendor/gogs.rickbassham.com/rick/database/db.go:124-129 | The Before loop hands each hook the previous hook's context and stops at the first error. It ends in the state `BeforeUpTo` gives, having run exactly the hooks up to and including the failing one. |
| Database.RunAfter | vendor/gogs.rickbassham.com/rick/database/db.go:140-145 | The After loop hands each hook the previous hook's error and stops at the first non-nil one. It ends in the state `AfterUpTo` gives, having run exactly the hooks up to and including the aborting one. |
| Database.RunStatement | vendor/gogs.rickbassham.com/rick/database/db.go:124-147 | The Before hooks, the expansion when there are arguments, the backend and the After hooks produce exactly the outcome of `FromStatement`. |
| Database.CallBackend | vendor/gogs.rickbassham.com/rick/database/db.go:138-147 | Backend then After hooks produce exactly `FromBackend`. |
| Database.Database.Run | vendor/gogs.rickbassham.com/rick/database/db.go:118-148 | A call's result, error and steps are exactly `Pipeline` of the current registry and middleware. |
| Database.Database.Exec | vendor/gogs.rickbassham.com/rick/database/db.go:246-253 | Exec and ExecTx return the pipeline's result and error. |
| Database.Database.Select | vendor/gogs.rickbassham.com/rick/database/db.go:255-295 | execSelect, Select and SelectTx return the pipeline's error. |
| Database.Database.Insert | vendor/gogs.rickbassham.com/rick/database/db.go:156-168 | exec's error, else LastInsertId's value or error, as `ReadCount` gives. |
| Database.Database.Update | vendor/gogs.rickbassham.com/rick/database/db.go:186-198 | exec's error, else RowsAffected's value or error; also Delete and the Tx variants. |
| Database.ReadCount | vendor/gogs.rickbassham.com/rick/database/db.go:157-167 | exec's error is returned as is. A nil result with a nil error is a nil dereference, and only that. A count is the accessor's value. |
| Database.FirstBeforeErrorAborts | vendor/gogs.rickbassham.com/rick/database/db.go:124-129 | The first Before that fails makes its error the call's error, with a nil result. Only hooks 0..j run: no later hook, no backend, no After. |
| Database.BeforeStaysStopped | vendor/gogs.rickbassham.com/rick/database/db.go:126-128 | Once a Before has failed, later hooks change nothing. |
| Database.AfterStaysAborted | vendor/gogs.rickbassham.com/rick/database/db.go:142-144 | Once an After has failed, later hooks change nothing. |
| Database.FirstAfterErrorAborts | vendor/gogs.rickbassham.com/rick/database/db.go:140-145 | The first After that returns an error ends the call with that error, and no later After runs. |
| Database.NilAftersMask | vendor/gogs.rickbassham.com/rick/database/db.go:140-147 | If every After returns nil, the call's error is nil whatever the backend returned. |
| Database.NoMiddlewarePassesBackendThrough | vendor/gogs.rickbassham.com/rick/database/db.go:138-147 | With no middleware, the backend's result and error are the call's, after exactly one backend step. |
| Database.StepsInOrder | vendor/gogs.rickbassham.com/rick/database/db.go:118-148 | Steps run in this order: Before hooks by index, then the expansion, then the backend, then After hooks by index. The backend runs only after every Before hook, and After hooks only after the backend. |
| TestDb.InitializeStatements | pkg/testdb/db.go:31-40 | Registers in iteration order and returns the first validation error. The registry then holds exactly the entries registered before the failure. With no error, every statement is registered under its own key. |
| TestDb.New | pkg/testdb/db.go:17-29 | On error: no DB, the middleware is untouched, and only a prefix of the iteration order is registered. On success: all statements are registered, Logger then NewRelic are appended after the existing middleware, and the new DB wraps the same Database. |
| TestDb.DB.Wrap | pkg/testdb/db.go:26-28 | The DB wraps the given Database. |
| TestDb.RegisterAllKeys | pkg/testdb/db.go:32-37 | Registering in any iteration order yields the old registry overlaid with the whole statement map. |
| TestDb.RegisterAllIsUnion | pkg/testdb/db.go:32-37 | Registering a sequence of keys overlays exactly those keys. |
| TestDb.EveryKeyVisited | pkg/testdb/db.go:32-37 | When every step of the iteration validated, every statement validates. |
| TestDb.InstalledMiddlewareMasksErrors | pkg/testdb/db.go:23-24 | Behind Logger and NewRelic (and any nil-returning Afters before them), a call behaves as if the backend never failed. |
| TestDb.LoggerMiddleware | pkg/testdb/log.go:14-26 | testdb.Logger: Before keeps the context and After returns nil (its log lines are not modelled). `InstalledMiddlewareMasksErrors` states the effect. |
| TestDb.NewRelicMiddleware | pkg/testdb/newrelic.go:22-43 | testdb.NewRelic: Before stores the datastore segment for the statement, and After returns nil. `InstalledMiddlewareDropsBackendError` states the effect. |
| TestDb.InstalledMiddlewareDropsBackendError | pkg/testdb/newrelic.go:37-43 | For any arguments, with testdb's middleware: when sqlx.In fails, its error is the call's. Otherwise the call's error is nil and its result is what the backend returned for the expanded query, whatever the backend's error. |
| TestDb.InsertAfterFailureHitsNilResult | pkg/testdb/log.go:21-26 | As written, for any arguments that expand: when the backend fails, Insert reaches LastInsertId on a nil result. |
| TestDb.PassThroughAftersKeep | vendor/gogs.rickbassham.com/rick/database/db.go:140-147 | Afters that return the error they are given keep the backend's error: the first one aborts with it, and a nil error stays nil. |
| TestDb.PassThroughKeepsBackendError | pkg/testdb/newrelic.go:37-43 | For any arguments, with Afters that pass the error on: a failing sqlx.In's error is the call's. Otherwise the call's error is the backend's error, and on success the result is the backend's. |
| TestDb.InsertAfterFailureReportsIt | pkg/testdb/log.go:21-26 | Intended, for any arguments that expand: when the backend fails, Insert reports the backend's error. |
| TestDb.Assign | pkg/testdb/user.go:16-17 | Assigning into a nil map panics, and only that; otherwise the entry is set. |
| TestDb.InitOnDeclaredMapPanics | pkg/testdb/db.go:9-11 | As written: `init` on the declared-but-never-made map panics. |
| TestDb.InitOnMadeMapRegistersUsers | pkg/testdb/user.go:15-18 | On a made map, `init` yields the two user statements. Either iteration order registers both. |
| ChiMiddleware.WithLogger | chiapi/middleware/logger.go:73-75 | GetLogger reads back the stored logger; every other key is unchanged. |
| ChiMiddleware.EmptyContextDefaults | chiapi/middleware/logger.go:79-85 | On an empty context: GetLogger gives the no-op logger, and GetTraceID and GetUser give "". |
| ChiMiddleware.StatusLevel | chiapi/middleware/logger.go:55-61 | Info if and only if the status is below 400; Warn if and only if 400-499; Error if and only if 500 or above. |
| ChiMiddleware.StatusLevelMonotonic | chiapi/middleware/logger.go:55-61 | A higher status never logs at a lower severity. |
| ChiMiddleware.RoutePatternAppend | chiapi/middleware/logger.go:38-39 | Normalising patterns with one more appended equals the normalised prefix plus the new pattern with "/*" removed. This holds when no earlier pattern ends in '/', as chi's patterns do. |
| ChiMiddleware.RoutePatternProtectedId | chiapi/middleware/logger.go:38-39 | `["/protected/*", "/{id:[0-9]+}"]` normalises to "/protected/{id:[0-9]+}". |
| ChiMiddleware.RoutePatternProtected | chiapi/middleware/logger.go:38-39 | `["/protected/*"]` normalises to "/protected". |
| ChiMiddleware.RoutePatternHealth | chiapi/middleware/logger.go:38-39 | `["/health"]` is kept as is. |
| ChiMiddleware.RoutePatternNone | chiapi/middleware/logger.go:38-39 | No patterns give "". |
| ChiMiddleware.GetLogger | chiapi/middleware/logger.go:79-85 | The stored logger, or the no-op logger when none is stored; `WithLogger` and `EmptyContextDefaults` state both cases. |
| ChiMiddleware.GetTraceID | chiapi/middleware/traceid.go:41-48 | The stored string, or ""; `WithTraceID` and `EmptyContextDefaults` state both cases. |
| ChiMiddleware.GetUser | chiapi/middleware/user.go:34-40 | The stored string, or ""; `WithUser` and `EmptyContextDefaults` state both cases. |
| ChiMiddleware.RoutePattern | chiapi/middleware/logger.go:38-39 | The route patterns joined, with every "/*" removed. It is never longer than the joined text; `RoutePatternAppend` and the examples state the rest. |
| ChiMiddleware.RequestLogger | chiapi/middleware/logger.go:23-29 | The request logger keeps the given logger's core and fields. It adds, in order, trace_id (the context's trace id), method, path, query (the raw query), referer and user_agent. |
| ChiMiddleware.CompletionFields | chiapi/middleware/logger.go:41-53 | The route pattern comes first. A location field appears if and only if the status is 300-399, holding the Location header. The fields end with status, bytes and duration. |
| ChiMiddleware.Logger | chiapi/middleware/logger.go:16-66 | `next` gets the request whose context GetLogger resolves to the request logger. Every other context key keeps its presence and its value, and the rest of the request is unchanged. At most one entry is logged, and one exactly when the logger is not a no-op. That entry is "request complete" at StatusLevel of the status `next` wrote, with the request fields then the completion fields. |
| ChiMiddleware.ChooseTraceID | chiapi/middleware/traceid.go:15-23 | A nil header map gives "". A non-empty X-Trace-Id is used verbatim. Otherwise the id is the 36-character UUID text. |
| ChiMiddleware.TraceID | chiapi/middleware/traceid.go:13-30 | The response header's X-Trace-Id and the forwarded context's trace id are both the chosen id. |
| ChiMiddleware.TraceIDAgrees | chiapi/middleware/traceid.go:25-27 | The response header and the context `next` sees carry the same id. |
| ChiMiddleware.TraceIDExamples | chiapi/middleware/traceid_test.go:24 | An empty header yields a 36-character id. The header "my-cool-trace-id" is echoed. |
| ChiMiddleware.WithTraceID | chiapi/middleware/traceid.go:37-48 | GetTraceID reads back the stored id; every other key is unchanged. |
| ChiMiddleware.EmailClaim | chiapi/middleware/user.go:13-16 | Present if and only if the "email" claim is a non-empty string, and then it is that string. |
| ChiMiddleware.User | chiapi/middleware/user.go:11-22 | With an e-mail the forwarded request carries it under the middleware's user key; otherwise the request is unchanged. |
| ChiMiddleware.UserSeesEmail | chiapi/middleware/user.go:29-40 | GetUser behind User is the e-mail, or the earlier user when there is none. |
| ChiMiddleware.WithUser | chiapi/middleware/user.go:29-40 | GetUser reads back the stored user; every other key is unchanged. |
| ChiMiddleware.UnauthorizedFor | chiapi/middleware/authenticator.go:14-21 | The default handler is used if and only if none was given. |
| ChiMiddleware.Authenticator | chiapi/middleware/authenticator.go:24-38 | `next` runs if and only if the lookup succeeded with a valid token. Otherwise the unauthorized handler runs, exactly one of the two. |
| ChiMiddleware.WriteDefaultUnauthorized | chiapi/middleware/authenticator.go:15-20 | The header gains Content-Type "text/plain; charset=utf-8" and nosniff before WriteHeader. Status 401 is sent with that header unless a status was already written, in which case the earlier status and header stay. The body gains "unauthorized\n". |
| ChiMiddleware.Version | chiapi/middleware/version.go:10-13 | X-Version holds exactly `[v]`, and every other header is unchanged. |
| ChiMiddleware.VersionReplaces | chiapi/middleware/version.go:11 | Setting the version twice equals setting the last one. |
| Chi.URLParam | chiapi/handler/handler.go:107 | "" for an absent key; otherwise the value at the key's last position. |
| NewRelicRouter.Transaction.Start | chiapi/middleware/newrelic.go:20 | A transaction starts with the given name and no calls. |
| NewRelicRouter.Transaction.AddAttribute | chiapi/middleware/newrelic.go:28 | Records one AddAttribute call after those already made. |
| NewRelicRouter.Transaction.SetName | chiapi/middleware/newrelic.go:46 | Records one SetName call after those already made. |
| NewRelicRouter.Transaction.End | chiapi/middleware/newrelic.go:49 | Records the End call after those already made. |
| NewRelicRouter.TxnCalls | chiapi/middleware/newrelic.go:28-49 | The calls the middleware makes after `next`: the X-Trace-Id attribute, the parameter attributes, the query attributes, SetName when the pattern is non-empty, then End. `CallsShape`, `ParamsBecomeAttributes` and `QueryKeysOnceWithFirstValue` state its properties. |
| NewRelicRouter.NewRelicChiRouter | chiapi/middleware/newrelic.go:17-54 | The transaction starts named by the URL path, and `next` gets the request carrying it. The transaction's calls are then the X-Trace-Id attribute, the route parameters, the query and the optional name, then End. |
| NewRelicRouter.AddParams | chiapi/middleware/newrelic.go:30-36 | Appends the attributes of every URL parameter whose key is not "*". |
| NewRelicRouter.AddQuery | chiapi/middleware/newrelic.go:38-40 | Appends one attribute per query key in iteration order, with its first value. |
| NewRelicRouter.ParamsBecomeAttributes | chiapi/middleware/newrelic.go:30-36 | An attribute (k, v) is recorded if and only if some parameter at index i has key k, k is not "*", and its value at i is v. |
| NewRelicRouter.QueryKeysOnceWithFirstValue | chiapi/middleware/newrelic.go:38-40 | Every query key is recorded exactly once, with its first value, and nothing else. |
| NewRelicRouter.CallsShape | chiapi/middleware/newrelic.go:28-49 | The first call is the X-Trace-Id attribute. The last call is End, and End appears nowhere else. SetName(n) occurs if and only if n is the non-empty normalised route pattern. |
| NewRelicRouter.RouterTransactionNames | chiapi/router/router_test.go:155 | /health is named "/health", and /protected/{id} "/protected/{id:[0-9]+}". No patterns means no SetName. |
| Transport.HeaderTransport | pkg/httputil/transport.go:16-25 | A decorator that sets one header, over `old` or DefaultTransport when `old` is nil. `HeaderTransportSets` states what it sends. |
| Transport.APIKeyTransport | pkg/httputil/transport.go:102-108 | HeaderTransport of X-Api-Key. `APIKeyTransportSets` states what it sends. |
| Transport.BasicAuthValue | pkg/httputil/transport.go:117-118 | "Basic " followed by the base64 of the UTF-8 of `user:pass`. `BasicAuthTransportSets` and `BasicAuthExample` state it. |
| Transport.BasicAuthTransport | pkg/httputil/transport.go:112-121 | HeaderTransport of Authorization with the Basic value. `BasicAuthTransportSets` states what it sends. |
| Transport.TraceIDTransport | pkg/httputil/transport.go:29-44 | The trace-id decorator. `TraceIDTransportSends` states what it sends. |
| Transport.DefaultLogTransport | pkg/httputil/transport.go:47-53 | The decorator that puts a logger in the request context. `DefaultLogFeedsLogTransport` states its effect. |
| Transport.LogTransport | pkg/httputil/transport.go:56-98 | The logging decorator. `LogEntries` states what it logs. |
| Transport.Trip | pkg/httputil/transport.go:16-125 | A round trip through a chain as a value: the reply, the request the leaf received and the log entries. `ReplyIsLeafReply` and `HeadersOnlyFromDecorators` state its properties, and `RoundTrip` is proved equal to it. |
| Transport.WithOutgoingTraceID | pkg/httputil/transport.go:30-43 | A non-empty context trace id is kept; an empty one becomes the generated 36-character id, stored in the context. X-Trace-Id is set to the id used. |
| Transport.ReplyIsLeafReply | pkg/httputil/transport.go:24 | Every chain returns the innermost transport's reply unchanged, and keeps method and URL. |
| Transport.HeadersOnlyFromDecorators | pkg/httputil/transport.go:21-25 | Headers no decorator sets reach the leaf untouched; those set hold exactly one value. |
| Transport.HeaderTransportSets | pkg/httputil/transport.go:16-25 | The key holds exactly `[value]`, replacing any earlier value. With a nil `old`, the default transport sends. |
| Transport.APIKeyTransportSets | pkg/httputil/transport.go:102-108 | X-Api-Key is exactly the key. |
| Transport.BasicAuthTransportSets | pkg/httputil/transport.go:112-121 | Authorization is "Basic " followed by text that base64-decodes to the UTF-8 of `user:pass`. |
| Transport.BasicAuthExample | pkg/httputil/transport_test.go:49-52 | test/pass gives "Basic dGVzdDpwYXNz". |
| Transport.TraceIDTransportSends | pkg/httputil/transport.go:34-40 | The sent X-Trace-Id equals the sent context's id and is non-empty. It is the caller's id when one is set, else the generated one. |
| Transport.ResponseFields | pkg/httputil/transport.go:76-86 | The status field comes first. A location field appears if and only if the status is 300-399. |
| Transport.LogEntries | pkg/httputil/transport.go:68-94 | A no-op logger logs nothing. Otherwise there is an error entry per error and a "request complete" entry per response, at StatusLevel of its status, in that order. Every entry carries the duration. |
| Transport.DefaultLogFeedsLogTransport | pkg/httputil/transport.go:47-62 | LogTransport behind DefaultLogTransport logs to the given logger, with direction, URL and method. |
| Transport.LogOutcome | pkg/httputil/transport.go:68-94 | LogTransport's logging after the inner call equals `LogEntries`. |
| Transport.RoundTrip | pkg/httputil/transport.go:16-98 | The in-place round trip returns the chain's reply and log entries. The caller's shared header map ends up as the leaf saw it. |
| Transport.HeaderMap.Set | pkg/httputil/transport.go:22 | The key now holds exactly the value; other keys are unchanged. |
| Http.HeaderSet | chiapi/handler/response.go:35-36 | `Header.Set`: the key holds exactly `[value]`, and every other key is unchanged. |
| Http.ResponseWriter.WriteHeader | chiapi/handler/response.go:37 | The first status written wins and sends the header map as it stands. |
| GoContext.WithValue | pkg/tracing/context.go:16-18 | The key now holds the value, and every other key is unchanged. |
| Identity.WithTracingTraceID | pkg/tracing/context.go:16-27 | tracing.FromContext reads back the id; every other key is unchanged. |
| Identity.WithIdentityUser | pkg/identity/context.go:16-27 | identity.FromContext reads back the user; every other key is unchanged. |
| Handler.ResponseHeader | chiapi/handler/response.go:35-36 | Content-Type is the format's, X-Content-Type-Options is nosniff, and nothing else changes. |
| Handler.Negotiate | chiapi/handler/response.go:24-31 | XML when Accept starts with "text/xml", else JSON. `NegotiateChoices` states the cases. |
| Handler.JsonBody | chiapi/handler/response.go:18-22 | `{"trace_id":…,"message":…}` and a newline, with the encoder's escaping. `HealthJsonExample` states an instance. |
| Handler.XmlBody | chiapi/handler/response.go:18-22 | `<simpleResponse traceId="…">` with the message as raw inner XML. `XmlBodyCarriesMessage` and `HealthXmlExample` state it. |
| Handler.NegotiateChoices | chiapi/handler/response.go:25-31 | "text/xml…" selects XML. "", "application/xml", "application/json" and short values select JSON. |
| Handler.WriteEncoded | chiapi/handler/response.go:34-56 | Headers are set before WriteHeader, which gets the given status unless one was already written. The body gains the encoded response. |
| Handler.WriteResponse | chiapi/handler/response.go:24-32 | The writer holds the negotiated format's headers, the status and that format's body. |
| Handler.XmlBodyCarriesMessage | chiapi/handler/response.go:18-22 | The XML body is the opening tag with the trace-id attribute, then the message verbatim, then the closing tag. It differs from the JSON body. |
| Handler.HealthReply | chiapi/handler/handler.go:37-42 | Status 200 with message "OK". |
| Handler.CachedReply | chiapi/handler/handler.go:45-73 | Status 500 if and only if the cache failed, with "error getting value from cache". Otherwise status 200 with the cached value. |
| Handler.ProtectedReply | chiapi/handler/handler.go:76-87 | Status 200. The message is the Protected message of identity.FromContext's user and routeParamInt's id; `ProtectedMessageParts` states that both can be read back from it. |
| Handler.UnauthorizedReply | chiapi/handler/handler.go:90-95 | Status 401 with message "unauthorized". |
| Handler.NotFoundReply | chiapi/handler/handler.go:98-103 | Status 404 with message "not found". |
| Handler.RepliesCarryTraceID | chiapi/handler/handler.go:38-40 | Every reply's trace id is tracing.FromContext of the request, or "" when absent. |
| Handler.RouteParamInt | chiapi/handler/handler.go:105-109 | The value is within 64 bits, and 0 when the "id" parameter is not an integer. |
| Handler.RouteParamIntReadsId | chiapi/handler/handler.go:105-109 | Whatever `name` is asked for, the decimal "id" parameter is read back. |
| Handler.ProtectedMessageParts | chiapi/handler/handler.go:85 | The message contains the user at a fixed offset, then the fixed separator, then digits that parse back to the id. |
| Handler.Health | chiapi/handler/handler.go:37-42 | Writes the Health reply. |
| Handler.Cached | chiapi/handler/handler.go:45-73 | Writes the Cached reply for the cache's outcome. |
| Handler.Protected | chiapi/handler/handler.go:76-87 | Writes the Protected reply. |
| Handler.Unauthorized | chiapi/handler/handler.go:90-95 | Writes the Unauthorized reply. |
| Handler.NotFound | chiapi/handler/handler.go:98-103 | Writes the NotFound reply. |
| Handler.HealthJsonExample | chiapi/handler/handler_test.go:35 | The Health JSON body for trace id "my-trace-id". |
| Handler.HealthXmlExample | chiapi/handler/handler_test.go:53 | The Health XML body for trace id "my-trace-id". |
| Handler.ProtectedExample | chiapi/handler/handler_test.go:72 | The Protected message for "my-user-name" and id "1". |
| Wiring.ProtectedBehindUserAsWritten | chiapi/middleware/user.go:29-31 | As written: behind User, Protected names no user even when the token carries an e-mail. |
| Wiring.UserTestAsWritten | chiapi/middleware/user_test.go:55 | As written: the handler behind User reads "" and not "my-user". |
| Wiring.UserIntended | chiapi/middleware/user.go:11-22 | Intended: the e-mail is what identity.FromContext reads, and without one the request is unchanged. |
| Wiring.ProtectedBehindUserIntended | chiapi/router/router_test.go:306 | Intended: behind User, Protected names the token's e-mail. |
| Wiring.HealthBehindTraceIDAsWritten | chiapi/middleware/traceid.go:37-39 | As written: behind TraceID a handler answers with trace id "", while the response header carries a non-empty id. |
| Wiring.TraceIDIntended | chiapi/middleware/traceid.go:13-30 | Intended: the id also goes where tracing.FromContext reads it, and the response header is the same. |
| Wiring.HealthBehindTraceIDIntended | chiapi/router/router.go:38-45 | Intended: handlers answer with the response header's non-empty trace id. |
| Base64.Encode | pkg/httputil/transport.go:117 | The standard padded encoding: four characters per started group of three bytes. `DecodeEncode` and `EncodeAlphabet` state the rest. |
| Base64.DecodeEncode | pkg/httputil/transport.go:117 | Decoding the standard padded encoding gives the bytes back. |
| Base64.EncodeAlphabet | pkg/httputil/transport.go:117 | Encoded text uses only the alphabet and '=', and '=' only in the last two places. |
| GoStrings.Atoi | chiapi/handler/handler.go:107 | strconv.Atoi with its error ignored: a value within int64, and 0 on a syntax error. Values beyond the range clamp to it. |
| GoStrings.AtoiFormatInt | chiapi/handler/handler.go:107 | `strconv.Atoi` of `%d` text gives back every 64-bit integer. |
| GoStrings.LastIndexByte | vendor/gogs.rickbassham.com/rick/database/db.go:347-349 | -1 if and only if the byte is absent; otherwise its last position. |
| GoStrings.RemoveSlashStarAppend | chiapi/middleware/logger.go:39 | Removing "/*" distributes over concatenation when the left part does not end in '/'. |
| Zap.With | chiapi/middleware/logger.go:23-29 | The new fields follow the old ones; the core is kept. |
| Zap.Log | chiapi/middleware/logger.go:55-61 | One entry, at the given level with the logger's fields, exactly when the core is not a no-op. |

## Left out

- `chiapi/server/http.go`, `chiapi/main.go`, `chiapi/router/router.go` and the
  `pkg/cache`, `pkg/env` and `pkg/logging` packages. These are process start-up,
  signal handling, concurrency and library wiring. The router's order is used
  only to state what the handlers behind the middleware see (module `Wiring`).
- `Database.BeginTx`: a bare pass-through to the driver.
- Binding rows into `dest`, and the driver calls themselves. `Ping`, `Preparex`,
  `Close`, `ExecContext`, `SelectContext`, `GetContext`, `sqlx.In` and
  `runtime.Caller` are parameters (`Conn`, `Backend`, `Expander`, `Caller`).
- Database.Database.Select: it states only the returned error, because `dest` is not modelled.
- Middleware hooks are pure functions of what they are given. The logging and
  New Relic segment side effects of `pkg/testdb/log.go` and
  `pkg/testdb/newrelic.go` are left out. The NewRelic Before's context value is
  kept, because the backend receives that context.
- Go's `int64` truncation of `LastInsertId` and the `int(id)` conversion in
  `InsertUser` are not modelled; counts are unbounded integers.
- Time and randomness are inputs. `uuid.New()` is 16 given bytes rendered as
  UUID text. `time.Since` is a given elapsed duration, the same one for every
  entry of one round trip.
- Zap's encoding, sampling and output are not modelled. A logger is a core (no-op
  or a sink) plus a field list, and logging yields entries.
- `chi`'s routing is not modelled. The route context (URL parameters and route
  patterns) is an input, as `next` leaves it.
- `next` handlers are not modelled as code. For Logger, `next` is a function from
  the forwarded request to what it served. That makes "called exactly once" hold
  by construction rather than as a stated property.
- NewRelicRouter.NewRelicChiRouter: the transaction passed to `next` as the
  ResponseWriter, and the agent's own behaviour, are not modelled. Only the
  calls made on the transaction are recorded.
- The JSON and XML encoders' escaping is a parameter (`Escapes`). The examples
  assume it leaves plain text alone. Encoder write errors, and the logging and
  NoticeError calls after them, are left out.
- Cached's logging and `NoticeError` calls; the cache is its outcome
  (`Result<string, Error>`).
- HTTP header canonicalisation (`textproto.CanonicalMIMEHeaderKey`): every key
  the core uses is already canonical.
- `WriteHeader`'s status-code validation and superfluous-call logging: only
  "first status wins" is modelled.
- `req.URL.String()` is given text.
- Transport.RoundTrip: the transports named in `pkg/httputil` with a nil inner
  transport (TraceID, DefaultLog, Log) would dereference nil. The chain datatype
  has no nil inner transport, so that case is not modelled.
- Go's RoundTripper contract says a transport should not modify the request.
  These decorators do modify the caller's header map, and the model states that
  mutation rather than the contract.

## Findings

| source | as written | input that shows it | evidently intended | confidence | as-written member | corrected member |
|---|---|---|---|---|---|---|
| chiapi/middleware/user.go:29-31 | User stores the e-mail under the middleware package's `user` key. Protected reads `identity.FromContext`, so behind User it always names "". | A valid token with claim email="myemail@example.com" on GET /protected/1. The router test expects "your username is: myemail@example.com; …". | Store the e-mail where `identity.FromContext` reads it. | high, not executed | Wiring.ProtectedBehindUserAsWritten | Wiring.ProtectedBehindUserIntended |
| chiapi/middleware/user_test.go:55 | The middleware's own test reads `identity.FromContext` behind User and expects "my-user". The middleware never writes that key. | A token `{Valid: true, email: "my-user"}` yields "" for the handler. | User writes the identity package's key. | high, not executed | Wiring.UserTestAsWritten | Wiring.UserIntended |
| chiapi/middleware/traceid.go:37-39 | TraceID stores the id under the middleware package's `traceID` key. Every handler reads `tracing.FromContext`, so responses carry trace id "". | Any request with a header map, e.g. X-Trace-Id "abc": the response header says "abc" and the body's trace_id is "". | Store the id where `tracing.FromContext` reads it too. | high, not executed | Wiring.HealthBehindTraceIDAsWritten | Wiring.HealthBehindTraceIDIntended |
| pkg/testdb/log.go:25 | testdb's Logger and NewRelic After hooks return nil. Under db.go's error threading, a backend error is dropped, so Insert calls LastInsertId on a nil result. | A registered `user_insert` called with its three arguments (pkg/testdb/user.go:23). sqlx.In expands them, and ExecContext fails with error e and a nil result. | After returns the error it was given, so Insert reports e. | medium, not executed | TestDb.InsertAfterFailureHitsNilResult | TestDb.InsertAfterFailureReportsIt |
| pkg/testdb/db.go:9-11 | The package's `statements` map is declared but never made, and `init` in pkg/testdb/user.go assigns into it. Assigning into a nil Go map panics. | Loading the package: `statements["user_insert"] = …` on the nil map. | `statements = map[string]string{}` before `init` assigns. | medium, not executed | TestDb.InitOnDeclaredMapPanics | TestDb.InitOnMadeMapRegistersUsers |
