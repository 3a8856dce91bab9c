# go-gin-logrus request logging core, in Dafny

This project models `logger.go` of the go-gin-logrus package. The package attaches
request-scoped logrus logging to each gin request and keeps everything it works out in
gin's per-request key/value store (`c.Get` / `c.Set`):

- **CxtRequestID** resolves the request's correlation identifier and memoises it under
  `"RequestID"`. It tries these sources in order:
  1. the cached identifier;
  2. a span under `"tracing-context"`;
  3. a span under the configurable key `ContextTraceIDField`;
  4. the `uber-trace-id` header;
  5. a freshly generated UUID.
- **SetCtxLogger** and **GetCtxLogger** bind the request's logrus entry (the "handle")
  and cache it under `"ctxLogger"`.
  - When an `"aggregate-logger"` is in the store, the handle writes through that
    shared logger and carries no per-request fields.
  - Otherwise the handle carries `requestID`, `method` and `path`.
- **SetCtxLoggerHeader** sets a name in the aggregate LogBuffer's Header when
  aggregate logging. Otherwise it logs one info line `name: data`.
- **GetCxtRequestID** reads `requestID` back from the cached handle, or reports
  `"unknown"`.

Files:

- `values.dfy` (module `Values`) holds the values kept in a request context: spans,
  loggers, entries, log lines and the inbound request. It also defines `Env`, the
  collaborators outside the request: `ContextTraceIDField`, logrus's standard logger
  and the UUID the generator would produce.
- `logger.dfy` (module `GinLogrus`) defines each operation as a function from one
  request's state to its result and next state. The state is the store, the Header and
  the log output. The lemmas in this module state what each operation promises.
- `precedence.dfy` (module `Precedence`) gives an independent definition of the
  identifier rule: an ordered list of sources, where the first source offering an
  identifier wins. It proves that CxtRequestID follows this rule.
- `context.dfy` (module `RequestContext`) is the class `Context`, which stands for the
  `*gin.Context`. Its methods run the Go code step by step against its fields. Each
  method is proved to end in the state, and return the result, that its GinLogrus
  function describes.
- `session.dfy` (module `Session`) covers whole requests: any sequence of calls, where a
  panicking call aborts the rest. It proves by induction that:
  - the identifier never changes once stored;
  - any two CxtRequestID calls agree;
  - without an aggregate logger, and starting from a store with no cached handle or
    one whose `requestID` equals the stored `"RequestID"`, GetCxtRequestID reports
    either `"unknown"` or the resolved identifier.

A type assertion that would panic in Go becomes a precondition. The `...Safe`
predicates name exactly the assertions each operation reaches.

## Model

| member | source | states |
|---|---|---|
| GinLogrus.ResolveReturnsCached | logger.go:69-71 | a cached "RequestID" string is returned unchanged and the whole state is left as it was |
| GinLogrus.ResolveIsIdempotent | logger.go:67-100 | after one call, a second call returns the same identifier and changes nothing, whatever the request and configuration hold then |
| GinLogrus.TracingSpanWins | logger.go:74-79 | with nothing cached, a span under "tracing-context" decides the identifier regardless of ContextTraceIDField and the header |
| GinLogrus.TraceFieldConsultedOnlyThird | logger.go:82-89 | ContextTraceIDField affects the result only when nothing is cached, "tracing-context" is absent and the name is non-empty; then its span decides |
| GinLogrus.TraceHeaderUsedVerbatim | logger.go:91-94 | with no cached id and no span, a non-empty uber-trace-id header is the identifier verbatim |
| GinLogrus.GeneratedWhenNoSource | logger.go:96-99 | with no source and an empty header, the generated UUID is the identifier, so it is non-empty (36 characters) |
| GinLogrus.FetchReturnsCached | logger.go:44-47 | a cached "ctxLogger" entry is returned and nothing changes |
| GinLogrus.FetchIsIdempotent | logger.go:43-64 | after one call, every later call returns the identical entry and leaves the state as it is |
| GinLogrus.FetchWithoutAggregate | logger.go:54-62 | on a miss without an aggregate logger, the entry uses the standard logger with exactly requestID (the resolved id), method and path; only "RequestID" and "ctxLogger" change |
| GinLogrus.FetchWithAggregate | logger.go:49-53 | on a miss with an aggregate logger, the entry has no fields and uses the aggregate logger; only "ctxLogger" changes |
| GinLogrus.BindOverwritesHandle | logger.go:38-39 | SetCtxLogger always overwrites "ctxLogger" with the entry it returns, which GetCtxLogger returns afterwards; Header and output are untouched |
| GinLogrus.BindWithoutAggregate | logger.go:31-37 | without an aggregate logger, the given logger and fields are kept, and requestID (the resolved id), method and path are set over them |
| GinLogrus.BindWithAggregate | logger.go:26-30 | with an aggregate logger, the entry uses it, keeps exactly the given fields, and only "ctxLogger" changes |
| GinLogrus.AnnotateWithAggregate | logger.go:14-18 | in aggregate mode, Header becomes Header[name := data] and nothing is logged |
| GinLogrus.AnnotateLastWriteWins | logger.go:17 | two writes under one name leave the second value (overwrite, not append) |
| GinLogrus.AnnotateWithoutAggregate | logger.go:19-21 | otherwise exactly one info line (name, data, the handle's logger and fields) is appended and the Header is untouched |
| GinLogrus.CachedRequestId | logger.go:103-113 | a string requestID field of the cached handle is returned; "unknown" when no handle is cached or the field is missing or not a string |
| GinLogrus.CachedIdAfterFetch | logger.go:54-62 | without an aggregate logger, after GetCtxLogger the identifier read back is the resolved one |
| GinLogrus.CachedIdAfterBind | logger.go:31-38 | without an aggregate logger, after SetCtxLogger the identifier read back is the resolved one |
| GinLogrus.CachedIdUnknownWithAggregate | logger.go:49-53 | with an aggregate logger and no handle, GetCtxLogger attaches no identifier, so "unknown" is read back |
| Precedence.FirstOffering | logger.go:67-100 | the position of the first source, in a given order, that offers an identifier; all sources before it offer none |
| Precedence.ResolveFollowsPrecedence | logger.go:67-100 | CxtRequestID returns exactly what the first offering source (cached, tracing span, field span, header, UUID) offers |
| Precedence.WinnerConditions | logger.go:69-99 | each source wins if and only if its own condition holds and no earlier source applies |
| RequestContext.Context.CxtRequestID | logger.go:67-100 | returns the resolved id and stores it under "RequestID"; no other key, nor the Header or output, changes |
| RequestContext.Context.GetCtxLogger | logger.go:43-64 | returns and caches the entry GetCtxLogger's specification gives; "ctxLogger" holds the returned entry |
| RequestContext.Context.SetCtxLogger | logger.go:25-40 | returns the derived entry and leaves it under "ctxLogger", as its specification gives |
| RequestContext.Context.SetCtxLoggerHeader | logger.go:13-22 | aggregate mode writes Header[name] and logs nothing; otherwise logs exactly one line and leaves the Header |
| RequestContext.Context.GetCxtRequestID | logger.go:103-113 | returns the cached entry's string requestID or "unknown", changing nothing |
| Session.StepKeepsRequestId | logger.go:69-71 | no operation replaces a stored identifier, and a resolving call leaves its result stored |
| Session.RunKeepsRequestId | logger.go:66-100 | across any sequence of calls in one request a stored identifier is never replaced |
| Session.ResolvedRepliesMatchLast | logger.go:66-100 | every identifier CxtRequestID returns during a request is the one stored when it ends |
| Session.ResolvedRepliesAgree | logger.go:66-100 | any two CxtRequestID calls in one request return the same identifier |
| Session.StepKeepsAgreement | logger.go:25-64 | without an aggregate logger, starting from a store with no cached handle or one whose requestID equals the stored "RequestID", every call keeps the cached handle's requestID equal to the stored identifier |
| Session.CachedRepliesMatchLast | logger.go:102-113 | without an aggregate logger, starting from a store with no cached handle or one whose requestID equals the stored "RequestID", every identifier GetCxtRequestID reads back is "unknown" or the final stored identifier |
| Session.CachedIdAgreesWithResolved | logger.go:102-113 | without an aggregate logger, starting from a store with no cached handle or one whose requestID equals the stored "RequestID", GetCxtRequestID never reports an identifier different from CxtRequestID's, whichever runs first |

## Left out

- SetCtxLogger: entries and loggers are values here, not pointers. The Go code rebinds
  the caller's own entry to the aggregate logger (logger.go:28). The caller does not see
  that change in the model; only the returned entry carries the aggregate logger.
  The store never holds the caller's entry object (it holds `WithFields` copies), so the
  store's behaviour is unaffected.
- "Identical entry" means equal values, since pointer identity is not modelled.
- Type assertions that panic (logger.go:17, 28, 46, 52, 70, 75, 84, 106) are
  preconditions of each operation. In `Session.Run`, a panicking call ends the request.
  A nil (typed or untyped) stored under a key is not modelled.
- logrus internals are not modelled: message formatting (`Infof`'s `%s: %v`), level
  filtering, output writers and timestamps. A log line is recorded as
  (level, logger, fields, name, data). `WithFields`' rejection of function-valued
  fields is also not modelled.
- `fmt.Sprintf("%v", span)` is not modelled: a span carries its rendering.
- UUID generation is not modelled: `Env.generated` is the string the generator would
  produce. Uniqueness across requests cannot be stated about one request and is not
  modelled.
- Header names are taken to be already canonical (`Uber-Trace-Id`), as net/http stores
  them. Name canonicalisation itself is not modelled.
- `interface{}` values passed to SetCtxLoggerHeader or kept as fields are reduced to
  text or integers.
- The `LogBuffer` type and the `ContextTraceIDField` variable are not part of this model.
  LogBuffer stands as the request's one Header map, which a handle writing to any
  LogBuffer writes into. ContextTraceIDField is a configuration string in `Env`. A nil
  Header map (a Go panic on write) is not modelled.
- Sharing the aggregate logger across concurrent requests is concurrency owned by that
  logger's owner, and is not modelled.
