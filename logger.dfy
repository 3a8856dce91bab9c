/**
 * The behaviour of logger.go as functions on a snapshot of one request's state:
 * what each public operation returns and what the request context, the aggregate
 * buffer's Header and the log output look like afterwards. The class in
 * context.dfy implements the operations imperatively and is proved against these
 * functions; the lemmas here state what the operations promise.
 *
 * A Go type assertion that would panic is a precondition (the `...Safe`
 * predicates), stated exactly for the assertions the Go code reaches.
 */
module GinLogrus {
  import opened Values

  const RequestIdKey := "RequestID"
  const TracingKey := "tracing-context"
  const AggregateKey := "aggregate-logger"
  const CtxLoggerKey := "ctxLogger"
  /** `uber-trace-id`, in the canonical form under which net/http keeps it. */
  const TraceHeaderName := "Uber-Trace-Id"
  const RequestIdField := "requestID"
  const MethodField := "method"
  const PathField := "path"
  const Unknown := "unknown"

  /** One request's state: the gin key/value store, the aggregate LogBuffer's Header, and the lines logged so far. */
  datatype State = State(keys: map<string, Value>, header: map<string, Datum>, output: seq<LogLine>)

  /** `c.Set("ctxLogger", e)`. */
  function Cache(s: State, e: Entry): State
  {
    s.(keys := s.keys[CtxLoggerKey := EntryVal(e)])
  }

  // ---------------------------------------------------------------------------
  // CxtRequestID

  /** The type assertions CxtRequestID reaches do not panic. */
  predicate ResolveSafe(keys: map<string, Value>, env: Env)
  {
    && (RequestIdKey in keys ==> keys[RequestIdKey].StrVal?)
    && (RequestIdKey !in keys && TracingKey in keys ==> keys[TracingKey].SpanVal?)
    && (RequestIdKey !in keys && TracingKey !in keys && |env.traceField| != 0 && env.traceField in keys ==>
          keys[env.traceField].SpanVal?)
  }

  function TraceHeader(req: Request): string
  {
    HeaderValue(req, TraceHeaderName)
  }

  /** The identifier CxtRequestID settles on. */
  function ResolvedId(keys: map<string, Value>, req: Request, env: Env): string
    requires ResolveSafe(keys, env)
  {
    if RequestIdKey in keys then keys[RequestIdKey].s
    else if TracingKey in keys then Render(keys[TracingKey].span)
    else if |env.traceField| != 0 && env.traceField in keys then Render(keys[env.traceField].span)
    else if |TraceHeader(req)| != 0 then TraceHeader(req)
    else env.generated
  }

  /** CxtRequestID: the identifier, and the state after it has been stored under "RequestID". */
  function ResolveStep(s: State, req: Request, env: Env): (string, State)
    requires ResolveSafe(s.keys, env)
  {
    var id := ResolvedId(s.keys, req, env);
    (id, s.(keys := s.keys[RequestIdKey := StrVal(id)]))
  }

  /** A cached identifier is returned as it is, and the state is left exactly as it was. */
  lemma ResolveReturnsCached(s: State, req: Request, env: Env)
    requires RequestIdKey in s.keys && s.keys[RequestIdKey].StrVal?
    ensures ResolveSafe(s.keys, env)
    ensures ResolveStep(s, req, env) == (s.keys[RequestIdKey].s, s)
  {
    assert s.keys[RequestIdKey := s.keys[RequestIdKey]] == s.keys;
  }

  /**
   * Idempotence: a second call, whatever the request and the environment then hold,
   * returns the first call's identifier and changes nothing.
   */
  lemma ResolveIsIdempotent(s: State, req: Request, env: Env, req2: Request, env2: Env)
    requires ResolveSafe(s.keys, env)
    ensures var (id, s1) := ResolveStep(s, req, env);
            ResolveSafe(s1.keys, env2) && ResolveStep(s1, req2, env2) == (id, s1)
  {
    var (id, s1) := ResolveStep(s, req, env);
    ResolveReturnsCached(s1, req2, env2);
  }

  /** A span under "tracing-context" decides the identifier, whatever ContextTraceIDField and the trace header say. */
  lemma TracingSpanWins(keys: map<string, Value>, req: Request, env: Env, span: Span)
    requires RequestIdKey !in keys && TracingKey in keys && keys[TracingKey] == SpanVal(span)
    ensures ResolveSafe(keys, env) && ResolvedId(keys, req, env) == Render(span)
  {
  }

  /**
   * ContextTraceIDField is consulted only when nothing is cached, "tracing-context" is
   * absent and the field name is non-empty; otherwise the result is the one an empty
   * field name gives. When it is consulted and holds a span, that span decides.
   */
  lemma TraceFieldConsultedOnlyThird(keys: map<string, Value>, req: Request, env: Env)
    requires ResolveSafe(keys, env)
    ensures ResolveSafe(keys, env.(traceField := ""))
    ensures !(RequestIdKey !in keys && TracingKey !in keys && env.traceField != "" && env.traceField in keys) ==>
              ResolvedId(keys, req, env) == ResolvedId(keys, req, env.(traceField := ""))
    ensures RequestIdKey !in keys && TracingKey !in keys && env.traceField != "" && env.traceField in keys ==>
              ResolvedId(keys, req, env) == Render(keys[env.traceField].span)
  {
  }

  /** With nothing cached and no span, a non-empty uber-trace-id header is the identifier, verbatim. */
  lemma TraceHeaderUsedVerbatim(keys: map<string, Value>, req: Request, env: Env)
    requires RequestIdKey !in keys && TracingKey !in keys && (env.traceField == "" || env.traceField !in keys)
    requires TraceHeader(req) != ""
    ensures ResolveSafe(keys, env) && ResolvedId(keys, req, env) == TraceHeader(req)
  {
  }

  /** With no source at all (an empty header included) the generated UUID is the identifier, so it is never empty. */
  lemma GeneratedWhenNoSource(keys: map<string, Value>, req: Request, env: Env)
    requires RequestIdKey !in keys && TracingKey !in keys && (env.traceField == "" || env.traceField !in keys)
    requires TraceHeader(req) == "" && IsUuid(env.generated)
    ensures ResolveSafe(keys, env)
    ensures ResolvedId(keys, req, env) == env.generated && |ResolvedId(keys, req, env)| == 36
  {
  }

  // ---------------------------------------------------------------------------
  // GetCtxLogger

  /** The type assertions GetCtxLogger reaches do not panic. */
  predicate FetchSafe(keys: map<string, Value>, env: Env)
  {
    if CtxLoggerKey in keys then keys[CtxLoggerKey].EntryVal?
    else if AggregateKey in keys then keys[AggregateKey].LoggerVal?
    else ResolveSafe(keys, env)
  }

  /** The fields attached when not aggregate logging. */
  function RequestFields(id: string, req: Request): map<string, Datum>
  {
    map[RequestIdField := Text(id), MethodField := Text(req.httpMethod), PathField := Text(req.path)]
  }

  /** GetCtxLogger: the cached entry, or a new one built for this request and cached. */
  function FetchStep(s: State, req: Request, env: Env): (Entry, State)
    requires FetchSafe(s.keys, env)
  {
    if CtxLoggerKey in s.keys then
      (s.keys[CtxLoggerKey].entry, s)
    else if AggregateKey in s.keys then
      var e := Entry(s.keys[AggregateKey].logger, map[]);
      (e, Cache(s, e))
    else
      var (id, s1) := ResolveStep(s, req, env);
      var e := Entry(env.std, RequestFields(id, req));
      (e, Cache(s1, e))
  }

  /** A cached entry is returned without changing anything. */
  lemma FetchReturnsCached(s: State, req: Request, env: Env)
    requires CtxLoggerKey in s.keys && s.keys[CtxLoggerKey].EntryVal?
    ensures FetchSafe(s.keys, env) && FetchStep(s, req, env) == (s.keys[CtxLoggerKey].entry, s)
  {
  }

  /** After one call, every later call returns the identical entry and changes nothing. */
  lemma FetchIsIdempotent(s: State, req: Request, env: Env, req2: Request, env2: Env)
    requires FetchSafe(s.keys, env)
    ensures var (e, s1) := FetchStep(s, req, env);
            FetchSafe(s1.keys, env2) && FetchStep(s1, req2, env2) == (e, s1)
  {
  }

  /**
   * A miss without an aggregate logger: the entry writes through the standard logger
   * and carries exactly requestID (the resolver's identifier), method and path; only
   * "RequestID" and "ctxLogger" change in the store, and nothing else changes.
   */
  lemma FetchWithoutAggregate(s: State, req: Request, env: Env)
    requires CtxLoggerKey !in s.keys && AggregateKey !in s.keys && ResolveSafe(s.keys, env)
    ensures FetchSafe(s.keys, env)
    ensures var (e, s1) := FetchStep(s, req, env);
            var id := ResolvedId(s.keys, req, env);
            && e.logger == env.std
            && e.data.Keys == {RequestIdField, MethodField, PathField}
            && e.data[RequestIdField] == Text(id)
            && e.data[MethodField] == Text(req.httpMethod)
            && e.data[PathField] == Text(req.path)
            && s1.keys == s.keys[RequestIdKey := StrVal(id)][CtxLoggerKey := EntryVal(e)]
            && s1.header == s.header && s1.output == s.output
  {
  }

  /**
   * A miss with an aggregate logger: the entry carries no fields and writes through the
   * aggregate logger; only "ctxLogger" changes, and the identifier is not resolved.
   */
  lemma FetchWithAggregate(s: State, req: Request, env: Env)
    requires CtxLoggerKey !in s.keys && AggregateKey in s.keys && s.keys[AggregateKey].LoggerVal?
    ensures FetchSafe(s.keys, env)
    ensures var (e, s1) := FetchStep(s, req, env);
            && e.logger == s.keys[AggregateKey].logger
            && e.data == map[]
            && s1 == s.(keys := s.keys[CtxLoggerKey := EntryVal(e)])
  {
  }

  // ---------------------------------------------------------------------------
  // SetCtxLogger

  /** The type assertions SetCtxLogger reaches do not panic. */
  predicate BindSafe(keys: map<string, Value>, env: Env)
  {
    if AggregateKey in keys then keys[AggregateKey].LoggerVal? else ResolveSafe(keys, env)
  }

  /** SetCtxLogger: the entry derived from `given`, and the state with it cached under "ctxLogger". */
  function BindStep(s: State, req: Request, env: Env, given: Entry): (Entry, State)
    requires BindSafe(s.keys, env)
  {
    if AggregateKey in s.keys then
      var e := Entry(s.keys[AggregateKey].logger, given.data);
      (e, Cache(s, e))
    else
      var (id, s1) := ResolveStep(s, req, env);
      var e := Entry(given.logger, given.data + RequestFields(id, req));
      (e, Cache(s1, e))
  }

  /**
   * SetCtxLogger always replaces whatever handle was cached with the one it returns,
   * which every later GetCtxLogger returns; the Header and the output are untouched.
   */
  lemma BindOverwritesHandle(s: State, req: Request, env: Env, given: Entry, req2: Request, env2: Env)
    requires BindSafe(s.keys, env)
    ensures var (e, s1) := BindStep(s, req, env, given);
            && CtxLoggerKey in s1.keys && s1.keys[CtxLoggerKey] == EntryVal(e)
            && FetchSafe(s1.keys, env2) && FetchStep(s1, req2, env2) == (e, s1)
            && s1.header == s.header && s1.output == s.output
  {
  }

  /**
   * Without an aggregate logger: the handle keeps the given logger and fields, and
   * requestID (the resolver's identifier), method and path are set over them.
   */
  lemma BindWithoutAggregate(s: State, req: Request, env: Env, given: Entry)
    requires AggregateKey !in s.keys && ResolveSafe(s.keys, env)
    ensures BindSafe(s.keys, env)
    ensures var (e, s1) := BindStep(s, req, env, given);
            var id := ResolvedId(s.keys, req, env);
            && e.logger == given.logger
            && e.data.Keys == given.data.Keys + {RequestIdField, MethodField, PathField}
            && e.data[RequestIdField] == Text(id)
            && e.data[MethodField] == Text(req.httpMethod)
            && e.data[PathField] == Text(req.path)
            && (forall k :: k in given.data && k !in {RequestIdField, MethodField, PathField} ==> e.data[k] == given.data[k])
            && s1.keys == s.keys[RequestIdKey := StrVal(id)][CtxLoggerKey := EntryVal(e)]
  {
  }

  /**
   * With an aggregate logger: the handle writes through the aggregate logger, no field
   * is added to the given ones, and only "ctxLogger" changes.
   */
  lemma BindWithAggregate(s: State, req: Request, env: Env, given: Entry)
    requires AggregateKey in s.keys && s.keys[AggregateKey].LoggerVal?
    ensures BindSafe(s.keys, env)
    ensures var (e, s1) := BindStep(s, req, env, given);
            && e.logger == s.keys[AggregateKey].logger
            && e.data == given.data
            && s1 == s.(keys := s.keys[CtxLoggerKey := EntryVal(e)])
  {
  }

  // ---------------------------------------------------------------------------
  // SetCtxLoggerHeader

  /** The type assertions SetCtxLoggerHeader reaches do not panic: in aggregate mode the handle's logger writes to a LogBuffer. */
  predicate AnnotateSafe(s: State, req: Request, env: Env)
  {
    && FetchSafe(s.keys, env)
    && (AggregateKey in s.keys ==> FetchStep(s, req, env).0.logger.out.Buffer?)
  }

  /** SetCtxLoggerHeader: a Header entry when aggregate logging, one info line otherwise. */
  function AnnotateStep(s: State, req: Request, env: Env, name: string, data: Datum): State
    requires AnnotateSafe(s, req, env)
  {
    var (e, s1) := FetchStep(s, req, env);
    if AggregateKey in s1.keys then s1.(header := s1.header[name := data])
    else s1.(output := s1.output + [LogLine(Info, e.logger, e.data, name, data)])
  }

  /** Aggregate mode: `name` is set to `data` in the Header and nothing is logged. */
  lemma AnnotateWithAggregate(s: State, req: Request, env: Env, name: string, data: Datum)
    requires AggregateKey in s.keys && AnnotateSafe(s, req, env)
    ensures var s2 := AnnotateStep(s, req, env, name, data);
            && s2.header == s.header[name := data]
            && s2.output == s.output
            && s2.keys == FetchStep(s, req, env).1.keys
  {
  }

  /** Aggregate mode: a second write under the same name overwrites the first rather than adding to it. */
  lemma AnnotateLastWriteWins(s: State, req: Request, env: Env, name: string, d1: Datum, d2: Datum)
    requires AggregateKey in s.keys && AnnotateSafe(s, req, env)
    ensures var s1 := AnnotateStep(s, req, env, name, d1);
            AnnotateSafe(s1, req, env) && AnnotateStep(s1, req, env, name, d2).header == s.header[name := d2]
  {
  }

  /**
   * Otherwise: exactly one info line `name: data` is appended, carrying the handle's
   * logger and fields, and the Header is untouched.
   */
  lemma AnnotateWithoutAggregate(s: State, req: Request, env: Env, name: string, data: Datum)
    requires AggregateKey !in s.keys && AnnotateSafe(s, req, env)
    ensures var (e, s1) := FetchStep(s, req, env);
            var s2 := AnnotateStep(s, req, env, name, data);
            && s2.header == s.header
            && s2.output == s.output + [LogLine(Info, e.logger, e.data, name, data)]
            && s2.keys == s1.keys
  {
  }

  // ---------------------------------------------------------------------------
  // GetCxtRequestID

  /** The type assertion GetCxtRequestID reaches does not panic. */
  predicate CachedSafe(keys: map<string, Value>)
  {
    CtxLoggerKey in keys ==> keys[CtxLoggerKey].EntryVal?
  }

  /** GetCxtRequestID: the string requestID field of the cached entry, or "unknown". */
  function CachedRequestId(keys: map<string, Value>): (id: string)
    requires CachedSafe(keys)
    ensures CtxLoggerKey !in keys ==> id == Unknown
    ensures CtxLoggerKey in keys && RequestIdField !in keys[CtxLoggerKey].entry.data ==> id == Unknown
    ensures (CtxLoggerKey in keys && RequestIdField in keys[CtxLoggerKey].entry.data &&
             !keys[CtxLoggerKey].entry.data[RequestIdField].Text?) ==> id == Unknown
    ensures (CtxLoggerKey in keys && RequestIdField in keys[CtxLoggerKey].entry.data &&
             keys[CtxLoggerKey].entry.data[RequestIdField].Text?) ==>
              id == keys[CtxLoggerKey].entry.data[RequestIdField].text
    ensures id != Unknown ==> CtxLoggerKey in keys && keys[CtxLoggerKey].entry.data[RequestIdField] == Text(id)
  {
    if CtxLoggerKey in keys then
      var data := keys[CtxLoggerKey].entry.data;
      if RequestIdField in data && data[RequestIdField].Text? then data[RequestIdField].text else Unknown
    else
      Unknown
  }

  /** Without an aggregate logger, reading the identifier back after GetCtxLogger yields the resolver's identifier. */
  lemma CachedIdAfterFetch(s: State, req: Request, env: Env)
    requires CtxLoggerKey !in s.keys && AggregateKey !in s.keys && ResolveSafe(s.keys, env)
    ensures FetchSafe(s.keys, env)
    ensures CachedSafe(FetchStep(s, req, env).1.keys)
    ensures CachedRequestId(FetchStep(s, req, env).1.keys) == ResolvedId(s.keys, req, env)
  {
  }

  /** Without an aggregate logger, reading the identifier back after SetCtxLogger yields the resolver's identifier. */
  lemma CachedIdAfterBind(s: State, req: Request, env: Env, given: Entry)
    requires AggregateKey !in s.keys && ResolveSafe(s.keys, env)
    ensures BindSafe(s.keys, env)
    ensures CachedSafe(BindStep(s, req, env, given).1.keys)
    ensures CachedRequestId(BindStep(s, req, env, given).1.keys) == ResolvedId(s.keys, req, env)
  {
  }

  /** With an aggregate logger and no handle yet, GetCtxLogger attaches no identifier, so reading it back yields "unknown". */
  lemma CachedIdUnknownWithAggregate(s: State, req: Request, env: Env)
    requires CtxLoggerKey !in s.keys && AggregateKey in s.keys && s.keys[AggregateKey].LoggerVal?
    ensures FetchSafe(s.keys, env)
    ensures CachedSafe(FetchStep(s, req, env).1.keys)
    ensures CachedRequestId(FetchStep(s, req, env).1.keys) == Unknown
  {
  }
}
