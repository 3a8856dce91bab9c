/**
 * A request's whole life as seen by logger.go: any sequence of calls to its five
 * public operations, run against one request's state. A call whose type assertion
 * would fail panics, which aborts the request: the calls after it never run.
 *
 * The lemmas state what holds across every such sequence: the identifier, once
 * resolved, never changes, and, when no aggregate logger is configured and the
 * request starts with no cached handle (or one agreeing with the stored
 * identifier), the identifier read back from the handle is the resolved one.
 */
module Session {
  import opened Values
  import opened GinLogrus

  datatype Call =
    | ResolveId                               // CxtRequestID
    | GetLogger                               // GetCtxLogger
    | SetLogger(given: Entry)                 // SetCtxLogger
    | SetHeader(name: string, data: Datum)    // SetCtxLoggerHeader
    | ReadCachedId                            // GetCxtRequestID

  datatype Reply = Resolved(id: string) | Handle(entry: Entry) | Annotated | CachedId(id: string)

  datatype Trace = Trace(replies: seq<Reply>, last: State)

  /** The call runs without panicking. */
  predicate CallSafe(s: State, req: Request, env: Env, call: Call)
  {
    match call
    case ResolveId => ResolveSafe(s.keys, env)
    case GetLogger => FetchSafe(s.keys, env)
    case SetLogger(_) => BindSafe(s.keys, env)
    case SetHeader(_, _) => AnnotateSafe(s, req, env)
    case ReadCachedId => CachedSafe(s.keys)
  }

  function Step(s: State, req: Request, env: Env, call: Call): (Reply, State)
    requires CallSafe(s, req, env, call)
  {
    match call
    case ResolveId => var (id, s1) := ResolveStep(s, req, env); (Resolved(id), s1)
    case GetLogger => var (e, s1) := FetchStep(s, req, env); (Handle(e), s1)
    case SetLogger(given) => var (e, s1) := BindStep(s, req, env, given); (Handle(e), s1)
    case SetHeader(name, data) => (Annotated, AnnotateStep(s, req, env, name, data))
    case ReadCachedId => (CachedId(CachedRequestId(s.keys)), s)
  }

  /** The replies of the calls that ran, and the state the request ends in. */
  function Run(s: State, req: Request, env: Env, calls: seq<Call>): Trace
    decreases |calls|
  {
    if calls == [] || !CallSafe(s, req, env, calls[0]) then Trace([], s)
    else
      var (r, s1) := Step(s, req, env, calls[0]);
      var t := Run(s1, req, env, calls[1..]);
      Trace([r] + t.replies, t.last)
  }

  /** No call changes a resolved identifier, and a call that resolves one leaves it in the store. */
  lemma StepKeepsRequestId(s: State, req: Request, env: Env, call: Call)
    requires CallSafe(s, req, env, call)
    ensures var (r, s1) := Step(s, req, env, call);
            && (RequestIdKey in s.keys ==> RequestIdKey in s1.keys && s1.keys[RequestIdKey] == s.keys[RequestIdKey])
            && (r.Resolved? ==> RequestIdKey in s1.keys && s1.keys[RequestIdKey] == StrVal(r.id))
  {
  }

  /** Across a whole request, a stored identifier is never replaced. */
  lemma {:induction false} RunKeepsRequestId(s: State, req: Request, env: Env, calls: seq<Call>)
    requires RequestIdKey in s.keys
    ensures var t := Run(s, req, env, calls);
            RequestIdKey in t.last.keys && t.last.keys[RequestIdKey] == s.keys[RequestIdKey]
    decreases |calls|
  {
    if calls != [] && CallSafe(s, req, env, calls[0]) {
      StepKeepsRequestId(s, req, env, calls[0]);
      var (_, s1) := Step(s, req, env, calls[0]);
      RunKeepsRequestId(s1, req, env, calls[1..]);
    }
  }

  /** Every identifier the trace's CxtRequestID calls returned is the one stored when the request ends. */
  predicate ResolvedMatchLast(t: Trace)
  {
    forall i :: 0 <= i < |t.replies| && t.replies[i].Resolved? ==>
      RequestIdKey in t.last.keys && t.last.keys[RequestIdKey] == StrVal(t.replies[i].id)
  }

  /** Every identifier CxtRequestID returns during a request is the one the request ends with. */
  lemma {:induction false} ResolvedRepliesMatchLast(s: State, req: Request, env: Env, calls: seq<Call>)
    ensures ResolvedMatchLast(Run(s, req, env, calls))
    decreases |calls|
  {
    if calls != [] && CallSafe(s, req, env, calls[0]) {
      StepKeepsRequestId(s, req, env, calls[0]);
      var (r, s1) := Step(s, req, env, calls[0]);
      var t1 := Run(s1, req, env, calls[1..]);
      ResolvedRepliesMatchLast(s1, req, env, calls[1..]);
      var t := Run(s, req, env, calls);
      assert t == Trace([r] + t1.replies, t1.last);
      if r.Resolved? {
        RunKeepsRequestId(s1, req, env, calls[1..]);
      }
      forall i | 0 <= i < |t.replies| && t.replies[i].Resolved?
        ensures RequestIdKey in t.last.keys && t.last.keys[RequestIdKey] == StrVal(t.replies[i].id)
      {
        if i > 0 {
          assert t.replies[i] == t1.replies[i - 1];
        }
      }
    }
  }

  /** Idempotence over a whole request: any two calls of CxtRequestID return the same identifier. */
  lemma ResolvedRepliesAgree(s: State, req: Request, env: Env, calls: seq<Call>, i: nat, j: nat)
    requires var t := Run(s, req, env, calls);
             i < |t.replies| && j < |t.replies| && t.replies[i].Resolved? && t.replies[j].Resolved?
    ensures Run(s, req, env, calls).replies[i] == Run(s, req, env, calls).replies[j]
  {
    ResolvedRepliesMatchLast(s, req, env, calls);
  }

  /** A cached handle, if there is one, carries the stored identifier as its requestID field. */
  predicate HandleAgrees(keys: map<string, Value>)
  {
    CtxLoggerKey in keys ==>
      && keys[CtxLoggerKey].EntryVal?
      && RequestIdKey in keys && keys[RequestIdKey].StrVal?
      && RequestIdField in keys[CtxLoggerKey].entry.data
      && keys[CtxLoggerKey].entry.data[RequestIdField] == Text(keys[RequestIdKey].s)
  }

  /** Without an aggregate logger every call keeps the cached handle in agreement with the stored identifier. */
  lemma StepKeepsAgreement(s: State, req: Request, env: Env, call: Call)
    requires AggregateKey !in s.keys && HandleAgrees(s.keys) && CallSafe(s, req, env, call)
    ensures var (r, s1) := Step(s, req, env, call);
            && AggregateKey !in s1.keys && HandleAgrees(s1.keys)
            && (r.CachedId? && r.id != Unknown ==> RequestIdKey in s1.keys && s1.keys[RequestIdKey] == StrVal(r.id))
  {
  }

  /**
   * Without an aggregate logger, and from a start where any cached handle agrees with
   * the stored identifier, every identifier GetCxtRequestID reads back during a
   * request is "unknown" or the identifier the request ends with.
   */
  lemma {:induction false} CachedRepliesMatchLast(s: State, req: Request, env: Env, calls: seq<Call>)
    requires AggregateKey !in s.keys && HandleAgrees(s.keys)
    ensures var t := Run(s, req, env, calls);
            && HandleAgrees(t.last.keys)
            && forall i :: 0 <= i < |t.replies| && t.replies[i].CachedId? && t.replies[i].id != Unknown ==>
                 RequestIdKey in t.last.keys && t.last.keys[RequestIdKey] == StrVal(t.replies[i].id)
    decreases |calls|
  {
    if calls != [] && CallSafe(s, req, env, calls[0]) {
      StepKeepsAgreement(s, req, env, calls[0]);
      var (r, s1) := Step(s, req, env, calls[0]);
      CachedRepliesMatchLast(s1, req, env, calls[1..]);
      var t1 := Run(s1, req, env, calls[1..]);
      var t := Run(s, req, env, calls);
      assert t == Trace([r] + t1.replies, t1.last);
      if r.CachedId? && r.id != Unknown {
        RunKeepsRequestId(s1, req, env, calls[1..]);
      }
      forall i | 0 <= i < |t.replies| && t.replies[i].CachedId? && t.replies[i].id != Unknown
        ensures RequestIdKey in t.last.keys && t.last.keys[RequestIdKey] == StrVal(t.replies[i].id)
      {
        if i > 0 {
          assert t.replies[i] == t1.replies[i - 1];
        }
      }
    }
  }

  /**
   * Without an aggregate logger, and from a start where any cached handle agrees with
   * the stored identifier, GetCxtRequestID never reports an identifier other than the
   * one CxtRequestID returns, whichever of the two runs first.
   */
  lemma CachedIdAgreesWithResolved(s: State, req: Request, env: Env, calls: seq<Call>, i: nat, j: nat)
    requires AggregateKey !in s.keys && HandleAgrees(s.keys)
    requires var t := Run(s, req, env, calls);
             i < |t.replies| && j < |t.replies| && t.replies[i].Resolved?
             && t.replies[j].CachedId? && t.replies[j].id != Unknown
    ensures Run(s, req, env, calls).replies[j].id == Run(s, req, env, calls).replies[i].id
  {
    ResolvedRepliesMatchLast(s, req, env, calls);
    CachedRepliesMatchLast(s, req, env, calls);
  }
}
