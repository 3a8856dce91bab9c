/**
 * An independent statement of how CxtRequestID picks an identifier: five sources,
 * each of which may offer an identifier, tried in a fixed order; the first one that
 * offers wins. ResolveFollowsPrecedence shows that GinLogrus.ResolvedId is exactly
 * this rule.
 */
module Precedence {
  import opened Values
  import opened GinLogrus

  datatype Source = Cached | TracingSpan | FieldSpan | TraceHeaderValue | Generated

  /** The order in which CxtRequestID consults the sources. */
  const Order: seq<Source> := [Cached, TracingSpan, FieldSpan, TraceHeaderValue, Generated]

  /** What a source offers on its own, judged without looking at any other source. */
  function Offer(src: Source, keys: map<string, Value>, req: Request, env: Env): Option<string>
  {
    match src
    case Cached =>
      if RequestIdKey in keys && keys[RequestIdKey].StrVal? then Some(keys[RequestIdKey].s) else None
    case TracingSpan =>
      if TracingKey in keys && keys[TracingKey].SpanVal? then Some(Render(keys[TracingKey].span)) else None
    case FieldSpan =>
      if env.traceField != "" && env.traceField in keys && keys[env.traceField].SpanVal?
      then Some(Render(keys[env.traceField].span))
      else None
    case TraceHeaderValue =>
      if TraceHeader(req) != "" then Some(TraceHeader(req)) else None
    case Generated =>
      Some(env.generated)
  }

  /** The position in `order` of the first source that offers an identifier. */
  function FirstOffering(order: seq<Source>, keys: map<string, Value>, req: Request, env: Env): (i: nat)
    requires |order| > 0 && Offer(order[|order| - 1], keys, req, env).Some?
    ensures i < |order| && Offer(order[i], keys, req, env).Some?
    ensures forall j :: 0 <= j < i ==> Offer(order[j], keys, req, env).None?
    decreases |order|
  {
    if Offer(order[0], keys, req, env).Some? then 0
    else 1 + FirstOffering(order[1..], keys, req, env)
  }

  /** The source that decides the identifier. */
  function Winner(keys: map<string, Value>, req: Request, env: Env): Source
  {
    Order[FirstOffering(Order, keys, req, env)]
  }

  /**
   * CxtRequestID returns what the first offering source offers, and every source
   * ranked before it offers nothing.
   */
  lemma ResolveFollowsPrecedence(keys: map<string, Value>, req: Request, env: Env)
    requires ResolveSafe(keys, env)
    ensures Offer(Winner(keys, req, env), keys, req, env) == Some(ResolvedId(keys, req, env))
  {
  }

  /**
   * Which source wins, stated by its condition: in particular ContextTraceIDField
   * decides only when nothing is cached, "tracing-context" is absent and the field
   * name is non-empty, and the generated UUID only when no other source offers.
   */
  lemma WinnerConditions(keys: map<string, Value>, req: Request, env: Env)
    requires ResolveSafe(keys, env)
    ensures Winner(keys, req, env) == Cached <==> RequestIdKey in keys
    ensures Winner(keys, req, env) == TracingSpan <==> RequestIdKey !in keys && TracingKey in keys
    ensures Winner(keys, req, env) == FieldSpan <==>
              RequestIdKey !in keys && TracingKey !in keys && env.traceField != "" && env.traceField in keys
    ensures Winner(keys, req, env) == TraceHeaderValue <==>
              RequestIdKey !in keys && TracingKey !in keys && (env.traceField == "" || env.traceField !in keys)
              && TraceHeader(req) != ""
    ensures Winner(keys, req, env) == Generated <==>
              RequestIdKey !in keys && TracingKey !in keys && (env.traceField == "" || env.traceField !in keys)
              && TraceHeader(req) == ""
  {
  }
}
