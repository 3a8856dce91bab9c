/**
 * The operations of logger.go written the way the Go code runs them: step by step
 * against one request's `*gin.Context`, whose key/value store they read with
 * `c.Get` and update with `c.Set`. The aggregate LogBuffer's Header and the log
 * output of the request live beside the store. Every operation is proved to do
 * exactly what its function in GinLogrus describes.
 */
module RequestContext {
  import opened Values
  import opened GinLogrus

  class Context {
    /** `c.Keys`: the request-scoped store. */
    var keys: map<string, Value>
    /** The Header map of the request's aggregate LogBuffer. */
    var header: map<string, Datum>
    /** The lines logged during the request, oldest first. */
    var output: seq<LogLine>
    /** `c.Request`. */
    const request: Request

    constructor (request: Request, keys: map<string, Value>, header: map<string, Datum>)
      ensures this.request == request && this.keys == keys && this.header == header && output == []
    {
      this.request := request;
      this.keys := keys;
      this.header := header;
      this.output := [];
    }

    function Snapshot(): State
      reads this
    {
      State(keys, header, output)
    }

    /** `c.Set(key, v)`. */
    method Set(key: string, v: Value)
      modifies this`keys
      ensures keys == old(keys)[key := v]
    {
      keys := keys[key := v];
    }

    /** CxtRequestID: the request's correlation identifier, memoised under "RequestID". */
    method CxtRequestID(env: Env) returns (id: string)
      requires ResolveSafe(keys, env)
      modifies this`keys
      ensures (id, Snapshot()) == ResolveStep(old(Snapshot()), request, env)
      ensures keys == old(keys)[RequestIdKey := StrVal(id)]
    {
      if RequestIdKey in keys {
        id := keys[RequestIdKey].s;
        assert keys == keys[RequestIdKey := StrVal(id)];
        return;
      }
      if TracingKey in keys {
        id := Render(keys[TracingKey].span);
        Set(RequestIdKey, StrVal(id));
        return;
      }
      if |env.traceField| != 0 {
        if env.traceField in keys {
          id := Render(keys[env.traceField].span);
          Set(RequestIdKey, StrVal(id));
          return;
        }
      }
      var fromHeader := HeaderValue(request, TraceHeaderName);
      if |fromHeader| != 0 {
        id := fromHeader;
        Set(RequestIdKey, StrVal(id));
        return;
      }
      id := env.generated;
      Set(RequestIdKey, StrVal(id));
    }

    /** GetCtxLogger: the cached handle, or a new one for this request, which is then cached. */
    method GetCtxLogger(env: Env) returns (logger: Entry)
      requires FetchSafe(keys, env)
      modifies this`keys
      ensures (logger, Snapshot()) == FetchStep(old(Snapshot()), request, env)
      ensures CtxLoggerKey in keys && keys[CtxLoggerKey] == EntryVal(logger)
    {
      if CtxLoggerKey in keys {
        return keys[CtxLoggerKey].entry;
      }
      if AggregateKey in keys {
        logger := Entry(env.std, map[]);
        logger := logger.(logger := keys[AggregateKey].logger);
      } else {
        var id := CxtRequestID(env);
        logger := Entry(env.std, RequestFields(id, request));
      }
      Set(CtxLoggerKey, EntryVal(logger));
    }

    /** SetCtxLogger: derive this request's handle from `given`, cache it (replacing any earlier one) and return it. */
    method SetCtxLogger(env: Env, given: Entry) returns (logger: Entry)
      requires BindSafe(keys, env)
      modifies this`keys
      ensures (logger, Snapshot()) == BindStep(old(Snapshot()), request, env, given)
      ensures keys[CtxLoggerKey] == EntryVal(logger)
    {
      logger := given;
      if AggregateKey in keys {
        logger := logger.(logger := keys[AggregateKey].logger);
      } else {
        var id := CxtRequestID(env);
        logger := logger.(data := logger.data + RequestFields(id, request));
      }
      Set(CtxLoggerKey, EntryVal(logger));
    }

    /** SetCtxLoggerHeader: set `name` in the Header when aggregate logging, log `name: data` at info level otherwise. */
    method SetCtxLoggerHeader(env: Env, name: string, data: Datum)
      requires AnnotateSafe(Snapshot(), request, env)
      modifies this
      ensures Snapshot() == AnnotateStep(old(Snapshot()), request, env, name, data)
      ensures AggregateKey in keys ==> header == old(header)[name := data] && output == old(output)
      ensures AggregateKey !in keys ==> header == old(header) && |output| == |old(output)| + 1
    {
      var logger := GetCtxLogger(env);
      var found := AggregateKey in keys;
      if found {
        assert logger.logger.out.Buffer?;
        header := header[name := data];
      }
      if !found {
        output := output + [LogLine(Info, logger.logger, logger.data, name, data)];
      }
    }

    /** GetCxtRequestID: the identifier recorded in the cached handle's fields, or "unknown"; changes nothing. */
    method GetCxtRequestID() returns (id: string)
      requires CachedSafe(keys)
      ensures id == CachedRequestId(keys)
    {
      if CtxLoggerKey in keys {
        var data := keys[CtxLoggerKey].entry.data;
        if RequestIdField in data && data[RequestIdField].Text? {
          return data[RequestIdField].text;
        }
        return Unknown;
      }
      return Unknown;
    }
  }
}
