/**
 * The values that live in a gin request context while logger.go works on it:
 * logrus loggers and entries, opentracing spans, log lines, the inbound request,
 * and the ambient collaborators (configuration, the logrus standard logger and
 * the UUID generator).
 */
module Values {

  datatype Option<T> = None | Some(value: T)

  /** A value handed to a log call or kept as a logrus field (Go's `interface{}`), reduced to two shapes. */
  datatype Datum = Text(text: string) | Number(n: int)

  /** An opentracing span. Its `%v` rendering is not modelled: the span carries it. */
  datatype Span = Span(display: string)

  /** What `fmt.Sprintf("%v", span)` yields for a span. */
  function Render(span: Span): string
  {
    span.display
  }

  /** A logrus logger's `Out`: an ordinary stream, or a per-request `LogBuffer` (which owns a Header map). */
  datatype Sink = Stream | Buffer

  /** A `*logrus.Logger`; `id` stands for its identity. */
  datatype Logger = Logger(id: nat, out: Sink)

  /** A `*logrus.Entry`: the logger it writes through and its attached fields (`Data`). */
  datatype Entry = Entry(logger: Logger, data: map<string, Datum>)

  /** Whatever a gin context may hold under a key. */
  datatype Value =
    | StrVal(s: string)
    | SpanVal(span: Span)
    | LoggerVal(logger: Logger)
    | EntryVal(entry: Entry)
    | OtherVal(datum: Datum)

  /** The only level logger.go logs at. */
  datatype Level = Info

  /** One emitted log line: its level, the logger and fields it went out with, and the `name: data` message. */
  datatype LogLine = LogLine(level: Level, logger: Logger, fields: map<string, Datum>, name: string, data: Datum)

  /**
   * The parts of the inbound `*http.Request` that logger.go reads. Header names are
   * in canonical MIME form, as net/http stores them.
   */
  datatype Request = Request(httpMethod: string, path: string, headers: map<string, seq<string>>)

  /** `http.Header.Get`: the first value stored under a (canonical) name, or "" when there is none. */
  function HeaderValue(req: Request, name: string): string
  {
    if name in req.headers && |req.headers[name]| > 0 then req.headers[name][0] else ""
  }

  /**
   * The collaborators logger.go reaches outside the request: the package variable
   * `ContextTraceIDField`, logrus's standard logger (used by `logrus.WithFields`),
   * and the string `uuid.New().String()` would produce for this request.
   */
  datatype Env = Env(traceField: string, std: Logger, generated: string)

  predicate IsLowerHexDigit(c: char)
  {
    '0' <= c <= '9' || 'a' <= c <= 'f'
  }

  /** The canonical 8-4-4-4-12 lower-case textual form of a UUID. */
  predicate IsUuid(s: string)
  {
    && |s| == 36
    && forall i :: 0 <= i < |s| ==> if i in {8, 13, 18, 23} then s[i] == '-' else IsLowerHexDigit(s[i])
  }
}
