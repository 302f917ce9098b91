/**
 * The access-logging decorator of pkg/grpc/middleware/middleware.go and its
 * error helpers. `Logging(logger)` turns a handler into one that calls it
 * once, classifies its error and writes exactly one Info record, then hands
 * back the handler's reply and error untouched.
 */
module Middleware {
  import opened Wrappers

  /** Go's `int32`, the type of `Error.Code`. */
  newtype int32 = x: int | -0x8000_0000 <= x < 0x8000_0000

  /** Opaque request and reply payloads. */
  type Payload = seq<bv8>

  /** A Go `error`; `message` is what its `Error()` method returns. */
  datatype Failure = Failure(message: string)

  /** The `Error` struct: the structured form of a failure. */
  datatype Error = Error(code: int32, reason: string)

  /**
   * A request. `display` is what its `String()` method returns when its
   * type has one, and `None` when it has no such method.
   */
  datatype Request = Request(payload: Payload, display: Option<string>)

  /** Server transport metadata: the transport kind and the operation name. */
  datatype Transport = Transport(kind: string, operation: string)

  /** The request context, as far as the decorator reads it. */
  datatype Context = Context(transport: Option<Transport>)

  /** What a handler returns: a reply (nil allowed) and an error (nil allowed). */
  datatype Outcome = Outcome(reply: Option<Payload>, err: Option<Failure>)

  /** A handler: from context and request to its outcome. */
  type Handler = (Context, Request) -> Outcome

  /** The value logged under "args": a display string, or the request itself. */
  datatype Args = ArgText(text: string) | ArgRaw(request: Request)

  /** kratos log levels. */
  datatype LogLevel = LevelDebug | LevelInfo | LevelWarn | LevelError | LevelFatal

  /** One structured log record, holding the eight key/value pairs the decorator logs. */
  datatype LogRecord = LogRecord(
    level: LogLevel,
    kind: string,
    component: string,
    operation: string,
    args: Args,
    code: int32,
    reason: string,
    stack: Option<string>,
    latency: real)

  /** `FromError`: nil for nil, otherwise code 500 with the error's message. */
  function FromError(err: Option<Failure>): (se: Option<Error>)
    ensures se.None? <==> err.None?
    ensures err.Some? ==> se.value.code == 500 && se.value.reason == err.value.message
  {
    match err
    case None => None
    case Some(e) => Some(Error(500, e.message))
  }

  /** `extractStack`: nil for nil, otherwise the error's message. */
  function ExtractStack(err: Option<Failure>): (stack: Option<string>)
    ensures stack.None? <==> err.None?
    ensures err.Some? ==> stack.value == err.value.message
  {
    if err.Some? then Some(err.value.message) else None
  }

  /** `extractArgs`: the request's `String()` when it has one, the request otherwise. */
  function ExtractArgs(req: Request): (args: Args)
    ensures req.display.Some? ==> args == ArgText(req.display.value)
    ensures req.display.None? ==> args == ArgRaw(req)
  {
    match req.display
    case Some(s) => ArgText(s)
    case None => ArgRaw(req)
  }

  /**
   * The record the decorator logs for one call, given the context, the
   * request, the handler's outcome and the measured latency.
   */
  function AccessRecord(ctx: Context, req: Request, out: Outcome, latency: real): (r: LogRecord)
    ensures r.level == LevelInfo && r.kind == "server"
    ensures ctx.transport.None? ==> r.component == "" && r.operation == ""
    ensures ctx.transport.Some? ==>
      r.component == ctx.transport.value.kind && r.operation == ctx.transport.value.operation
    ensures out.err.None? ==> r.code == 0 && r.reason == "" && r.stack == None
    ensures out.err.Some? ==>
      r.code == 500 && r.reason == out.err.value.message && r.stack == Some(out.err.value.message)
    ensures r.args == ExtractArgs(req) && r.latency == latency
  {
    var (component, operation) :=
      match ctx.transport
      case Some(tr) => (tr.kind, tr.operation)
      case None => ("", "");
    var (code, reason) :=
      match FromError(out.err)
      case Some(se) => (se.code, se.reason)
      case None => (0, "");
    LogRecord(LevelInfo, "server", component, operation, ExtractArgs(req),
              code, reason, ExtractStack(out.err), latency)
  }

  /** The injected logger: every `Log` call appends one record. */
  class Logger {
    var records: seq<LogRecord>

    constructor ()
      ensures records == []
    {
      records := [];
    }

    method Log(record: LogRecord)
      modifies this
      ensures records == old(records) + [record]
    {
      records := records + [record];
    }
  }

  /**
   * The wrapped handler as the decorator reaches it. Every call goes through
   * `Call`, and `calls` is the ghost trace of the calls made so far.
   */
  class Downstream {
    const handler: Handler
    ghost var calls: seq<(Context, Request)>

    constructor (handler: Handler)
      ensures this.handler == handler && calls == []
    {
      this.handler := handler;
      calls := [];
    }

    /** One call of the handler: its outcome, recorded in the trace. */
    method Call(ctx: Context, req: Request) returns (out: Outcome)
      modifies this
      ensures out == handler(ctx, req)
      ensures calls == old(calls) + [(ctx, req)]
    {
      out := handler(ctx, req);
      calls := calls + [(ctx, req)];
    }
  }

  /** `Logging(logger)(handler)`: the decorated handler. */
  class LoggedHandler {
    const logger: Logger
    const downstream: Downstream

    constructor (logger: Logger, handler: Handler)
      ensures this.logger == logger && fresh(downstream)
      ensures downstream.handler == handler && downstream.calls == []
    {
      this.logger := logger;
      downstream := new Downstream(handler);
    }

    /**
     * One request through the decorator, when the handler returns. The clock
     * is not modelled: `latency` is the elapsed time it measures around the
     * handler call.
     */
    method Handle(ctx: Context, req: Request, latency: real) returns (reply: Option<Payload>, err: Option<Failure>)
      modifies logger, downstream
      ensures Outcome(reply, err) == downstream.handler(ctx, req)
      ensures downstream.calls == old(downstream.calls) + [(ctx, req)]
      ensures logger.records ==
        old(logger.records) + [AccessRecord(ctx, req, downstream.handler(ctx, req), latency)]
    {
      var code: int32 := 0;
      var reason := "";
      var kind := "";
      var operation := "";
      if ctx.transport.Some? {
        kind := ctx.transport.value.kind;
        operation := ctx.transport.value.operation;
      }
      var out := downstream.Call(ctx, req);
      reply, err := out.reply, out.err;
      var se := FromError(err);
      if se.Some? {
        code := se.value.code;
        reason := se.value.reason;
      }
      logger.Log(LogRecord(LevelInfo, "server", kind, operation, ExtractArgs(req),
                           code, reason, ExtractStack(err), latency));
    }
  }

  /** A record alone tells success from failure: the code is 0 exactly on success. */
  lemma RecordCodeReflectsOutcome(ctx: Context, req: Request, out: Outcome, latency: real)
    ensures AccessRecord(ctx, req, out, latency).code == 0 <==> out.err.None?
    ensures AccessRecord(ctx, req, out, latency).stack.None? <==> out.err.None?
  {
  }

  /** The record of a failure carries the failure's message as reason and as stack. */
  lemma FailureMessageRecovered(ctx: Context, req: Request, out: Outcome, latency: real)
    requires out.err.Some?
    ensures var r := AccessRecord(ctx, req, out, latency);
      r.stack == Some(r.reason) && Failure(r.reason) == out.err.value
  {
  }

  /**
   * A usage example that exercises the contract of `Handle` from a caller's
   * side: two requests, the first succeeding and the second failing, make
   * two handler calls, leave two records and return what the handler returned.
   */
  method TwoRequests(h: Handler, ctx: Context, ok: Request, bad: Request)
    requires h(ctx, ok).err.None? && h(ctx, bad).err == Some(Failure("not found"))
  {
    var logger := new Logger();
    var logged := new LoggedHandler(logger, h);
    var reply, err := logged.Handle(ctx, ok, 0.5);
    assert err.None? && reply == h(ctx, ok).reply;
    reply, err := logged.Handle(ctx, bad, 1.0);
    assert err == Some(Failure("not found"));
    assert |logger.records| == 2 && logged.downstream.calls == [(ctx, ok), (ctx, bad)];
    assert logger.records[0].code == 0 && logger.records[0].stack.None?;
    assert logger.records[1].code == 500 && logger.records[1].reason == "not found";
  }
}
