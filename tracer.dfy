/**
 * The trace binder: picks the request's trace id (the inbound `traceid`
 * header, or a freshly drawn random number in decimal), stores a logger
 * tagged with it under "logger" for everything downstream, and calls the rest
 * of the chain once between two log lines.
 *
 * The random number (`rand.Uint64()`), the process-wide logger and the
 * elapsed time (`time.Since(t)`, as `%v` renders it) are parameters.
 */
module Tracer {
  import opened Strings
  import opened Gin

  /** The inbound header name and the logger field name (`log.LoggerTraceID`). */
  const LoggerTraceID := "traceid"

  const Uint64Limit := 0x1_0000_0000_0000_0000

  /**
   * The trace id: the inbound header when it is non-empty, otherwise
   * `cast.ToString(draw)`, the decimal numeral of the random draw.
   */
  function TraceId(inbound: string, draw: nat): (id: string)
    requires draw < Uint64Limit
    ensures id != []
    ensures inbound != [] ==> id == inbound
    ensures inbound == [] ==> AllDigits(id) && DecimalValue(id) == draw
    ensures inbound == [] ==> (id[0] == '0' ==> id == "0")
  {
    if |inbound| == 0 then
      DecimalValueOfFormatUint(draw);
      FormatUint(draw)
    else inbound
  }

  /** `log.GetLogger().With(zap.String("traceid", id))` */
  function TracedLogger(defaultLogger: Logger, id: string): Logger {
    defaultLogger.With(LoggerTraceID, id)
  }

  /** `ZapTraceLogger()`, the handler it returns, run on one request. */
  method ZapTraceLogger(c: Context, defaultLogger: Logger, draw: nat, elapsed: string)
    requires c.Valid()
    requires draw < Uint64Limit
    modifies c
    ensures c.Valid()
    ensures var logger := TracedLogger(defaultLogger, TraceId(c.GetHeader(LoggerTraceID), draw));
      && c.keys == old(c.keys)[LoggerTag := LoggerAttr(logger)]
      && c.nextCalls == old(c.nextCalls) + 1
      && c.handoffs == old(c.handoffs) + [c.keys]
      && c.logs == old(c.logs) + [
           LogLine(logger.fields, "recv msg", old(c.nextCalls)),
           LogLine(logger.fields, "done, cost: " + elapsed, old(c.nextCalls) + 1)]
    ensures c.written == old(c.written) && c.aborted == old(c.aborted)
    ensures c.responseHeader == old(c.responseHeader)
  {
    var traceID := c.GetHeader(LoggerTraceID);
    if |traceID| == 0 {
      traceID := FormatUint(draw);
    }

    var loggerWithTraceID := defaultLogger.With(LoggerTraceID, traceID);
    c.Set(LoggerTag, LoggerAttr(loggerWithTraceID));

    c.InfoContext(defaultLogger, "recv msg");
    c.Next();
    c.InfoContext(defaultLogger, "done, cost: " + elapsed);
  }

  /** Every line the binder logs carries the trace id as its last field. */
  lemma LinesCarryTraceId(defaultLogger: Logger, inbound: string, draw: nat)
    requires draw < Uint64Limit
    ensures var fields := TracedLogger(defaultLogger, TraceId(inbound, draw)).fields;
      |fields| > 0 && fields[|fields| - 1] == (LoggerTraceID, TraceId(inbound, draw))
  {
  }

  /** Distinct random draws give distinct trace ids when no id comes in. */
  lemma FreshIdsDistinct(a: nat, b: nat)
    requires a < Uint64Limit && b < Uint64Limit && a != b
    ensures TraceId("", a) != TraceId("", b)
  {
  }
}
