/**
 * The per-request `gin.Context` as the middleware sees it: the request's
 * method, path and headers, the attribute bag (`c.Set`/`c.Get`), the response
 * headers, the bodies written, and two counters for `c.Abort` and `c.Next`.
 * Downstream handlers are not modelled: a call of `Next` records the
 * attribute bag that they would see.  Log lines written through the
 * context's logger are kept as well, because the trace binder's promise is
 * about them.
 */
module Gin {
  import opened Http

  /** A JSON value as `encoding/json` writes it; object members in output order. */
  datatype Json =
    | JNull
    | JBool(b: bool)
    | JNumber(n: int)
    | JString(s: string)
    | JArray(items: seq<Json>)
    | JObject(members: seq<(string, Json)>)

  /** What one write put on the wire: a JSON body (`c.JSON`) or a bare status (`c.AbortWithStatus`). */
  datatype Reply = JsonReply(status: int, body: Json) | StatusReply(status: int)

  /** A zap logger, reduced to the structured fields it adds to every line. */
  datatype Logger = Logger(fields: seq<(string, string)>) {
    /** `logger.With(zap.String(key, value))` */
    function With(key: string, value: string): (l: Logger)
      ensures |l.fields| == |fields| + 1
      ensures l.fields[..|fields|] == fields && l.fields[|fields|] == (key, value)
    {
      Logger(fields + [(key, value)])
    }
  }

  /** One log line: the logger's fields, the text, and how many `Next` calls preceded it. */
  datatype LogLine = LogLine(fields: seq<(string, string)>, text: string, afterNextCalls: nat)

  /** A value stored in the attribute bag. */
  datatype Attr = Text(s: string) | LoggerAttr(logger: Logger)

  const ContentType := "Content-Type"
  const JsonContentType := "application/json; charset=utf-8"

  /**
   * The response headers after a JSON render: gin's JSON renderer sets the
   * Content-Type only when the handler has not set one.
   */
  function WithJsonContentType(h: map<string, string>): (r: map<string, string>)
    ensures ContentType in r
    ensures ContentType in h ==> r == h
    ensures ContentType !in h ==> r[ContentType] == JsonContentType && r - {ContentType} == h
  {
    if ContentType in h then h else h[ContentType := JsonContentType]
  }

  /** The key under which the request-scoped logger is stored (`log.LoggerTag`). */
  const LoggerTag := "logger"

  class Context {
    const requestMethod: string
    const path: string
    /** Request headers, keyed by canonical header name. */
    const requestHeader: map<string, string>

    var keys: map<string, Attr>
    var responseHeader: map<string, string>
    var written: seq<Reply>
    var aborted: nat
    var nextCalls: nat
    var logs: seq<LogLine>
    /** The attribute bag as each `Next` call handed it downstream. */
    ghost var handoffs: seq<map<string, Attr>>

    /** Request header keys are canonical, and every `Next` call has recorded its hand-off. */
    ghost predicate Valid()
      reads this
    {
      && CanonicalHeader(requestHeader)
      && nextCalls == |handoffs|
    }

    constructor (requestMethod: string, path: string, requestHeader: map<string, string>)
      requires CanonicalHeader(requestHeader)
      ensures Valid()
      ensures this.requestMethod == requestMethod && this.path == path && this.requestHeader == requestHeader
      ensures keys == map[] && responseHeader == map[] && written == [] && logs == []
      ensures aborted == 0 && nextCalls == 0
    {
      this.requestMethod := requestMethod;
      this.path := path;
      this.requestHeader := requestHeader;
      keys := map[];
      responseHeader := map[];
      written := [];
      aborted := 0;
      nextCalls := 0;
      logs := [];
      handoffs := [];
    }

    /** `c.GetHeader(key)` / `c.Request.Header.Get(key)`: the value, or "" when absent. */
    function GetHeader(key: string): (v: string)
      ensures CanonicalKey(key) !in requestHeader ==> v == ""
      ensures CanonicalKey(key) in requestHeader ==> v == requestHeader[CanonicalKey(key)]
    {
      var k := CanonicalKey(key);
      if k in requestHeader then requestHeader[k] else ""
    }

    /** `c.Set(key, value)` */
    method Set(key: string, value: Attr)
      modifies this`keys
      ensures keys == old(keys)[key := value]
    {
      keys := keys[key := value];
    }

    /** `c.Next()`: hands the request to the rest of the chain. */
    method Next()
      requires Valid()
      modifies this`nextCalls, this`handoffs
      ensures Valid()
      ensures nextCalls == old(nextCalls) + 1
      ensures handoffs == old(handoffs) + [keys]
    {
      nextCalls := nextCalls + 1;
      handoffs := handoffs + [keys];
    }

    /** `c.Abort()`: no later handler of the chain runs. */
    method Abort()
      modifies this`aborted
      ensures aborted == old(aborted) + 1
    {
      aborted := aborted + 1;
    }

    /** `c.JSON(status, body)`: writes the body, and a JSON Content-Type unless one is already set. */
    method JSON(status: int, body: Json)
      modifies this`written, this`responseHeader
      ensures written == old(written) + [JsonReply(status, body)]
      ensures responseHeader == WithJsonContentType(old(responseHeader))
    {
      written := written + [JsonReply(status, body)];
      if ContentType !in responseHeader {
        responseHeader := responseHeader[ContentType := JsonContentType];
      }
    }

    /** `c.AbortWithStatus(status)`: writes the status line with no body, then aborts. */
    method AbortWithStatus(status: int)
      modifies this`written, this`aborted
      ensures written == old(written) + [StatusReply(status)]
      ensures aborted == old(aborted) + 1
    {
      written := written + [StatusReply(status)];
      aborted := aborted + 1;
    }

    /**
     * `c.Header(key, value)`: sets a response header, or deletes it when
     * `value` is "".  Names are stored as given; `net/http` would store them in
     * canonical form, which every name the middleware writes already is.
     */
    method Header(key: string, value: string)
      modifies this`responseHeader
      ensures value == "" ==> responseHeader == old(responseHeader) - {key}
      ensures value != "" ==> responseHeader == old(responseHeader)[key := value]
    {
      if value == "" {
        responseHeader := responseHeader - {key};
      } else {
        responseHeader := responseHeader[key := value];
      }
    }

    /** The logger the logging helpers use: the one stored under "logger", else the process-wide one. */
    function ContextLogger(defaultLogger: Logger): (l: Logger)
      reads this`keys
      ensures LoggerTag in keys && keys[LoggerTag].LoggerAttr? ==> l == keys[LoggerTag].logger
      ensures LoggerTag !in keys ==> l == defaultLogger
    {
      if LoggerTag in keys && keys[LoggerTag].LoggerAttr? then keys[LoggerTag].logger else defaultLogger
    }

    /** `log.InfoContextf(c, text)`; anything but a logger under "logger" would make the type assertion panic. */
    method InfoContext(defaultLogger: Logger, text: string)
      requires LoggerTag in keys ==> keys[LoggerTag].LoggerAttr?
      modifies this`logs
      ensures logs == old(logs) + [LogLine(ContextLogger(defaultLogger).fields, text, nextCalls)]
    {
      logs := logs + [LogLine(ContextLogger(defaultLogger).fields, text, nextCalls)];
    }
  }
}
