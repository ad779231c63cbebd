/**
 * The CORS middleware: a request that names an Origin gets that origin
 * echoed back with four fixed `Access-Control-*` headers; a preflight
 * (`OPTIONS`) request is answered with 204 No Content and goes no further.
 */
module Cors {
  import opened Gin
  import Http

  const AllowMethods := "POST, GET, OPTIONS, PUT, DELETE, UPDATE"
  const AllowHeaders := "Origin, X-Requested-With, Content-Type, Accept, Authorization"
  const ExposeHeaders :=
    "Content-Length, Access-Control-Allow-Origin, Access-Control-Allow-Headers, Cache-Control, Content-Language, Content-Type"

  /** The response headers the middleware sets for a request with the given Origin header. */
  function CorsHeaders(origin: string): (h: map<string, string>)
    ensures origin == "" ==> h == map[]
    ensures origin != "" ==> h.Keys == {
      "Access-Control-Allow-Origin", "Access-Control-Allow-Methods", "Access-Control-Allow-Headers",
      "Access-Control-Expose-Headers", "Access-Control-Allow-Credentials"}
    ensures origin != "" ==> h["Access-Control-Allow-Origin"] == origin
    ensures forall k | k in h :: h[k] != ""
  {
    if origin == "" then map[]
    else map[
      "Access-Control-Allow-Origin" := origin,
      "Access-Control-Allow-Methods" := AllowMethods,
      "Access-Control-Allow-Headers" := AllowHeaders,
      "Access-Control-Expose-Headers" := ExposeHeaders,
      "Access-Control-Allow-Credentials" := "true"]
  }

  /** Whether the request is a preflight that the middleware answers itself. */
  predicate IsPreflight(requestMethod: string) {
    requestMethod == "OPTIONS"
  }

  /** The five `c.Header` calls made for a request with a non-empty Origin. */
  method SetHeaders(c: Context, origin: string)
    requires origin != ""
    modifies c`responseHeader
    ensures c.responseHeader == old(c.responseHeader) + CorsHeaders(origin)
  {
    c.Header("Access-Control-Allow-Origin", origin);
    c.Header("Access-Control-Allow-Methods", AllowMethods);
    c.Header("Access-Control-Allow-Headers", AllowHeaders);
    c.Header("Access-Control-Expose-Headers", ExposeHeaders);
    c.Header("Access-Control-Allow-Credentials", "true");
  }

  /** `Cors()`, the handler it returns, run on one request. */
  method Cors(c: Context)
    requires c.Valid()
    modifies c
    ensures c.Valid()
    ensures c.responseHeader == old(c.responseHeader) + CorsHeaders(c.GetHeader("Origin"))
    ensures c.keys == old(c.keys) && c.logs == old(c.logs)
    ensures IsPreflight(c.requestMethod) ==>
      && c.written == old(c.written) + [StatusReply(Http.StatusNoContent)]
      && c.aborted == old(c.aborted) + 1
      && c.nextCalls == old(c.nextCalls) && c.handoffs == old(c.handoffs)
    ensures !IsPreflight(c.requestMethod) ==>
      && c.written == old(c.written) && c.aborted == old(c.aborted)
      && c.nextCalls == old(c.nextCalls) + 1 && c.handoffs == old(c.handoffs) + [c.keys]
  {
    var requestMethod := c.requestMethod;
    var origin := c.GetHeader("Origin");
    if origin != "" {
      SetHeaders(c, origin);
    }

    if requestMethod == "OPTIONS" {
      c.AbortWithStatus(Http.StatusNoContent);
      return;
    }

    c.Next();
  }

  /** Every header the middleware sets is an `Access-Control-*` header. */
  lemma OnlyAccessControlHeaders(origin: string)
    ensures forall k | k in CorsHeaders(origin) :: |k| > 15 && k[..15] == "Access-Control-"
  {
  }

  /** With an Origin, the four other headers carry the fixed values, the same for every origin. */
  lemma CorsHeadersFixedValues(origin: string)
    requires origin != ""
    ensures |CorsHeaders(origin)| == 5
    ensures CorsHeaders(origin)["Access-Control-Allow-Methods"] == AllowMethods
    ensures CorsHeaders(origin)["Access-Control-Allow-Headers"] == AllowHeaders
    ensures CorsHeaders(origin)["Access-Control-Expose-Headers"] == ExposeHeaders
    ensures CorsHeaders(origin)["Access-Control-Allow-Credentials"] == "true"
  {
  }
}
