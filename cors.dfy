/**
 * `CORSMiddleware`: it sets the cross-origin response headers, then answers
 * a preflight `OPTIONS` request itself with 204 and no body, and hands every
 * other request to the next handler.
 */
module Cors {
  const AllowMethods := "GET, POST, PUT, DELETE, OPTIONS, PATCH"
  const AllowHeaders := "Origin, Content-Type, Content-Length, Accept-Encoding, X-CSRF-Token, Authorization, X-Requested-With"
  const MaxAge := "86400"
  const NoContent := 204

  /**
   * The response headers after the middleware, given those already set and
   * the request's `Origin` (`""` when absent).
   */
  function CorsHeaders(headers: map<string, string>, origin: string): map<string, string>
  {
    var withOrigin :=
      if origin != "" then headers["Access-Control-Allow-Origin" := origin]["Vary" := "Origin"]
      else headers["Access-Control-Allow-Origin" := "*"];
    withOrigin["Access-Control-Allow-Credentials" := "true"]
              ["Access-Control-Allow-Methods" := AllowMethods]
              ["Access-Control-Allow-Headers" := AllowHeaders]
              ["Access-Control-Max-Age" := MaxAge]
  }

  /**
   * A request with an `Origin` has it echoed, with `Vary: Origin`; one
   * without gets `*` and `Vary` is left as it was. Credentials, methods,
   * headers and max-age are always set, and no other header changes.
   */
  lemma CorsHeadersShape(headers: map<string, string>, origin: string)
    ensures var h := CorsHeaders(headers, origin);
      (origin != "" ==> h["Access-Control-Allow-Origin"] == origin && "Vary" in h && h["Vary"] == "Origin") &&
      (origin == "" ==>
        (h["Access-Control-Allow-Origin"] == "*" && ("Vary" in h <==> "Vary" in headers) &&
         ("Vary" in h ==> h["Vary"] == headers["Vary"]))) &&
      h["Access-Control-Allow-Credentials"] == "true" &&
      h["Access-Control-Allow-Methods"] == AllowMethods &&
      h["Access-Control-Allow-Headers"] == AllowHeaders &&
      h["Access-Control-Max-Age"] == "86400" &&
      (forall k :: k in headers && k !in CorsKeys() && k != "Vary" ==> k in h && h[k] == headers[k]) &&
      (forall k :: k in h ==> k in headers || k in CorsKeys() || k == "Vary")
  {
  }

  /** The headers the middleware always sets. */
  function CorsKeys(): set<string>
  {
    {"Access-Control-Allow-Origin", "Access-Control-Allow-Credentials", "Access-Control-Allow-Methods",
     "Access-Control-Allow-Headers", "Access-Control-Max-Age"}
  }

  /** The headers are set once and for all: running the middleware twice gives the same headers. */
  lemma CorsHeadersIdempotent(headers: map<string, string>, origin: string)
    ensures CorsHeaders(CorsHeaders(headers, origin), origin) == CorsHeaders(headers, origin)
  {
  }

  /**
   * The request context the middleware works on: the request's method (`verb`) and
   * `Origin`, the response headers and status, whether the chain was
   * aborted, and the calls of the next handler with the headers it saw.
   */
  class Context {
    const verb: string
    const origin: string
    var headers: map<string, string>
    var status: int
    var aborted: bool
    var nextCalls: nat
    var headersAtNext: map<string, string>

    constructor(verb: string, origin: string, headers: map<string, string>)
      ensures this.verb == verb && this.origin == origin && this.headers == headers
      ensures status == 200 && !aborted && nextCalls == 0 && headersAtNext == map[]
    {
      this.verb := verb;
      this.origin := origin;
      this.headers := headers;
      status := 200;
      aborted := false;
      nextCalls := 0;
      headersAtNext := map[];
    }

    /** `c.Writer.Header().Set`: the header takes this value and no other changes. */
    method SetHeader(key: string, value: string)
      modifies this
      ensures headers == old(headers)[key := value]
      ensures status == old(status) && aborted == old(aborted)
      ensures nextCalls == old(nextCalls) && headersAtNext == old(headersAtNext)
    {
      headers := headers[key := value];
    }

    /** `c.AbortWithStatus`: the status is written and the rest of the chain is skipped. */
    method AbortWithStatus(code: int)
      modifies this
      ensures status == code && aborted
      ensures headers == old(headers) && nextCalls == old(nextCalls) && headersAtNext == old(headersAtNext)
    {
      status := code;
      aborted := true;
    }

    /** `c.Next`: the next handler runs once and sees the headers set so far. */
    method Next()
      modifies this
      ensures nextCalls == old(nextCalls) + 1 && headersAtNext == headers
      ensures headers == old(headers) && status == old(status) && aborted == old(aborted)
    {
      nextCalls := nextCalls + 1;
      headersAtNext := headers;
    }

    /**
     * The middleware: the headers become `CorsHeaders`; an `OPTIONS` request
     * is aborted with 204 and the next handler is not called; any other
     * request calls it exactly once, after the headers are set.
     */
    method Cors()
      modifies this
      ensures headers == CorsHeaders(old(headers), origin)
      ensures verb == "OPTIONS" ==>
        status == NoContent && aborted && nextCalls == old(nextCalls) && headersAtNext == old(headersAtNext)
      ensures verb != "OPTIONS" ==>
        status == old(status) && aborted == old(aborted) &&
        nextCalls == old(nextCalls) + 1 && headersAtNext == headers
    {
      if origin != "" {
        SetHeader("Access-Control-Allow-Origin", origin);
        SetHeader("Vary", "Origin");
      } else {
        SetHeader("Access-Control-Allow-Origin", "*");
      }
      SetHeader("Access-Control-Allow-Credentials", "true");
      SetHeader("Access-Control-Allow-Methods", AllowMethods);
      SetHeader("Access-Control-Allow-Headers", AllowHeaders);
      SetHeader("Access-Control-Max-Age", MaxAge);
      if verb == "OPTIONS" {
        AbortWithStatus(NoContent);
        return;
      }
      Next();
    }
  }
}
