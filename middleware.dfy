/** The decision and bookkeeping logic of three HTTP middlewares of the FastAPI
    skill: the IP-based rate limiter, the global bearer-header check and the
    security-headers step. A request is reduced to its path, its client host
    and its `Authorization` header; `call_next` is the verdict `CallNext`. */
module Middleware {
  import opened Common
  import opened Text
  import SlidingWindow

  /** What a middleware does with a request: hand it on, or answer it with an error. */
  datatype Verdict = CallNext | Reply(error: HttpError)

  /** Python's `paths or default`: a missing or empty list gives the default. */
  function PathsOrDefault(paths: Option<seq<string>>, default: seq<string>): (r: seq<string>)
    ensures paths.Some? && paths.value != [] ==> r == paths.value
    ensures paths.None? || paths.value == [] ==> r == default
  {
    if paths.Some? && paths.value != [] then paths.value else default
  }

  // ---------------------------------------------------------------------
  // RateLimitMiddleware
  // ---------------------------------------------------------------------

  const RateLimitExcludedByDefault: seq<string> := ["/health", "/docs", "/openapi.json"]

  /** The key a request is counted under: the client's host, or "unknown" without a client. */
  function ClientHost(client: Option<string>): string
  {
    if client.Some? then client.value else "unknown"
  }

  /** The 429 answer of the middleware. */
  const RateLimitExceeded: Verdict :=
    Reply(HttpError(429, "Rate limit exceeded. Try again later.", map["Retry-After" := "60"]))

  class RateLimitMiddleware {
    const requestsPerMinute: int
    const excludePaths: seq<string>
    /** Client host to the times of its admitted requests (a `defaultdict(list)`). */
    var requestCounts: map<string, seq<int>>

    /** No client's list ever holds more times than the limit admits. */
    ghost predicate Valid()
      reads this
    {
      forall host :: host in requestCounts ==> |requestCounts[host]| <= SlidingWindow.Cap(requestsPerMinute)
    }

    /** The list of `host`; the default dictionary yields an empty list for a new host. */
    function History(host: string): seq<int>
      reads this
    {
      if host in requestCounts then requestCounts[host] else []
    }

    constructor (requestsPerMinute: int, excludePaths: Option<seq<string>>)
      ensures Valid()
      ensures this.requestsPerMinute == requestsPerMinute
      ensures this.excludePaths == PathsOrDefault(excludePaths, RateLimitExcludedByDefault)
      ensures requestCounts == map[]
    {
      this.requestsPerMinute := requestsPerMinute;
      this.excludePaths := PathsOrDefault(excludePaths, RateLimitExcludedByDefault);
      requestCounts := map[];
    }

    /** Handles one request arriving at time `now`. */
    method Dispatch(path: string, client: Option<string>, now: int) returns (v: Verdict)
      requires Valid()
      modifies this
      ensures Valid()
      ensures path in excludePaths ==> v == CallNext && requestCounts == old(requestCounts)
      ensures path !in excludePaths ==>
        var host := ClientHost(client);
        var step := SlidingWindow.Advance(old(History(host)), now, requestsPerMinute);
        && requestCounts == old(requestCounts)[host := step.history]
        && v == (if step.admitted then CallNext else RateLimitExceeded)
    {
      if path in excludePaths {
        return CallNext;
      }
      var host := ClientHost(client);
      var windowStart := now - SlidingWindow.Window;
      requestCounts := requestCounts[host := SlidingWindow.Prune(History(host), windowStart)];
      if |requestCounts[host]| >= requestsPerMinute {
        return RateLimitExceeded;
      }
      requestCounts := requestCounts[host := requestCounts[host] + [now]];
      v := CallNext;
    }
  }

  /** The middleware with no arguments: 60 requests a minute, default excluded paths. */
  method NewDefaultRateLimitMiddleware() returns (m: RateLimitMiddleware)
    ensures fresh(m) && m.Valid()
    ensures m.requestsPerMinute == 60
    ensures m.excludePaths == ["/health", "/docs", "/openapi.json"]
    ensures m.requestCounts == map[]
  {
    m := new RateLimitMiddleware(60, None);
  }

  // ---------------------------------------------------------------------
  // AuthenticationMiddleware
  // ---------------------------------------------------------------------

  const AuthExcludedByDefault: seq<string> :=
    ["/", "/docs", "/openapi.json", "/health", "/auth/login", "/auth/register"]

  function Unauthorized(detail: string): Verdict
  {
    Reply(HttpError(401, detail, map["WWW-Authenticate" := "Bearer"]))
  }

  /** The header carries a bearer scheme (`startswith("Bearer ")`, case-sensitive). */
  predicate IsBearer(header: string) { "Bearer " <= header }

  /** The authentication middleware; it only holds its excluded paths. */
  datatype AuthenticationMiddleware = AuthenticationMiddleware(excludePaths: seq<string>)
  {
    /** Lets a request through iff its path is excluded or its `Authorization`
        header starts with "Bearer "; the token itself is not checked. */
    function Dispatch(path: string, authorization: Option<string>): (v: Verdict)
      ensures v == CallNext <==> path in excludePaths || (authorization.Some? && IsBearer(authorization.value))
      ensures path !in excludePaths && (authorization.None? || authorization.value == "") ==>
        v == Unauthorized("Missing authorization header")
      ensures path !in excludePaths && authorization.Some? && authorization.value != ""
              && !IsBearer(authorization.value) ==>
        v == Unauthorized("Invalid authorization header")
    {
      if path in excludePaths then CallNext
      else if authorization.None? || authorization.value == "" then Unauthorized("Missing authorization header")
      else if !IsBearer(authorization.value) then Unauthorized("Invalid authorization header")
      else CallNext
    }
  }

  function NewAuthenticationMiddleware(excludePaths: Option<seq<string>>): (m: AuthenticationMiddleware)
    ensures excludePaths.None? || excludePaths.value == [] ==> "/auth/login" in m.excludePaths
    ensures excludePaths.None? || excludePaths.value == [] ==> m.excludePaths == AuthExcludedByDefault
    ensures excludePaths.Some? && excludePaths.value != [] ==> m.excludePaths == excludePaths.value
  {
    AuthenticationMiddleware(PathsOrDefault(excludePaths, AuthExcludedByDefault))
  }

  /** Without configuration the root, docs, health and login/registration
      paths pass without a header, and every other path needs a bearer header. */
  lemma DefaultAuthenticationPolicy(path: string, authorization: Option<string>)
    ensures var v := NewAuthenticationMiddleware(None).Dispatch(path, authorization);
      v == CallNext <==> path in AuthExcludedByDefault || (authorization.Some? && IsBearer(authorization.value))
  {
  }

  // ---------------------------------------------------------------------
  // SecurityHeadersMiddleware
  // ---------------------------------------------------------------------

  /** Starlette stores header names lower-cased, which makes them case-insensitive. */
  predicate LowerCaseNames(headers: map<string, string>)
  {
    forall name :: name in headers ==> ToLower(name) == name
  }

  /** `headers.get(name)`: the name may be written in any letter case. */
  function Header(headers: map<string, string>, name: string): Option<string>
  {
    if ToLower(name) in headers then Some(headers[ToLower(name)]) else None
  }

  /** `headers[name] = value`: replaces the header whatever case it was set in. */
  function SetHeader(headers: map<string, string>, name: string, value: string): map<string, string>
  {
    headers[ToLower(name) := value]
  }

  /** After `headers[name] = value` the name, in any case, gives `value`. */
  lemma SetHeaderSets(headers: map<string, string>, name: string, value: string)
    ensures Header(SetHeader(headers, name, value), name) == Some(value)
  {
  }

  /** `headers[name] = value` leaves every header of another name as it was. */
  lemma SetHeaderKeeps(headers: map<string, string>, name: string, value: string, other: string)
    requires ToLower(other) != ToLower(name)
    ensures Header(SetHeader(headers, name, value), other) == Header(headers, other)
  {
  }

  /** `headers[name] = value` stores the name lower-cased. */
  lemma SetHeaderLowerCase(headers: map<string, string>, name: string, value: string)
    requires LowerCaseNames(headers)
    ensures LowerCaseNames(SetHeader(headers, name, value))
  {
    ToLowerIdempotent(name);
  }

  /** The seven headers put on every response, with the names the middleware writes. */
  const SecurityHeaders: map<string, string> := map[
    "X-Content-Type-Options" := "nosniff",
    "X-Frame-Options" := "DENY",
    "X-XSS-Protection" := "1; mode=block",
    "Strict-Transport-Security" := "max-age=31536000; includeSubDomains",
    "Content-Security-Policy" := "default-src 'self'",
    "Referrer-Policy" := "strict-origin-when-cross-origin",
    "Permissions-Policy" := "geolocation=(), microphone=()"
  ]

  /** `name` is one of the seven, in some letter case. */
  predicate IsSecurityHeader(name: string)
  {
    var lower := ToLower(name);
    || lower == ToLower("X-Content-Type-Options")
    || lower == ToLower("X-Frame-Options")
    || lower == ToLower("X-XSS-Protection")
    || lower == ToLower("Strict-Transport-Security")
    || lower == ToLower("Content-Security-Policy")
    || lower == ToLower("Referrer-Policy")
    || lower == ToLower("Permissions-Policy")
  }

  /** The headers of a response after the security step, set in the order the middleware sets them. */
  function Secured(headers: map<string, string>): map<string, string>
  {
    var h1 := SetHeader(headers, "X-Content-Type-Options", "nosniff");
    var h2 := SetHeader(h1, "X-Frame-Options", "DENY");
    var h3 := SetHeader(h2, "X-XSS-Protection", "1; mode=block");
    var h4 := SetHeader(h3, "Strict-Transport-Security", "max-age=31536000; includeSubDomains");
    var h5 := SetHeader(h4, "Content-Security-Policy", "default-src 'self'");
    var h6 := SetHeader(h5, "Referrer-Policy", "strict-origin-when-cross-origin");
    var h7 := SetHeader(h6, "Permissions-Policy", "geolocation=(), microphone=()");
    h7
  }

  /** After the step each of the seven names, in whatever case it is looked
      up, gives its fixed value. */
  lemma SecuredSets(headers: map<string, string>)
    ensures Header(Secured(headers), "X-Content-Type-Options") == Some("nosniff")
    ensures Header(Secured(headers), "X-Frame-Options") == Some("DENY")
    ensures Header(Secured(headers), "X-XSS-Protection") == Some("1; mode=block")
    ensures Header(Secured(headers), "Strict-Transport-Security") == Some("max-age=31536000; includeSubDomains")
    ensures Header(Secured(headers), "Content-Security-Policy") == Some("default-src 'self'")
    ensures Header(Secured(headers), "Referrer-Policy") == Some("strict-origin-when-cross-origin")
    ensures Header(Secured(headers), "Permissions-Policy") == Some("geolocation=(), microphone=()")
  {
    var h1 := SetHeader(headers, "X-Content-Type-Options", "nosniff");
    var h2 := SetHeader(h1, "X-Frame-Options", "DENY");
    var h3 := SetHeader(h2, "X-XSS-Protection", "1; mode=block");
    var h4 := SetHeader(h3, "Strict-Transport-Security", "max-age=31536000; includeSubDomains");
    var h5 := SetHeader(h4, "Content-Security-Policy", "default-src 'self'");
    var h6 := SetHeader(h5, "Referrer-Policy", "strict-origin-when-cross-origin");
    var h7 := SetHeader(h6, "Permissions-Policy", "geolocation=(), microphone=()");
    assert ToLower("X-Frame-Options")[0] != ToLower("Referrer-Policy")[0];
    SetHeaderSets(headers, "X-Content-Type-Options", "nosniff");
    SetHeaderKeeps(h1, "X-Frame-Options", "DENY", "X-Content-Type-Options");
    SetHeaderKeeps(h2, "X-XSS-Protection", "1; mode=block", "X-Content-Type-Options");
    SetHeaderKeeps(h3, "Strict-Transport-Security", "max-age=31536000; includeSubDomains", "X-Content-Type-Options");
    SetHeaderKeeps(h4, "Content-Security-Policy", "default-src 'self'", "X-Content-Type-Options");
    SetHeaderKeeps(h5, "Referrer-Policy", "strict-origin-when-cross-origin", "X-Content-Type-Options");
    SetHeaderKeeps(h6, "Permissions-Policy", "geolocation=(), microphone=()", "X-Content-Type-Options");
    SetHeaderSets(h1, "X-Frame-Options", "DENY");
    SetHeaderKeeps(h2, "X-XSS-Protection", "1; mode=block", "X-Frame-Options");
    SetHeaderKeeps(h3, "Strict-Transport-Security", "max-age=31536000; includeSubDomains", "X-Frame-Options");
    SetHeaderKeeps(h4, "Content-Security-Policy", "default-src 'self'", "X-Frame-Options");
    SetHeaderKeeps(h5, "Referrer-Policy", "strict-origin-when-cross-origin", "X-Frame-Options");
    SetHeaderKeeps(h6, "Permissions-Policy", "geolocation=(), microphone=()", "X-Frame-Options");
    SetHeaderSets(h2, "X-XSS-Protection", "1; mode=block");
    SetHeaderKeeps(h3, "Strict-Transport-Security", "max-age=31536000; includeSubDomains", "X-XSS-Protection");
    SetHeaderKeeps(h4, "Content-Security-Policy", "default-src 'self'", "X-XSS-Protection");
    SetHeaderKeeps(h5, "Referrer-Policy", "strict-origin-when-cross-origin", "X-XSS-Protection");
    SetHeaderKeeps(h6, "Permissions-Policy", "geolocation=(), microphone=()", "X-XSS-Protection");
    SetHeaderSets(h3, "Strict-Transport-Security", "max-age=31536000; includeSubDomains");
    SetHeaderKeeps(h4, "Content-Security-Policy", "default-src 'self'", "Strict-Transport-Security");
    SetHeaderKeeps(h5, "Referrer-Policy", "strict-origin-when-cross-origin", "Strict-Transport-Security");
    SetHeaderKeeps(h6, "Permissions-Policy", "geolocation=(), microphone=()", "Strict-Transport-Security");
    SetHeaderSets(h4, "Content-Security-Policy", "default-src 'self'");
    SetHeaderKeeps(h5, "Referrer-Policy", "strict-origin-when-cross-origin", "Content-Security-Policy");
    SetHeaderKeeps(h6, "Permissions-Policy", "geolocation=(), microphone=()", "Content-Security-Policy");
    SetHeaderSets(h5, "Referrer-Policy", "strict-origin-when-cross-origin");
    SetHeaderKeeps(h6, "Permissions-Policy", "geolocation=(), microphone=()", "Referrer-Policy");
    SetHeaderSets(h6, "Permissions-Policy", "geolocation=(), microphone=()");
  }

  /** Every header other than the seven is kept as it was. */
  lemma SecuredKeeps(headers: map<string, string>, name: string)
    requires !IsSecurityHeader(name)
    ensures Header(Secured(headers), name) == Header(headers, name)
  {
    var h1 := SetHeader(headers, "X-Content-Type-Options", "nosniff");
    var h2 := SetHeader(h1, "X-Frame-Options", "DENY");
    var h3 := SetHeader(h2, "X-XSS-Protection", "1; mode=block");
    var h4 := SetHeader(h3, "Strict-Transport-Security", "max-age=31536000; includeSubDomains");
    var h5 := SetHeader(h4, "Content-Security-Policy", "default-src 'self'");
    var h6 := SetHeader(h5, "Referrer-Policy", "strict-origin-when-cross-origin");
    var h7 := SetHeader(h6, "Permissions-Policy", "geolocation=(), microphone=()");
    SetHeaderKeeps(headers, "X-Content-Type-Options", "nosniff", name);
    SetHeaderKeeps(h1, "X-Frame-Options", "DENY", name);
    SetHeaderKeeps(h2, "X-XSS-Protection", "1; mode=block", name);
    SetHeaderKeeps(h3, "Strict-Transport-Security", "max-age=31536000; includeSubDomains", name);
    SetHeaderKeeps(h4, "Content-Security-Policy", "default-src 'self'", name);
    SetHeaderKeeps(h5, "Referrer-Policy", "strict-origin-when-cross-origin", name);
    SetHeaderKeeps(h6, "Permissions-Policy", "geolocation=(), microphone=()", name);
  }

  /** Stored names stay lower-cased. */
  lemma SecuredLowerCase(headers: map<string, string>)
    requires LowerCaseNames(headers)
    ensures LowerCaseNames(Secured(headers))
  {
    var h1 := SetHeader(headers, "X-Content-Type-Options", "nosniff");
    var h2 := SetHeader(h1, "X-Frame-Options", "DENY");
    var h3 := SetHeader(h2, "X-XSS-Protection", "1; mode=block");
    var h4 := SetHeader(h3, "Strict-Transport-Security", "max-age=31536000; includeSubDomains");
    var h5 := SetHeader(h4, "Content-Security-Policy", "default-src 'self'");
    var h6 := SetHeader(h5, "Referrer-Policy", "strict-origin-when-cross-origin");
    var h7 := SetHeader(h6, "Permissions-Policy", "geolocation=(), microphone=()");
    SetHeaderLowerCase(headers, "X-Content-Type-Options", "nosniff");
    SetHeaderLowerCase(h1, "X-Frame-Options", "DENY");
    SetHeaderLowerCase(h2, "X-XSS-Protection", "1; mode=block");
    SetHeaderLowerCase(h3, "Strict-Transport-Security", "max-age=31536000; includeSubDomains");
    SetHeaderLowerCase(h4, "Content-Security-Policy", "default-src 'self'");
    SetHeaderLowerCase(h5, "Referrer-Policy", "strict-origin-when-cross-origin");
    SetHeaderLowerCase(h6, "Permissions-Policy", "geolocation=(), microphone=()");
  }

  /** Whatever spelling a security header was set or is looked up in, the
      step leaves it with its fixed value. */
  lemma SecuredAnyCase(headers: map<string, string>, name: string, canonical: string)
    requires canonical in SecurityHeaders && ToLower(name) == ToLower(canonical)
    ensures Header(Secured(headers), name) == Some(SecurityHeaders[canonical])
  {
    SecuredSets(headers);
    assert Header(Secured(headers), name) == Header(Secured(headers), canonical);
  }

  /** A security header stored earlier under a lower-cased spelling (say
      `x-frame-options`) is overwritten in place, not kept beside the new one. */
  lemma SecuredReplacesStoredVariant(headers: map<string, string>, stored: string, canonical: string)
    requires canonical in SecurityHeaders && stored in headers
    requires stored == ToLower(canonical)
    ensures stored in Secured(headers) && Secured(headers)[stored] == SecurityHeaders[canonical]
  {
    ToLowerIdempotent(canonical);
    SecuredAnyCase(headers, stored, canonical);
  }

  /** Setting a header to the value it already has changes nothing. */
  lemma SetHeaderSame(headers: map<string, string>, name: string, value: string)
    requires Header(headers, name) == Some(value)
    ensures SetHeader(headers, name, value) == headers
  {
  }

  /** The step is idempotent: a response passed through it twice carries the same headers. */
  lemma SecuredIdempotent(headers: map<string, string>)
    ensures Secured(Secured(headers)) == Secured(headers)
  {
    var once := Secured(headers);
    SecuredSets(headers);
    SetHeaderSame(once, "X-Content-Type-Options", "nosniff");
    SetHeaderSame(once, "X-Frame-Options", "DENY");
    SetHeaderSame(once, "X-XSS-Protection", "1; mode=block");
    SetHeaderSame(once, "Strict-Transport-Security", "max-age=31536000; includeSubDomains");
    SetHeaderSame(once, "Content-Security-Policy", "default-src 'self'");
    SetHeaderSame(once, "Referrer-Policy", "strict-origin-when-cross-origin");
    SetHeaderSame(once, "Permissions-Policy", "geolocation=(), microphone=()");
  }

  /** A response as the middleware sees it after `call_next`. */
  class Response {
    var statusCode: int
    var headers: map<string, string>

    constructor (statusCode: int, headers: map<string, string>)
      ensures this.statusCode == statusCode && this.headers == headers
    {
      this.statusCode := statusCode;
      this.headers := headers;
    }
  }

  /** Sets the seven security headers one by one, overwriting earlier values
      set under the same name in any letter case. */
  method AddSecurityHeaders(response: Response)
    modifies response
    ensures response.headers == Secured(old(response.headers))
    ensures response.statusCode == old(response.statusCode)
  {
    response.headers := SetHeader(response.headers, "X-Content-Type-Options", "nosniff");
    response.headers := SetHeader(response.headers, "X-Frame-Options", "DENY");
    response.headers := SetHeader(response.headers, "X-XSS-Protection", "1; mode=block");
    response.headers := SetHeader(response.headers, "Strict-Transport-Security", "max-age=31536000; includeSubDomains");
    response.headers := SetHeader(response.headers, "Content-Security-Policy", "default-src 'self'");
    response.headers := SetHeader(response.headers, "Referrer-Policy", "strict-origin-when-cross-origin");
    response.headers := SetHeader(response.headers, "Permissions-Policy", "geolocation=(), microphone=()");
  }
}
