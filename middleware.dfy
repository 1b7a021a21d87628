/**
 * The gateway's request pipeline: handler decorators that either stop a request with a status
 * code or pass it on. A handler chain is a value of `Handler`; `Run` says what serving one
 * request through it does, and `ServeHTTP` does it in place on a request object and a
 * response writer.
 */
module Middleware {
  import opened Wrappers
  import opened Numeric
  import opened Tokens

  const StatusUnauthorized := 401
  const StatusMethodNotAllowed := 405
  const StatusBadGateway := 502

  /** The HMAC key the gateway verifies tokens with (jwtKey). */
  const JwtKey := "secret-key"

  /** The header names the pipeline reads and writes, as the gateway spells them. */
  const AuthorizationKey: string := "Authorization"
  const LoginKey: string := "Login"
  const PasswordKey: string := "Password"
  const UserIDKey: string := "UserID"

  // ---------------------------------------------------------------------------
  // Header maps with the canonical keys of net/textproto

  type Header = map<string, string>

  /** A byte allowed in a header field name (an RFC 9110 token character). */
  predicate IsTokenChar(c: char) {
    ('a' <= c <= 'z') || ('A' <= c <= 'Z') || ('0' <= c <= '9') || c in "!#$%&'*+-.^_`|~"
  }

  function ToUpper(c: char): char {
    if 'a' <= c <= 'z' then (c as int - 32) as char else c
  }

  function ToLower(c: char): char {
    if 'A' <= c <= 'Z' then (c as int + 32) as char else c
  }

  /**
   * CanonicalMIMEHeaderKey: the first letter and every letter after a '-' upper-cased, every
   * other letter lower-cased; a key with a byte that is not a token character is left as it is.
   */
  function Canonical(k: string): (r: string)
    ensures |r| == |k|
  {
    if forall i :: 0 <= i < |k| ==> IsTokenChar(k[i]) then
      seq(|k|, i requires 0 <= i < |k| => if i == 0 || k[i - 1] == '-' then ToUpper(k[i]) else ToLower(k[i]))
    else k
  }

  /** The value stored under a key that is already canonical, or "" when there is none. */
  function Lookup(h: Header, ck: string): string {
    if ck in h then h[ck] else ""
  }

  /** Header.Get: the value stored under the canonical key, or "" when there is none. */
  function Get(h: Header, k: string): string {
    Lookup(h, Canonical(k))
  }

  /** Header.Set: replace whatever is stored under the canonical key. */
  function Set(h: Header, k: string, v: string): Header {
    h[Canonical(k) := v]
  }

  /** A word of letters in canonical form: a capital followed by small letters. */
  predicate IsCapitalised(k: string) {
    && |k| > 0
    && 'A' <= k[0] <= 'Z'
    && forall i :: 1 <= i < |k| ==> 'a' <= k[i] <= 'z'
  }

  /** A capitalised word is its own canonical form. */
  lemma CapitalisedIsCanonical(k: string)
    requires IsCapitalised(k)
    ensures Canonical(k) == k
  {
    assert forall i :: 0 <= i < |k| ==> IsTokenChar(k[i]);
  }

  /** A word of letters canonicalises to its capitalised form. */
  lemma LettersCanonical(k: string, r: string)
    requires IsCapitalised(r) && |k| == |r|
    requires forall i :: 0 <= i < |k| ==> k[i] == r[i] || (i == 0 && ToUpper(k[i]) == r[i]) || (i > 0 && ToLower(k[i]) == r[i])
    requires forall i :: 0 <= i < |k| ==> ('a' <= k[i] <= 'z') || ('A' <= k[i] <= 'Z')
    ensures Canonical(k) == r
  {
    assert forall i :: 0 <= i < |k| ==> IsTokenChar(k[i]);
  }

  /** The canonical keys of the headers the pipeline reads and writes. */
  lemma IdentityKeys()
    ensures Canonical("Login") == "Login"
    ensures Canonical("Password") == "Password"
    ensures Canonical("UserID") == "Userid"
    ensures Canonical("userid") == "Userid"
    ensures Canonical("Authorization") == "Authorization"
  {
    CapitalisedIsCanonical("Login");
    CapitalisedIsCanonical("Password");
    CapitalisedIsCanonical("Authorization");
    UserIDKeys();
  }

  /** Both spellings of the user id header land on the key "Userid". */
  lemma UserIDKeys()
    ensures Canonical("UserID") == "Userid"
    ensures Canonical("userid") == "Userid"
  {
    LettersCanonical("UserID", "Userid");
    LettersCanonical("userid", "Userid");
  }

  // ---------------------------------------------------------------------------
  // Requests, responses, handlers

  /** The parts of an *http.Request the pipeline reads or writes. */
  datatype HttpRequest = HttpRequest(
    httpMethod: string,
    path: string,
    header: Header,
    scheme: string,     // URL.Scheme
    urlHost: string,    // URL.Host
    host: string)       // Host

  /** An *http.Request, updated in place by JWTVerify and by the proxy's Director. */
  class Request {
    var httpMethod: string
    var path: string
    var header: Header
    var scheme: string
    var urlHost: string
    var host: string

    constructor (v: HttpRequest)
      ensures Value() == v
    {
      httpMethod, path, header := v.httpMethod, v.path, v.header;
      scheme, urlHost, host := v.scheme, v.urlHost, v.host;
    }

    function Value(): HttpRequest
      reads this
    {
      HttpRequest(httpMethod, path, header, scheme, urlHost, host)
    }
  }

  /**
   * What serving a request makes observable, in order: log lines of the logging middleware,
   * status codes written, the inner handler being invoked, a request being sent upstream.
   */
  datatype Event =
    | Log(msg: string, path: string, httpMethod: string)
    | Status(code: int)
    | Delegated(endpoint: string, req: HttpRequest)
    | Forwarded(req: HttpRequest)

  /** The http.ResponseWriter, with the logger's output recorded in the same trace. */
  class ResponseWriter {
    var trace: seq<Event>

    constructor ()
      ensures trace == []
    {
      trace := [];
    }

    method WriteHeader(code: int)
      modifies this
      ensures trace == old(trace) + [Status(code)]
    {
      trace := trace + [Status(code)];
    }

    method Record(e: Event)
      modifies this
      ensures trace == old(trace) + [e]
    {
      trace := trace + [e];
    }
  }

  /** A handler: an application endpoint wrapped in the middleware combinators. */
  datatype Handler =
    | Endpoint(name: string)
    | MethodMiddleware(httpMethod: string, next: Handler)
    | AuthMiddleware(next: Handler)
    | LoggerMiddleware(next: Handler)
    | ProxyMiddleware(targetHost: string, targetPort: string, next: Handler)

  /** What an upstream round trip gives the reverse proxy. */
  datatype Upstream = Unreachable | Responded(status: int)

  /** The world outside the pipeline: the JWT library, the clock, the proxied upstream. */
  datatype Env = Env(jwt: Library, now: int, upstream: HttpRequest -> Upstream)

  // ---------------------------------------------------------------------------
  // Token verification

  /**
   * JWTVerify's decision on a request's headers: the claims, or the error it returns.
   * Only a non-empty, HMAC-signed token whose signature checks under the gateway key, whose
   * time claims hold and whose claims decode is accepted (RFC 8725, section 3.1).
   */
  function VerifyToken(header: Header, jwt: Library, now: int): (r: Result<Claims>)
    ensures Get(header, AuthorizationKey) == "" ==> r == Err(Message("token is empty"))
    ensures Get(header, AuthorizationKey) != "" && r.Err? ==> r.error == Message("token is invalid")
    ensures var token := Get(header, AuthorizationKey);
      r.Ok? <==>
        && token != ""
        && jwt.parse(token).Decoded?
        && IsHmac(jwt.parse(token).alg)
        && jwt.signatureValid(token, JwtKey)
        && TimeValid(jwt.parse(token).claims, now)
        && DecodeClaims(jwt.parse(token).claims).Ok?
    ensures r.Ok? ==> DecodeClaims(jwt.parse(Get(header, AuthorizationKey)).claims) == Ok(r.value)
  {
    var token := Get(header, AuthorizationKey);
    if token == "" then Err(Message("token is empty"))
    else
      match jwt.parse(token)
      case Malformed => Err(Message("token is invalid"))
      case Decoded(alg, claims) =>
        if !IsHmac(alg) || !jwt.signatureValid(token, JwtKey) || !TimeValid(claims, now) then
          Err(Message("token is invalid"))
        else
          match DecodeClaims(claims)
          case Err(_) => Err(Message("token is invalid"))
          case Ok(c) => Ok(c)
  }

  /**
   * The headers after a successful JWTVerify: Login, Password and UserID set from the claims,
   * under their canonical keys (IdentityHeadersAreSets).
   */
  function IdentityHeaders(h: Header, c: Claims): Header {
    h["Login" := c.login]["Password" := c.password]["Userid" := Itoa(c.userID)]
  }

  /** The three Header.Set calls of JWTVerify build IdentityHeaders. */
  lemma IdentityHeadersAreSets(h: Header, c: Claims)
    ensures Set(Set(Set(h, LoginKey, c.login), PasswordKey, c.password), UserIDKey, Itoa(c.userID))
            == IdentityHeaders(h, c)
  {
    IdentityKeys();
  }

  /** The request carries identity `c` in its identity headers (under their canonical keys, see HasIdentityByGet). */
  predicate HasIdentity(h: Header, c: Claims) {
    Lookup(h, "Login") == c.login && Lookup(h, "Password") == c.password && Lookup(h, "Userid") == Itoa(c.userID)
  }

  /** HasIdentity is what Header.Get reads under the names the gateway writes. */
  lemma HasIdentityByGet(h: Header, c: Claims)
    ensures HasIdentity(h, c) <==>
      Get(h, LoginKey) == c.login && Get(h, PasswordKey) == c.password && Get(h, UserIDKey) == Itoa(c.userID)
  {
    IdentityKeys();
  }

  /** JWTVerify: on failure the request is untouched, on success its identity headers are set. */
  method JWTVerify(r: Request, jwt: Library, now: int) returns (err: Option<Error>)
    modifies r
    ensures VerifyToken(old(r.header), jwt, now).Err? ==>
      err == Some(VerifyToken(old(r.header), jwt, now).error) && r.Value() == old(r.Value())
    ensures VerifyToken(old(r.header), jwt, now).Ok? ==>
      && err == None
      && r.Value() == old(r.Value()).(header := IdentityHeaders(old(r.header), VerifyToken(old(r.header), jwt, now).value))
  {
    var verdict := VerifyToken(r.header, jwt, now);
    if verdict.Err? {
      return Some(verdict.error);
    }
    var claims := verdict.value;
    var h := r.header;
    r.header := Set(r.header, LoginKey, claims.login);
    r.header := Set(r.header, PasswordKey, claims.password);
    r.header := Set(r.header, UserIDKey, Itoa(claims.userID));
    IdentityHeadersAreSets(h, claims);
    err := None;
  }

  // ---------------------------------------------------------------------------
  // Reverse proxy

  /** The outgoing request after the proxy's Director rewrote it towards `targetURL`. */
  function Directed(req: HttpRequest, targetURL: string): HttpRequest {
    req.(scheme := "http", urlHost := targetURL, host := targetURL)
  }

  /** The proxy's Director, applied to the outgoing copy of the request. */
  method Director(req: Request, targetURL: string)
    modifies req
    ensures req.Value() == Directed(old(req.Value()), targetURL)
  {
    req.scheme := "http";
    req.urlHost := targetURL;
    req.host := targetURL;
  }

  // ---------------------------------------------------------------------------
  // Serving a request

  /** The trace and the final request of serving `req` through `h`. */
  datatype Outcome = Outcome(trace: seq<Event>, req: HttpRequest)

  function Run(h: Handler, env: Env, req: HttpRequest): Outcome
    decreases h
  {
    match h
    case Endpoint(name) => Outcome([Delegated(name, req)], req)
    case MethodMiddleware(m, next) =>
      if req.httpMethod != m then Outcome([Status(StatusMethodNotAllowed)], req)
      else Run(next, env, req)
    case AuthMiddleware(next) =>
      (match VerifyToken(req.header, env.jwt, env.now)
       case Err(_) => Outcome([Status(StatusUnauthorized)], req)
       case Ok(c) => Run(next, env, req.(header := IdentityHeaders(req.header, c))))
    case LoggerMiddleware(next) =>
      var inner := Run(next, env, req);
      Outcome([Log("request started", req.path, req.httpMethod)] + inner.trace
                + [Log("request finished", req.path, req.httpMethod)], inner.req)
    case ProxyMiddleware(targetHost, targetPort, _) =>
      var out := Directed(req, targetHost + targetPort);
      var status := (match env.upstream(out)
        case Unreachable => StatusBadGateway
        case Responded(s) => s);
      Outcome([Forwarded(out), Status(status)], req)
  }

  /** http.Handler.ServeHTTP for a chain: what `Run` describes, done on the objects. */
  method ServeHTTP(h: Handler, env: Env, w: ResponseWriter, r: Request)
    modifies w, r
    ensures w.trace == old(w.trace) + Run(h, env, old(r.Value())).trace
    ensures r.Value() == Run(h, env, old(r.Value())).req
    decreases h, 1
  {
    match h
    case Endpoint(name) =>
      w.Record(Delegated(name, r.Value()));
    case MethodMiddleware(m, next) =>
      if r.httpMethod != m {
        w.WriteHeader(StatusMethodNotAllowed);
        return;
      }
      ServeHTTP(next, env, w, r);
    case AuthMiddleware(next) =>
      ServeAuthenticated(next, env, w, r);
    case LoggerMiddleware(next) =>
      ServeLogged(next, env, w, r);
    case ProxyMiddleware(targetHost, targetPort, next) =>
      ServeProxied(targetHost, targetPort, next, env, w, r);
  }

  /** The handler AuthMiddleware returns: JWTVerify, then 401 or the wrapped handler. */
  method ServeAuthenticated(next: Handler, env: Env, w: ResponseWriter, r: Request)
    modifies w, r
    ensures w.trace == old(w.trace) + Run(AuthMiddleware(next), env, old(r.Value())).trace
    ensures r.Value() == Run(AuthMiddleware(next), env, old(r.Value())).req
    decreases AuthMiddleware(next), 0
  {
    ghost var req := r.Value();
    var err := JWTVerify(r, env.jwt, env.now);
    if err.Some? {
      w.WriteHeader(StatusUnauthorized);
      return;
    }
    ghost var c := VerifyToken(req.header, env.jwt, env.now).value;
    assert r.Value() == req.(header := IdentityHeaders(req.header, c));
    ServeHTTP(next, env, w, r);
  }

  /** The handler LoggerMiddleware returns: a line before the wrapped handler, and one after it. */
  method ServeLogged(next: Handler, env: Env, w: ResponseWriter, r: Request)
    modifies w, r
    ensures w.trace == old(w.trace) + Run(LoggerMiddleware(next), env, old(r.Value())).trace
    ensures r.Value() == Run(LoggerMiddleware(next), env, old(r.Value())).req
    decreases LoggerMiddleware(next), 0
  {
    var path, m := r.path, r.httpMethod;
    ghost var before, req := w.trace, r.Value();
    w.Record(Log("request started", path, m));
    ghost var started := w.trace;
    ServeHTTP(next, env, w, r);
    ghost var served := w.trace;
    w.Record(Log("request finished", path, m));
    LoggedRun(next, env, req);
    assert served == started + Run(next, env, req).trace;
    assert w.trace == before + ([Log("request started", path, m)] + Run(next, env, req).trace + [Log("request finished", path, m)]);
  }

  /** Run of LoggerMiddleware, unfolded once. */
  lemma LoggedRun(next: Handler, env: Env, req: HttpRequest)
    ensures Run(LoggerMiddleware(next), env, req).req == Run(next, env, req).req
    ensures Run(LoggerMiddleware(next), env, req).trace
      == [Log("request started", req.path, req.httpMethod)] + Run(next, env, req).trace
         + [Log("request finished", req.path, req.httpMethod)]
  {
  }

  /**
   * The handler ProxyMiddleware returns: the reverse proxy sends a Director-rewritten copy of
   * the request upstream and relays the status, or 502 from its ErrorHandler.
   */
  method ServeProxied(targetHost: string, targetPort: string, next: Handler, env: Env, w: ResponseWriter, r: Request)
    modifies w
    ensures w.trace == old(w.trace) + Run(ProxyMiddleware(targetHost, targetPort, next), env, r.Value()).trace
    ensures r.Value() == Run(ProxyMiddleware(targetHost, targetPort, next), env, r.Value()).req
  {
    var targetURL := targetHost + targetPort;
    var out := new Request(r.Value());
    Director(out, targetURL);
    w.Record(Forwarded(out.Value()));
    match env.upstream(out.Value())
    case Unreachable =>
      w.WriteHeader(StatusBadGateway);
    case Responded(s) =>
      w.WriteHeader(s);
  }

  // ---------------------------------------------------------------------------
  // Properties

  /** The requests the trace hands to application endpoints, in order. */
  function Received(t: seq<Event>): seq<HttpRequest> {
    if t == [] then [] else (if t[0].Delegated? then [t[0].req] else []) + Received(t[1..])
  }

  /** The number of times the trace reaches an application endpoint. */
  function Delegations(t: seq<Event>): nat {
    |Received(t)|
  }

  /** The number of status codes written in the trace. */
  function Statuses(t: seq<Event>): nat {
    if t == [] then 0 else (if t[0].Status? then 1 else 0) + Statuses(t[1..])
  }

  lemma {:induction false} CountsAppend(a: seq<Event>, b: seq<Event>)
    ensures Received(a + b) == Received(a) + Received(b)
    ensures Delegations(a + b) == Delegations(a) + Delegations(b)
    ensures Statuses(a + b) == Statuses(a) + Statuses(b)
    decreases |a|
  {
    if a == [] {
      assert a + b == b;
    } else {
      CountsAppend(a[1..], b);
      assert (a + b)[0] == a[0];
      assert (a + b)[1..] == a[1..] + b;
    }
  }

  lemma CountsOfOne(e: Event)
    ensures Received([e]) == (if e.Delegated? then [e.req] else [])
    ensures Statuses([e]) == (if e.Status? then 1 else 0)
  {
    assert [e][1..] == [];
  }

  lemma CountsOfTwo(d: Event, e: Event)
    ensures Received([d, e]) == Received([d]) + Received([e])
    ensures Statuses([d, e]) == Statuses([d]) + Statuses([e])
  {
    CountsAppend([d], [e]);
    assert [d] + [e] == [d, e];
  }

  /** The logging middleware's two lines neither reach an endpoint nor write a status. */
  lemma Bracketed(req: HttpRequest, inner: seq<Event>)
    ensures var t := [Log("request started", req.path, req.httpMethod)] + inner
                     + [Log("request finished", req.path, req.httpMethod)];
      Received(t) == Received(inner) && Statuses(t) == Statuses(inner)
  {
    var started := [Log("request started", req.path, req.httpMethod)];
    var finished := [Log("request finished", req.path, req.httpMethod)];
    CountsAppend(started, inner);
    CountsAppend(started + inner, finished);
    CountsOfOne(started[0]);
    CountsOfOne(finished[0]);
  }

  /**
   * Every request ends in exactly one of two ways: one status code written by a middleware
   * (or relayed from the upstream), or exactly one call of the application endpoint.
   */
  lemma {:induction false} ExactlyOneOutcome(h: Handler, env: Env, req: HttpRequest)
    ensures Delegations(Run(h, env, req).trace) + Statuses(Run(h, env, req).trace) == 1
    decreases h
  {
    var t := Run(h, env, req).trace;
    match h
    case Endpoint(_) =>
      CountsOfOne(t[0]);
    case MethodMiddleware(m, next) =>
      if req.httpMethod == m { ExactlyOneOutcome(next, env, req); } else { CountsOfOne(t[0]); }
    case AuthMiddleware(next) =>
      match VerifyToken(req.header, env.jwt, env.now) {
        case Err(_) => CountsOfOne(t[0]);
        case Ok(c) => ExactlyOneOutcome(next, env, req.(header := IdentityHeaders(req.header, c)));
      }
    case LoggerMiddleware(next) =>
      ExactlyOneOutcome(next, env, req);
      Bracketed(req, Run(next, env, req).trace);
    case ProxyMiddleware(_, _, _) =>
      CountsOfTwo(t[0], t[1]);
      CountsOfOne(t[0]);
      CountsOfOne(t[1]);
  }

  /** MethodMiddleware: another method gets 405 and the wrapped handler never runs. */
  lemma MethodMismatchRejects(m: string, next: Handler, env: Env, req: HttpRequest)
    requires req.httpMethod != m
    ensures Run(MethodMiddleware(m, next), env, req).trace == [Status(StatusMethodNotAllowed)]
    ensures Received(Run(MethodMiddleware(m, next), env, req).trace) == []
  {
    CountsOfOne(Status(StatusMethodNotAllowed));
  }

  /** MethodMiddleware: the configured method is handed on untouched, and nothing is written. */
  lemma MethodMatchDelegates(m: string, next: Handler, env: Env, req: HttpRequest)
    requires req.httpMethod == m
    ensures Run(MethodMiddleware(m, next), env, req) == Run(next, env, req)
  {
  }

  /** AuthMiddleware: a failed verification gets 401 and the wrapped handler never runs. */
  lemma AuthRejects(next: Handler, env: Env, req: HttpRequest)
    requires VerifyToken(req.header, env.jwt, env.now).Err?
    ensures Run(AuthMiddleware(next), env, req).trace == [Status(StatusUnauthorized)]
    ensures Received(Run(AuthMiddleware(next), env, req).trace) == []
  {
    CountsOfOne(Status(StatusUnauthorized));
  }

  /**
   * AuthMiddleware: a verified request is handed on once, carrying the token's identity in its
   * Login, Password and UserID headers (whatever the client sent under those names), and the
   * UserID header reads back as the user id of the token.
   */
  lemma AuthDelegates(next: Handler, env: Env, req: HttpRequest)
    requires VerifyToken(req.header, env.jwt, env.now).Ok?
    ensures var c := VerifyToken(req.header, env.jwt, env.now).value;
      && Run(AuthMiddleware(next), env, req) == Run(next, env, req.(header := IdentityHeaders(req.header, c)))
      && HasIdentity(IdentityHeaders(req.header, c), c)
      && Get(IdentityHeaders(req.header, c), "userid") == Itoa(c.userID)
      && Atoi(Get(IdentityHeaders(req.header, c), UserIDKey)) == Ok(c.userID)
  {
    var c := VerifyToken(req.header, env.jwt, env.now).value;
    UserIDReadsBack(req.header, c);
  }

  /** After JWTVerify, the user id header, under either spelling, reads back as the token's user id. */
  lemma UserIDReadsBack(h: Header, c: Claims)
    ensures HasIdentity(IdentityHeaders(h, c), c)
    ensures Get(IdentityHeaders(h, c), "userid") == Itoa(c.userID)
    ensures Atoi(Get(IdentityHeaders(h, c), UserIDKey)) == Ok(c.userID)
  {
    UserIDKeys();
    ItoaRoundTrip(c.userID);
  }

  /**
   * LoggerMiddleware: the inner handler always runs; "request started" comes first and
   * "request finished" last, whichever way the inner handler ends.
   */
  lemma LoggerBrackets(next: Handler, env: Env, req: HttpRequest)
    ensures var t := Run(LoggerMiddleware(next), env, req).trace;
      && |t| >= 3
      && t[0] == Log("request started", req.path, req.httpMethod)
      && t[|t| - 1] == Log("request finished", req.path, req.httpMethod)
      && t[1..|t| - 1] == Run(next, env, req).trace
  {
    ExactlyOneOutcome(next, env, req);
  }

  /**
   * ProxyMiddleware: whatever it wraps never runs; the Director's output is one request
   * rewritten to scheme "http" and host targetHost+targetPort, with the received method, path
   * and headers; an unreachable upstream gives 502, otherwise the upstream's status is relayed.
   */
  lemma ProxyForwards(targetHost: string, targetPort: string, next: Handler, env: Env, req: HttpRequest)
    ensures var o := Run(ProxyMiddleware(targetHost, targetPort, next), env, req);
      && Received(o.trace) == []
      && |o.trace| == 2 && o.trace[0].Forwarded?
      && var out := o.trace[0].req;
      && out.scheme == "http" && out.urlHost == targetHost + targetPort && out.host == targetHost + targetPort
      && out.httpMethod == req.httpMethod && out.path == req.path && out.header == req.header
      && o.trace[1] == Status(if env.upstream(out).Unreachable? then StatusBadGateway else env.upstream(out).status)
      && o.req == req
  {
    var t := Run(ProxyMiddleware(targetHost, targetPort, next), env, req).trace;
    CountsOfTwo(t[0], t[1]);
    CountsOfOne(t[0]);
    CountsOfOne(t[1]);
  }

  /** Header maps that agree everywhere except possibly on the identity headers. */
  ghost predicate AgreeOffIdentity(a: Header, b: Header) {
    forall k :: k != "Login" && k != "Password" && k != "Userid" ==>
      (k in a <==> k in b) && (k in a ==> a[k] == b[k])
  }

  lemma IdentityHeadersFrame(h: Header, c: Claims)
    ensures AgreeOffIdentity(h, IdentityHeaders(h, c))
    ensures HasIdentity(IdentityHeaders(h, c), c)
    ensures Get(IdentityHeaders(h, c), AuthorizationKey) == Get(h, AuthorizationKey)
  {
    CapitalisedIsCanonical("Authorization");
  }

  /** A request as an endpoint may receive it from `req`: same method and path, same headers but the identity ones. */
  ghost predicate SameUpToIdentity(req: HttpRequest, r: HttpRequest) {
    r.httpMethod == req.httpMethod && r.path == req.path && AgreeOffIdentity(req.header, r.header)
  }

  lemma SameUpToIdentityTrans(a: HttpRequest, b: HttpRequest, c: HttpRequest)
    requires SameUpToIdentity(a, b) && SameUpToIdentity(b, c)
    ensures SameUpToIdentity(a, c)
  {
  }

  /**
   * The pipeline never changes a request's method or path, and changes no header other than
   * the three identity headers: every request an endpoint receives is the incoming one up to those.
   */
  lemma {:induction false} OnlyIdentityHeadersChange(h: Handler, env: Env, req: HttpRequest)
    ensures forall r :: r in Received(Run(h, env, req).trace) ==> SameUpToIdentity(req, r)
    decreases h
  {
    var t := Run(h, env, req).trace;
    match h
    case Endpoint(_) =>
      CountsOfOne(t[0]);
    case MethodMiddleware(m, next) =>
      if req.httpMethod == m { OnlyIdentityHeadersChange(next, env, req); } else { CountsOfOne(t[0]); }
    case AuthMiddleware(next) =>
      match VerifyToken(req.header, env.jwt, env.now) {
        case Err(_) =>
          CountsOfOne(t[0]);
        case Ok(c) =>
          var req' := req.(header := IdentityHeaders(req.header, c));
          OnlyIdentityHeadersChange(next, env, req');
          IdentityHeadersFrame(req.header, c);
          forall r | r in Received(t) ensures SameUpToIdentity(req, r) {
            SameUpToIdentityTrans(req, req', r);
          }
      }
    case LoggerMiddleware(next) =>
      OnlyIdentityHeadersChange(next, env, req);
      Bracketed(req, Run(next, env, req).trace);
    case ProxyMiddleware(_, _, _) =>
      CountsOfTwo(t[0], t[1]);
      CountsOfOne(t[0]);
      CountsOfOne(t[1]);
  }

  /**
   * Once a request carries the identity of its own valid token, every endpoint reached from
   * there on sees that identity: a nested AuthMiddleware re-derives the same headers.
   */
  lemma {:induction false} IdentityReachesEndpoint(h: Handler, env: Env, req: HttpRequest, c: Claims)
    requires VerifyToken(req.header, env.jwt, env.now) == Ok(c)
    requires HasIdentity(req.header, c)
    ensures forall r :: r in Received(Run(h, env, req).trace) ==> HasIdentity(r.header, c)
    decreases h
  {
    var t := Run(h, env, req).trace;
    match h
    case Endpoint(_) =>
      CountsOfOne(t[0]);
    case MethodMiddleware(m, next) =>
      if req.httpMethod == m { IdentityReachesEndpoint(next, env, req, c); } else { CountsOfOne(t[0]); }
    case AuthMiddleware(next) =>
      var req' := req.(header := IdentityHeaders(req.header, c));
      IdentityHeadersFrame(req.header, c);
      assert VerifyToken(req'.header, env.jwt, env.now) == Ok(c);
      IdentityReachesEndpoint(next, env, req', c);
    case LoggerMiddleware(next) =>
      IdentityReachesEndpoint(next, env, req, c);
      Bracketed(req, Run(next, env, req).trace);
    case ProxyMiddleware(_, _, _) =>
      CountsOfTwo(t[0], t[1]);
      CountsOfOne(t[0]);
      CountsOfOne(t[1]);
  }

  /** Every endpoint behind an AuthMiddleware receives the identity of the caller's verified token. */
  lemma AuthenticatedEndpointsSeeIdentity(next: Handler, env: Env, req: HttpRequest)
    ensures Received(Run(AuthMiddleware(next), env, req).trace) != [] ==>
      VerifyToken(req.header, env.jwt, env.now).Ok?
    ensures forall r :: r in Received(Run(AuthMiddleware(next), env, req).trace) ==>
      HasIdentity(r.header, VerifyToken(req.header, env.jwt, env.now).value)
  {
    match VerifyToken(req.header, env.jwt, env.now) {
      case Err(_) =>
        AuthRejects(next, env, req);
      case Ok(c) =>
        var req' := req.(header := IdentityHeaders(req.header, c));
        IdentityHeadersFrame(req.header, c);
        assert VerifyToken(req'.header, env.jwt, env.now) == Ok(c);
        IdentityReachesEndpoint(next, env, req', c);
    }
  }

  /**
   * A protected route (logging, then the method guard, then authentication): a wrong method
   * gets 405 before the token is looked at, a bad token gets 401, and the endpoint runs
   * exactly once when both checks pass and never otherwise.
   */
  lemma ProtectedRoute(m: string, endpoint: string, env: Env, req: HttpRequest)
    ensures var t := Run(LoggerMiddleware(MethodMiddleware(m, AuthMiddleware(Endpoint(endpoint)))), env, req).trace;
      && (req.httpMethod != m ==> Status(StatusMethodNotAllowed) in t && Received(t) == [])
      && (req.httpMethod == m && VerifyToken(req.header, env.jwt, env.now).Err? ==>
            Status(StatusUnauthorized) in t && Received(t) == [])
      && (Delegations(t) == 1 <==> req.httpMethod == m && VerifyToken(req.header, env.jwt, env.now).Ok?)
  {
    var inner := MethodMiddleware(m, AuthMiddleware(Endpoint(endpoint)));
    var it := Run(inner, env, req).trace;
    var t := Run(LoggerMiddleware(inner), env, req).trace;
    Bracketed(req, it);
    if req.httpMethod != m {
      MethodMismatchRejects(m, AuthMiddleware(Endpoint(endpoint)), env, req);
    } else if VerifyToken(req.header, env.jwt, env.now).Err? {
      AuthRejects(Endpoint(endpoint), env, req);
    } else {
      var c := VerifyToken(req.header, env.jwt, env.now).value;
      var req' := req.(header := IdentityHeaders(req.header, c));
      assert it == Run(AuthMiddleware(Endpoint(endpoint)), env, req).trace == Run(Endpoint(endpoint), env, req').trace;
      CountsOfOne(Delegated(endpoint, req'));
    }
    assert t[1] == it[0];
  }
}
