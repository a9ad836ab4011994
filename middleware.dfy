/**
 * The edge request gate of sim/middleware.ts: one routing decision per
 * request, chosen by an ordered chain of rules where the first rule that
 * decides wins.
 *
 * Collaborators the middleware calls but does not define are inputs here:
 * `getSessionCookie` becomes `hasActiveSession`, `process.env.NODE_ENV` becomes
 * `isDevelopment`, the awaited `verifyToken` becomes a function from the token
 * to its outcome, and `Math.floor(Date.now() / 1000)` becomes `now`.
 */
module Middleware {
  import opened Options
  import opened Text
  import opened UserAgentPatterns

  // ---- configuration constants ---------------------------------------------

  /** `allowedDomains`: hosts treated as development or otherwise allowed. */
  const AllowedDomains: seq<string> := [
    "simstudio.ai",
    "simcity1",
    "10.211.55.42",
    "100.78.223.87",
    "localhost",
    "127.0.0.1",
    "host.docker.internal",
    "simstudio.local.ts.net"
  ]

  const DevBaseDomain: string := "localhost:3000"
  const ProductionDomain: string := "simstudio.ai"

  // ---- request, collaborator outcomes, decision ----------------------------

  /** The fields of a request the middleware reads. */
  datatype Request = Request(
    host: Option<string>,          // the `host` header
    userAgent: Option<string>,     // the `user-agent` header
    path: string,                  // `nextUrl.pathname`
    query: map<string, string>,    // first value of each search parameter
    cookies: map<string, string>)  // cookie name to value

  /** The payload `verifyToken` resolves to. */
  datatype Claims = Claims(kind: string, exp: int)

  /** How the awaited `verifyToken` call ends: it resolves (possibly to nothing) or throws. */
  datatype VerifyOutcome = Returned(decoded: Option<Claims>) | Threw

  type Header = (string, string)

  /** The response the middleware produces. */
  datatype Decision =
    | Continue(added: seq<Header>)                               // NextResponse.next()
    | Rewrite(target: string)                                    // NextResponse.rewrite
    | Redirect(location: string)                                 // NextResponse.redirect
    | Block(status: int, statusText: string, headers: seq<Header>) // new NextResponse(null, …)

  const VaryUserAgent: Header := ("Vary", "User-Agent")

  const BlockHeaders: seq<Header> := [
    ("Content-Type", "text/plain"),
    ("X-Content-Type-Options", "nosniff"),
    ("X-Frame-Options", "DENY"),
    ("Content-Security-Policy", "default-src 'none'"),
    ("Cache-Control", "no-store, no-cache, must-revalidate, proxy-revalidate"),
    ("Pragma", "no-cache"),
    ("Expires", "0")
  ]

  // ---- reading the request ---------------------------------------------------

  /** `request.headers.get(name) || ''`. */
  function HeaderOrEmpty(header: Option<string>): string {
    header.GetOr("")
  }

  /** `searchParams.get(name)`. */
  function Param(query: map<string, string>, name: string): Option<string> {
    if name in query then Some(query[name]) else None
  }

  /** A string-or-null value that JavaScript treats as true. */
  predicate IsTruthy(v: Option<string>) {
    v.Some? && v.value != ""
  }

  predicate HasPreviouslyLoggedIn(cookies: map<string, string>) {
    "has_logged_in_before" in cookies && cookies["has_logged_in_before"] == "true"
  }

  predicate IsInviteRedirect(query: map<string, string>) {
    var redirect := Param(query, "redirect");
    IsTruthy(redirect) && StartsWith(redirect.value, "/invite/")
  }

  // ---- host classification and tenant routing ------------------------------

  /** `tailscalePattern.test(host)`, that is `/\.ts\.net$/i`. */
  predicate IsTailscaleHost(host: string) {
    EndsWithIgnoreCase(host, ".ts.net")
  }

  predicate IsDevDomain(host: string) {
    host in AllowedDomains || IsTailscaleHost(host)
  }

  function BaseDomain(host: string): string {
    if IsDevDomain(host) then DevBaseDomain else ProductionDomain
  }

  predicate IsCustomDomain(host: string) {
    && host != BaseDomain(host)
    && !StartsWith(host, "www.")
    && (Includes(host, ProductionDomain) || IsTailscaleHost(host))
  }

  /** `isCustomDomain ? hostname.split('.')[0] : null`. */
  function Subdomain(host: string): Option<string> {
    if IsCustomDomain(host) then Some(Split(host, '.')[0]) else None
  }

  /** `if (subdomain && isCustomDomain)`. */
  predicate RoutesToTenant(host: string) {
    IsTruthy(Subdomain(host)) && IsCustomDomain(host)
  }

  // ---- the login/signup gate -------------------------------------------------

  /** `decodedToken?.type === 'waitlist-approval' && decodedToken.exp > now`. */
  predicate IsApproval(decoded: Option<Claims>, now: int) {
    decoded.Some? && decoded.value.kind == "waitlist-approval" && decoded.value.exp > now
  }

  /**
   * The login/signup rule for a request without a session outside development:
   * `Some` decision when it returns, `None` when evaluation falls through.
   */
  function LoginGate(
    path: string, query: map<string, string>, cookies: map<string, string>,
    verifyToken: string -> VerifyOutcome, now: int): Option<Decision>
    requires path == "/login" || path == "/signup"
  {
    if HasPreviouslyLoggedIn(cookies) && path == "/login" then Some(Continue([]))
    else if IsInviteRedirect(query) then Some(Continue([]))
    else
      var token := Param(query, "token");
      if IsTruthy(token) then
        match verifyToken(token.value)
        case Returned(decoded) =>
          if IsApproval(decoded, now) then Some(Continue([]))
          else if path == "/signup" then Some(Redirect("/"))
          else None
        case Threw =>
          if path == "/signup" then Some(Redirect("/")) else None
      else if path == "/signup" then Some(Redirect("/"))
      else None
  }

  // ---- the user-agent filter and the default ------------------------------

  function FilterUserAgent(userAgent: string): Decision {
    if IsSuspicious(userAgent) then Block(403, "Forbidden", BlockHeaders)
    else Continue([VaryUserAgent])
  }

  // ---- the chain --------------------------------------------------------------

  /** `middleware(request)`: the rules in source order, the first that decides wins. */
  function Decide(
    req: Request, hasActiveSession: bool, isDevelopment: bool,
    verifyToken: string -> VerifyOutcome, now: int): Decision
  {
    var host := HeaderOrEmpty(req.host);
    var path := req.path;
    if RoutesToTenant(host) then
      if StartsWith(path, "/api/chat/") then Continue([])
      else Rewrite("/chat/" + Subdomain(host).value + path)
    else if path == "/w" then Redirect("/w/1")
    else if StartsWith(path, "/invite/") then Continue([])
    else if StartsWith(path, "/w/") || path == "/w" then
      if !hasActiveSession then Redirect("/login") else Continue([])
    else if isDevelopment then Continue([])
    else if hasActiveSession then Continue([])
    else
      var gate := if path == "/login" || path == "/signup"
                  then LoginGate(path, req.query, req.cookies, verifyToken, now)
                  else None;
      if gate.Some? then gate.value
      else FilterUserAgent(HeaderOrEmpty(req.userAgent))
  }
}
