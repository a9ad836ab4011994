/**
 * What the decision chain of sim/middleware.ts guarantees, rule group by rule
 * group, stated with definitions that do not mention the chain itself.
 */
module MiddlewareProperties {
  import opened Options
  import opened Text
  import opened UserAgentPatterns
  import opened Middleware

  // ---- independent descriptions --------------------------------------------

  /** `tenant` is the text of `host` before its first `.`, or all of it. */
  ghost predicate IsFirstLabel(tenant: string, host: string) {
    StartsWith(host, tenant) && '.' !in tenant && (|tenant| == |host| || host[|tenant|] == '.')
  }

  /**
   * A host the tenant rule claims: not `www.`-prefixed, mentioning the
   * production domain anywhere or ending in `.ts.net`, with a non-empty first
   * label.
   */
  ghost predicate IsTenantHost(host: string) {
    && !StartsWith(host, "www.")
    && ((exists i :: OccursAt(host, ProductionDomain, i)) || EndsWithIgnoreCase(host, ".ts.net"))
    && |host| > 0 && host[0] != '.'
  }

  /** The `token` parameter is present, non-empty and verifies as a live waitlist approval. */
  ghost predicate TokenApproves(query: map<string, string>, verifyToken: string -> VerifyOutcome, now: int) {
    && "token" in query && query["token"] != ""
    && verifyToken(query["token"]).Returned?
    && verifyToken(query["token"]).decoded.Some?
    && verifyToken(query["token"]).decoded.value.kind == "waitlist-approval"
    && verifyToken(query["token"]).decoded.value.exp > now
  }

  ghost predicate IsWorkspacePath(path: string) {
    path == "/w" || StartsWith(path, "/w/")
  }

  /** Paths that a rule before the development/session check decides. */
  ghost predicate IsEarlyPath(path: string) {
    IsWorkspacePath(path) || StartsWith(path, "/invite/")
  }

  /** The login and signup paths are not claimed by an earlier rule. */
  lemma GatePathsAreLate()
    ensures !IsEarlyPath("/login") && !IsEarlyPath("/signup")
  {
    assert "/login"[1] == 'l' && "/signup"[1] == 's';
  }

  /** A `/w/` path is neither `/w` nor an invite link. */
  lemma WorkspacePathIsNotInvite(path: string)
    requires StartsWith(path, "/w/")
    ensures path != "/w" && !StartsWith(path, "/invite/")
  {
    assert path[1] == path[..3][1] == 'w';
  }

  // ---- host classification ---------------------------------------------------

  /**
   * No host equals the base host derived from it: a development host yields
   * `localhost:3000`, which is not itself a development host, and the
   * production host `simstudio.ai` is on the allow-list.
   */
  lemma HostNeverBase(host: string)
    ensures host != BaseDomain(host)
  {
    assert !IsDevDomain(DevBaseDomain) by {
      assert DevBaseDomain !in AllowedDomains;
      assert DevBaseDomain[|DevBaseDomain| - 7..][0] == 's';
    }
  }

  /** Allow-list membership is exact and case-sensitive. */
  lemma AllowListIsCaseSensitive()
    ensures !IsDevDomain("LOCALHOST") && BaseDomain("LOCALHOST") == ProductionDomain
  {
    var host := "LOCALHOST";
    forall k | 0 <= k < |AllowedDomains| ensures AllowedDomains[k] != host {
      assert AllowedDomains[k][0] != 'L';
    }
    assert host[|host| - 7..][0] == 'C';
  }

  /** The `.ts.net` suffix is recognised in any case. */
  lemma TailscaleSuffixAnyCase()
    ensures IsDevDomain("box.TS.Net") && BaseDomain("box.TS.Net") == DevBaseDomain
  {
    assert "box.TS.Net"[3..] == ".TS.Net";
  }

  /** Hosts that differ only in the case of ASCII letters agree on the `.ts.net` test. */
  lemma TailscaleIgnoresCase(a: string, b: string)
    requires |a| == |b|
    requires forall k :: 0 <= k < |a| ==> LowerAscii(a[k]) == LowerAscii(b[k])
    ensures IsTailscaleHost(a) <==> IsTailscaleHost(b)
  {
    var n := |".ts.net"|;
    if n <= |a| {
      var sa, sb := a[|a| - n..], b[|b| - n..];
      forall k | 0 <= k < n ensures LowerAscii(sa[k]) == LowerAscii(sb[k]) {
        assert sa[k] == a[|a| - n + k] && sb[k] == b[|b| - n + k];
      }
    }
  }

  /** The `hostname !== BASE_DOMAIN` test never excludes a host. */
  lemma CustomDomainIff(host: string)
    ensures IsCustomDomain(host) <==>
      !StartsWith(host, "www.") && ((exists i :: OccursAt(host, ProductionDomain, i)) || IsTailscaleHost(host))
  {
    HostNeverBase(host);
    IncludesIff(host, ProductionDomain);
  }

  /** The tenant rule fires exactly for tenant hosts. */
  lemma RoutesToTenantIff(host: string)
    ensures RoutesToTenant(host) <==> IsTenantHost(host)
  {
    CustomDomainIff(host);
    SplitFirstPart(host, '.');
    var first := Split(host, '.')[0];
    if first != [] {
      assert host[0] == first[0];
    }
  }

  /** The first label is unique. */
  lemma FirstLabelUnique(host: string, a: string, b: string)
    requires IsFirstLabel(a, host) && IsFirstLabel(b, host)
    ensures a == b
  {
    forall k | 0 <= k < |a| ensures host[k] != '.' {
      assert host[k] == host[..|a|][k] == a[k];
    }
    forall k | 0 <= k < |b| ensures host[k] != '.' {
      assert host[k] == host[..|b|][k] == b[k];
    }
  }

  // ---- 1. tenant routing has top precedence --------------------------------

  /**
   * On a tenant host the decision depends on the path alone: the tenant chat
   * API passes through, anything else is rewritten under `/chat/<tenant>`,
   * whatever the session, development flag, token or user agent.
   */
  lemma TenantRoutingFirst(
    req: Request, hasActiveSession: bool, isDevelopment: bool,
    verifyToken: string -> VerifyOutcome, now: int, tenant: string)
    requires IsTenantHost(HeaderOrEmpty(req.host))
    requires IsFirstLabel(tenant, HeaderOrEmpty(req.host))
    ensures Decide(req, hasActiveSession, isDevelopment, verifyToken, now) ==
      if StartsWith(req.path, "/api/chat/") then Continue([])
      else Rewrite("/chat/" + tenant + req.path)
  {
    var host := HeaderOrEmpty(req.host);
    RoutesToTenantIff(host);
    SplitFirstPart(host, '.');
    FirstLabelUnique(host, tenant, Split(host, '.')[0]);
  }

  // ---- 2. workspace shortcut and invite links ------------------------------

  /**
   * Off tenant hosts, `/w` always redirects to `/w/1`. The `path === '/w'`
   * alternative of the later workspace test is therefore never the one that
   * decides: even without a session `/w` is not sent to `/login`.
   */
  lemma WorkspaceShortcut(
    req: Request, hasActiveSession: bool, isDevelopment: bool,
    verifyToken: string -> VerifyOutcome, now: int)
    requires !IsTenantHost(HeaderOrEmpty(req.host))
    requires req.path == "/w"
    ensures Decide(req, hasActiveSession, isDevelopment, verifyToken, now) == Redirect("/w/1")
  {
    RoutesToTenantIff(HeaderOrEmpty(req.host));
  }

  /** Off tenant hosts, invite links pass through, with or without a session. */
  lemma InviteAlwaysPasses(
    req: Request, hasActiveSession: bool, isDevelopment: bool,
    verifyToken: string -> VerifyOutcome, now: int)
    requires !IsTenantHost(HeaderOrEmpty(req.host))
    requires StartsWith(req.path, "/invite/")
    ensures Decide(req, hasActiveSession, isDevelopment, verifyToken, now) == Continue([])
  {
    RoutesToTenantIff(HeaderOrEmpty(req.host));
  }

  // ---- 3. the workspace session gate ---------------------------------------

  /** Off tenant hosts, `/w/…` needs a session; development mode and user agent play no part. */
  lemma WorkspaceGate(
    req: Request, hasActiveSession: bool, isDevelopment: bool,
    verifyToken: string -> VerifyOutcome, now: int)
    requires !IsTenantHost(HeaderOrEmpty(req.host))
    requires StartsWith(req.path, "/w/")
    ensures Decide(req, hasActiveSession, isDevelopment, verifyToken, now) ==
      if hasActiveSession then Continue([]) else Redirect("/login")
  {
    RoutesToTenantIff(HeaderOrEmpty(req.host));
    WorkspacePathIsNotInvite(req.path);
  }

  // ---- 4. development and session short-circuit ------------------------------

  /**
   * Past the rules above, development mode or a session passes everything,
   * so the login gate and the user-agent filter are never consulted: even a
   * scanner's user agent is let through.
   */
  lemma DevelopmentOrSessionPasses(
    req: Request, hasActiveSession: bool, isDevelopment: bool,
    verifyToken: string -> VerifyOutcome, now: int)
    requires !IsTenantHost(HeaderOrEmpty(req.host))
    requires !IsEarlyPath(req.path)
    requires isDevelopment || hasActiveSession
    ensures Decide(req, hasActiveSession, isDevelopment, verifyToken, now) == Continue([])
  {
    RoutesToTenantIff(HeaderOrEmpty(req.host));
  }

  // ---- 5. the login/signup gate ------------------------------------------------

  /**
   * Signup without a session outside development passes only with an invite
   * redirect or a live approval token; everything else, a thrown verification
   * included, goes to `/`. The previous-login cookie does not help.
   */
  lemma SignupGate(
    req: Request, verifyToken: string -> VerifyOutcome, now: int)
    requires !IsTenantHost(HeaderOrEmpty(req.host))
    requires req.path == "/signup"
    ensures Decide(req, false, false, verifyToken, now) ==
      if IsInviteRedirect(req.query) || TokenApproves(req.query, verifyToken, now)
      then Continue([]) else Redirect("/")
  {
    RoutesToTenantIff(HeaderOrEmpty(req.host));
    GatePathsAreLate();
  }

  /**
   * The waitlist gate never redirects `/login`: the previous-login cookie, an
   * invite redirect or a live token pass it, and otherwise evaluation reaches
   * the user-agent filter.
   */
  lemma LoginNeverRedirected(
    req: Request, verifyToken: string -> VerifyOutcome, now: int)
    requires !IsTenantHost(HeaderOrEmpty(req.host))
    requires req.path == "/login"
    ensures Decide(req, false, false, verifyToken, now) ==
      if HasPreviouslyLoggedIn(req.cookies) || IsInviteRedirect(req.query)
         || TokenApproves(req.query, verifyToken, now)
      then Continue([]) else FilterUserAgent(HeaderOrEmpty(req.userAgent))
    ensures !Decide(req, false, false, verifyToken, now).Redirect?
  {
    RoutesToTenantIff(HeaderOrEmpty(req.host));
    GatePathsAreLate();
  }

  /**
   * Only whether the request's token verifies as a live approval matters:
   * a thrown verification, a resolved `null` and stale or foreign claims all
   * route alike, and with no token the verifier is never consulted.
   */
  lemma OnlyApprovalMatters(
    req: Request, hasActiveSession: bool, isDevelopment: bool,
    verify1: string -> VerifyOutcome, verify2: string -> VerifyOutcome, now: int)
    requires TokenApproves(req.query, verify1, now) == TokenApproves(req.query, verify2, now)
    ensures Decide(req, hasActiveSession, isDevelopment, verify1, now) ==
            Decide(req, hasActiveSession, isDevelopment, verify2, now)
  {
  }

  // ---- 6. the user-agent filter and the default --------------------------------

  /** A user agent is blocked exactly when one of the five patterns matches it. */
  lemma FilterUserAgentSpec(userAgent: string)
    ensures FilterUserAgent(userAgent) ==
      if MatchesSomePattern(userAgent) then Block(403, "Forbidden", BlockHeaders)
      else Continue([VaryUserAgent])
  {
    SuspiciousIff(userAgent);
  }

  /** The block response: status 403 and exactly seven hardening headers. */
  lemma BlockResponseHeaders()
    ensures |BlockHeaders| == 7
    ensures ("Content-Security-Policy", "default-src 'none'") in BlockHeaders
    ensures ("X-Frame-Options", "DENY") in BlockHeaders
    ensures ("X-Content-Type-Options", "nosniff") in BlockHeaders
    ensures forall k, l :: 0 <= k < l < |BlockHeaders| ==> BlockHeaders[k].0 != BlockHeaders[l].0
  {
    assert BlockHeaders[3] == ("Content-Security-Policy", "default-src 'none'");
    assert BlockHeaders[2] == ("X-Frame-Options", "DENY");
    assert BlockHeaders[1] == ("X-Content-Type-Options", "nosniff");
  }

  /** Any path no earlier rule claims reaches the user-agent filter when nobody is signed in outside development. */
  lemma OtherPathsReachFilter(
    req: Request, verifyToken: string -> VerifyOutcome, now: int)
    requires !IsTenantHost(HeaderOrEmpty(req.host))
    requires !IsEarlyPath(req.path) && req.path != "/login" && req.path != "/signup"
    ensures Decide(req, false, false, verifyToken, now) == FilterUserAgent(HeaderOrEmpty(req.userAgent))
  {
    RoutesToTenantIff(HeaderOrEmpty(req.host));
  }

  /** A request without a user-agent header is blocked wherever the filter is reached. */
  lemma MissingUserAgentBlocked(userAgent: Option<string>)
    requires userAgent.None? || userAgent == Some("")
    ensures FilterUserAgent(HeaderOrEmpty(userAgent)) == Block(403, "Forbidden", BlockHeaders)
  {
    assert Test(SuspiciousUaPatterns[0], "");
  }

  /** One user agent per pattern, each blocked wherever the filter is reached. */
  lemma ScannerAgentBlocked()
    ensures FilterUserAgent("sqlmap/1.7") == Block(403, "Forbidden", BlockHeaders)
  {
    assert ToolAt("sqlmap/1.7", 0, "sqlmap");
    assert Test(SuspiciousUaPatterns[4], "sqlmap/1.7");
  }
  lemma ScriptAgentBlocked()
    ensures FilterUserAgent("x< SCRIPT>") == Block(403, "Forbidden", BlockHeaders)
  {
    var tag := "x< SCRIPT>";
    assert tag[3..9] == "SCRIPT" && tag[2..3] == " ";
    assert ScriptTagAt(tag, 1, 3);
    ScriptTagFromIff(tag, 0);
    assert Test(SuspiciousUaPatterns[2], tag);
  }
  lemma FunctionBodyAgentBlocked()
    ensures FilterUserAgent("() { :; }") == Block(403, "Forbidden", BlockHeaders)
  {
    var body := "() { :; }";
    assert body[..2] == "()";
    assert body[2..3][0] == body[2] == ' ';
    assert FunctionBodyAt(body, 3);
    FunctionBodyIff(body);
    assert Test(SuspiciousUaPatterns[3], body);
  }
  lemma TraversalAgentBlocked()
    ensures FilterUserAgent("a/../b") == Block(403, "Forbidden", BlockHeaders)
  {
    assert Test(SuspiciousUaPatterns[1], "a/../b");
  }

  /** Exactly when a request is blocked. */
  lemma BlockedIff(
    req: Request, hasActiveSession: bool, isDevelopment: bool,
    verifyToken: string -> VerifyOutcome, now: int)
    ensures Decide(req, hasActiveSession, isDevelopment, verifyToken, now).Block? <==>
      && !IsTenantHost(HeaderOrEmpty(req.host))
      && !IsEarlyPath(req.path)
      && !isDevelopment && !hasActiveSession
      && (req.path == "/login" ==>
            !HasPreviouslyLoggedIn(req.cookies) && !IsInviteRedirect(req.query)
            && !TokenApproves(req.query, verifyToken, now))
      && req.path != "/signup"
      && MatchesSomePattern(HeaderOrEmpty(req.userAgent))
  {
    RoutesToTenantIff(HeaderOrEmpty(req.host));
    SuspiciousIff(HeaderOrEmpty(req.userAgent));
  }

  /** Every decision is one of the shapes the source can produce. */
  lemma DecisionShapes(
    req: Request, hasActiveSession: bool, isDevelopment: bool,
    verifyToken: string -> VerifyOutcome, now: int)
    ensures var d := Decide(req, hasActiveSession, isDevelopment, verifyToken, now);
      && (d.Continue? ==> d.added == [] || d.added == [VaryUserAgent])
      && (d.Rewrite? ==> StartsWith(d.target, "/chat/"))
      && (d.Redirect? ==> d.location in {"/w/1", "/login", "/"})
      && (d.Block? ==> d == Block(403, "Forbidden", BlockHeaders))
  {
    var host := HeaderOrEmpty(req.host);
    if RoutesToTenant(host) {
      var target := "/chat/" + Subdomain(host).value + req.path;
      assert target[..6] == "/chat/";
    } else if req.path == "/login" || req.path == "/signup" {
      LoginGateShapes(req.path, req.query, req.cookies, verifyToken, now);
    }
  }

  lemma LoginGateShapes(
    path: string, query: map<string, string>, cookies: map<string, string>,
    verifyToken: string -> VerifyOutcome, now: int)
    requires path == "/login" || path == "/signup"
    ensures var gate := LoginGate(path, query, cookies, verifyToken, now);
      gate.Some? ==> gate.value == Continue([]) || gate.value == Redirect("/")
  {
  }

  // ---- behaviours of the code as written ---------------------------------------

  /**
   * The production host itself is on the allow-list, so it counts as a
   * development host, its base is `localhost:3000`, and it is a tenant host
   * whose first label is `simstudio`: by TenantRoutingFirst every path but the
   * chat API is rewritten under `/chat/simstudio`.
   */
  lemma BareProductionHostIsTenant()
    ensures IsDevDomain(ProductionDomain) && BaseDomain(ProductionDomain) == DevBaseDomain
    ensures IsTenantHost(ProductionDomain) && IsFirstLabel("simstudio", ProductionDomain)
  {
    var host := ProductionDomain;
    assert AllowedDomains[0] == host;
    assert OccursAt(host, ProductionDomain, 0);
    assert !StartsWith(host, "www.") by { assert host[0] != 'w'; }
    assert host[..9] == "simstudio";
  }

  /**
   * The production-domain test looks for the name anywhere in the host, so a
   * foreign host that merely contains it is a tenant host too.
   */
  lemma ContainedProductionNameIsTenant()
    ensures IsTenantHost("app.simstudio.ai.example.com")
    ensures IsFirstLabel("app", "app.simstudio.ai.example.com")
  {
    var host := "app.simstudio.ai.example.com";
    var rest := ProductionDomain + ".example.com";
    assert host == "app." + rest;
    assert host[4..] == rest;
    assert rest[..12] == ProductionDomain;
    assert host[4..16] == host[4..][..12];
    assert OccursAt(host, ProductionDomain, 4);
    assert !StartsWith(host, "www.") by { assert host[0] != 'w'; }
    assert host[..3] == "app";
  }

  /** The `www.` host of production is not a tenant host. */
  lemma WwwHostNotTenant()
    ensures !IsTenantHost("www.simstudio.ai")
  {
    assert "www.simstudio.ai"[..4] == "www.";
  }

  /** A host that starts with `.` has an empty first label and is not rewritten. */
  lemma LeadingDotHostNotTenant(host: string)
    requires |host| > 0 && host[0] == '.'
    ensures !RoutesToTenant(host)
  {
    RoutesToTenantIff(host);
  }
}
