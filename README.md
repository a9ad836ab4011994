# Edge request gate of Sim Studio, in Dafny

This project models the Next.js middleware of Sim Studio (`sim/middleware.ts`),
which decides for every inbound request, before any page runs, whether to
continue it unchanged, rewrite its path to a tenant's chat page, redirect it,
or block it with a locked-down 403. The decision is an ordered list of early
returns and the first rule that matches decides:

1. host classification (allow-list and the `.ts.net` pattern) and the base host;
2. tenant routing: a tenant host's request is rewritten to `/chat/<label><path>`,
   except for the tenant chat API under `/api/chat/`;
3. `/w` redirects to `/w/1`;
4. invite links under `/invite/` pass;
5. `/w/…` needs a session, otherwise redirect to `/login`;
6. development mode or a session passes everything else;
7. the login/signup gate: previous-login cookie (login only), invite redirect,
   waitlist token;
8. the suspicious user-agent filter (five regular expressions) blocks with 403
   and seven hardening headers;
9. otherwise continue with `Vary: User-Agent`.

Files:

- `text.dfy`: module `Options` (an option type standing for `null`), and module
  `Text`, the JavaScript string operations the middleware uses: `startsWith`,
  `includes` (with a lemma tying it to "occurs at some index"), `split` on `.`
  (with both round trips against `join` and a description of its first part),
  and ASCII case folding, which with `EndsWithIgnoreCase` models the
  `$`-anchored, case-insensitive `/\.ts\.net$/i` test.
- `user_agent.dfy`: module `UserAgentPatterns`. Each of the five regular
  expressions is a predicate that tries positions the way a backtracking
  matcher does, next to a declarative definition of a match, with a lemma that
  the two agree; `IsSuspicious` is the `.some` over the pattern list.
- `middleware.dfy`: module `Middleware`. The constants, the `Request` and
  `Decision` datatypes, and `Decide`, the middleware as one function, rule by
  rule in source order.
- `middleware_properties.dfy`: module `MiddlewareProperties`. One lemma per rule
  group, stated with definitions that do not mention `Decide` (a tenant host, a
  first label, an approving token, what the patterns match), plus lemmas that
  pin down surprising behaviours of the code as written.

Collaborators become inputs of `Decide`: `getSessionCookie` is the boolean
`hasActiveSession`, `process.env.NODE_ENV === 'development'` is
`isDevelopment`, the awaited `verifyToken` is a function from the token to
`Returned(claims or null)` or `Threw`, and `Math.floor(Date.now() / 1000)` is
the integer `now`.

Behaviours of the code as written that the lemmas make explicit:

- `simstudio.ai` is on the allow-list, so the production host is a development
  host whose base is `localhost:3000`; it is a tenant host with label
  `simstudio` (`BareProductionHostIsTenant`).
- No host ever equals the base host computed from it, so the
  `hostname !== BASE_DOMAIN` conjunct never excludes anything (`HostNeverBase`).
- The production-domain test is a substring test, so
  `app.simstudio.ai.example.com` is a tenant host (`ContainedProductionNameIsTenant`).
- A host starting with `.` has an empty first label and is not rewritten
  (`LeadingDotHostNotTenant`).
- The `path === '/w'` alternative of the workspace gate never decides, because
  `/w` was redirected to `/w/1` just before (`WorkspaceShortcut`).
- In development or with a session, the user-agent filter never runs
  (`DevelopmentOrSessionPasses`).
- An empty `token` parameter is treated as no token (`TokenApproves` requires a
  non-empty token), and a missing user-agent header reads as `""`, which is
  blocked (`MissingUserAgentBlocked`).
- The 403 response has no body, only the status text `Forbidden` and its seven
  headers (`FilterUserAgentSpec`, `BlockResponseHeaders`).
- The `.ts.net` test ignores ASCII case: hosts that differ only in the case of
  ASCII letters are classified alike (`TailscaleIgnoresCase`).

## Model

| member | source | states |
|---|---|---|
| `Text.IncludesIff` | sim/middleware.ts:40 | `includes` holds exactly when the needle occurs at some index of the host |
| `Text.Split` | sim/middleware.ts:42 | `split('.')` yields at least one part and no part contains the separator |
| `Text.JoinSplit` | sim/middleware.ts:42 | joining the parts of a split with the separator gives back the string |
| `Text.SplitJoin` | sim/middleware.ts:42 | splitting a join of separator-free parts gives back the parts |
| `Text.SplitFirstPart` | sim/middleware.ts:42 | `split('.')[0]` is the prefix before the first `.`, or the whole host when it has none |
| `UserAgentPatterns.SkipSpace` | sim/middleware.ts:113-116 | a greedy `\s*` drops a run of ECMAScript white space and stops at a non-space or the end |
| `UserAgentPatterns.SkipSpaceUnique` | sim/middleware.ts:113-116 | a space run followed by a non-space or the end is exactly what `\s*` consumes |
| `UserAgentPatterns.BlankIff` | sim/middleware.ts:113 | `/^\s*$/` matches exactly the strings made only of white space, the empty one included |
| `UserAgentPatterns.ScriptTagStartsAtIff` | sim/middleware.ts:115 | at one position, `<` then spaces then `script` in any case is found iff such a match starts there |
| `UserAgentPatterns.ScriptTagFromIff` | sim/middleware.ts:115 | the left-to-right search for `/<\s*script/i` succeeds iff a match starts at or after the start position |
| `UserAgentPatterns.FunctionBodyIff` | sim/middleware.ts:116 | `/^\(\)\s*{/` matches iff the agent opens with `()` and a `{` follows after only spaces |
| `UserAgentPatterns.SomeToolAtIff` | sim/middleware.ts:117 | trying the alternatives `sqlmap|nikto|gobuster|dirb|nmap` in order at a position succeeds iff one of them matches there with a word boundary on both sides |
| `UserAgentPatterns.ToolFromIff` | sim/middleware.ts:117 | the search for `/\b(sqlmap|…|nmap)\b/i` succeeds iff some tool name stands as a whole word, in any case, at or after the start position |
| `UserAgentPatterns.SingleWordNamesTool` | sim/middleware.ts:117 | an agent made of word characters only is flagged iff it is a tool name in full |
| `UserAgentPatterns.DirbusterNamesNoTool` | sim/middleware.ts:117 | `dirbuster` contains `dirb` but is not flagged, because `\b` fails inside a word |
| `UserAgentPatterns.SomePatternIff` | sim/middleware.ts:112-120 | `.some` over the pattern list is the disjunction of the five tests |
| `UserAgentPatterns.SuspiciousIff` | sim/middleware.ts:112-120 | an agent is suspicious iff it is blank, contains `..`, has a script tag, opens a function body or names a scanner tool |
| `MiddlewareProperties.HostNeverBase` | sim/middleware.ts:32-38 | no host equals the base host derived from it |
| `MiddlewareProperties.AllowListIsCaseSensitive` | sim/middleware.ts:11-20 | allow-list membership is exact: `LOCALHOST` is not a development host and gets the production base |
| `MiddlewareProperties.TailscaleIgnoresCase` | sim/middleware.ts:22 | two hosts that differ only in the case of ASCII letters agree on the `/\.ts\.net$/i` test |
| `MiddlewareProperties.TailscaleSuffixAnyCase` | sim/middleware.ts:22 | example: `box.TS.Net` is a development host whose base is `localhost:3000` |
| `MiddlewareProperties.CustomDomainIff` | sim/middleware.ts:37-40 | a host is a custom domain iff it does not start with `www.` and contains `simstudio.ai` or ends with `.ts.net` |
| `MiddlewareProperties.RoutesToTenantIff` | sim/middleware.ts:37-44 | the tenant rule fires iff the host is a custom domain whose first label is non-empty |
| `MiddlewareProperties.FirstLabelUnique` | sim/middleware.ts:42 | a host has one first label |
| `MiddlewareProperties.TenantRoutingFirst` | sim/middleware.ts:44-50 | on a tenant host the chat API continues and every other path is rewritten to `/chat/` + label + path, whatever the session, mode, token or agent |
| `MiddlewareProperties.WorkspaceShortcut` | sim/middleware.ts:52-54 | off tenant hosts `/w` always redirects to `/w/1`, with or without a session |
| `MiddlewareProperties.InviteAlwaysPasses` | sim/middleware.ts:56-58 | off tenant hosts every `/invite/` path continues, even without a session |
| `MiddlewareProperties.WorkspaceGate` | sim/middleware.ts:60-65 | off tenant hosts `/w/…` continues with a session and redirects to `/login` without one, in any mode and for any agent |
| `MiddlewareProperties.DevelopmentOrSessionPasses` | sim/middleware.ts:67-73 | past the earlier rules, development mode or a session continues, so neither the login gate nor the agent filter runs |
| `MiddlewareProperties.SignupGate` | sim/middleware.ts:75-108 | signup without a session in production continues iff there is an invite redirect or a non-empty token that verifies as a live `waitlist-approval`; otherwise it redirects to `/` |
| `MiddlewareProperties.LoginNeverRedirected` | sim/middleware.ts:75-111 | login continues on the `true` previous-login cookie, an invite redirect or an approving token, and otherwise falls through to the agent filter; it is never redirected |
| `MiddlewareProperties.LoginGateShapes` | sim/middleware.ts:75-108 | the login/signup gate only continues or redirects to `/` |
| `MiddlewareProperties.OnlyApprovalMatters` | sim/middleware.ts:87-108 | two verifiers that agree on whether the request's token approves give the same decision: a throw, a `null` result and stale or foreign claims route alike |
| `MiddlewareProperties.FilterUserAgentSpec` | sim/middleware.ts:120-148 | the filter blocks with 403 exactly when a pattern matches and otherwise continues with `Vary: User-Agent` only |
| `MiddlewareProperties.BlockResponseHeaders` | sim/middleware.ts:131-143 | the 403 carries seven distinct headers, among them `Content-Security-Policy: default-src 'none'` and `X-Frame-Options: DENY` |
| `MiddlewareProperties.OtherPathsReachFilter` | sim/middleware.ts:67-111 | with no session in production, paths no earlier rule claims are decided by the agent filter |
| `MiddlewareProperties.MissingUserAgentBlocked` | sim/middleware.ts:111-113 | an absent or empty user-agent header is blocked |
| `MiddlewareProperties.ScannerAgentBlocked` | sim/middleware.ts:117 | `sqlmap/1.7` is blocked |
| `MiddlewareProperties.ScriptAgentBlocked` | sim/middleware.ts:115 | `x< SCRIPT>` is blocked |
| `MiddlewareProperties.FunctionBodyAgentBlocked` | sim/middleware.ts:116 | `() { :; }` is blocked |
| `MiddlewareProperties.TraversalAgentBlocked` | sim/middleware.ts:114 | `a/../b` is blocked |
| `MiddlewareProperties.BlockedIff` | sim/middleware.ts:24-149 | a request is blocked iff it is off a tenant host, outside the workspace and invite paths, without session in production, not passed by the login gate, not on signup, and its agent matches a pattern |
| `MiddlewareProperties.DecisionShapes` | sim/middleware.ts:24-149 | every decision is a continue with no header or with `Vary`, a rewrite under `/chat/`, a redirect to `/w/1`, `/login` or `/`, or the one 403 response |
| `MiddlewareProperties.BareProductionHostIsTenant` | sim/middleware.ts:11-44 | `simstudio.ai` is a development host with base `localhost:3000` and a tenant host with label `simstudio` |
| `MiddlewareProperties.ContainedProductionNameIsTenant` | sim/middleware.ts:40-42 | a host that merely contains `simstudio.ai` is a tenant host, here with label `app` |
| `MiddlewareProperties.WwwHostNotTenant` | sim/middleware.ts:39 | `www.simstudio.ai` is not a tenant host |
| `MiddlewareProperties.LeadingDotHostNotTenant` | sim/middleware.ts:44 | a host starting with `.` is never rewritten |

## Left out

- The `config.matcher` list (sim/middleware.ts:151-160): which paths reach the middleware depends on Next.js path-pattern matching; the model decides every request it is given.
- `verifyToken` (sim/middleware.ts:3, 89) is a foreign cryptographic call: its outcome is an input, and the asynchronous suspension is not modelled.
- `getSessionCookie` (sim/middleware.ts:28) is a foreign library call: its result is the boolean `hasActiveSession`.
- `Date.now()` and `Math.floor` (sim/middleware.ts:90) become the integer `now`; the claim `exp` is an integer, so a missing, fractional or non-numeric `exp` is not modelled.
- Logging (sim/middleware.ts:99, 123-129), including the `x-forwarded-for` lookup and the `.find` that names the matching pattern: observability only, no effect on the decision.
- `new URL(…, request.url)`: rewrite and redirect targets are kept as paths, so URL parsing and normalisation of the target (a label holding `%`, `?` or `#`) and the dropping of the query string are not modelled.
- Header and query access are given their results: the header value (or none) and the first value of each search parameter; case-insensitive header names and multi-valued headers are not modelled.
- Strings are sequences of Unicode scalar values, not UTF-16 code units; no decision depends on the difference, but lone surrogates cannot be represented.
- sim/app/layout.tsx and sim/next.config.ts are not part of this model: page metadata, markup, a logging patch, and declarative build and header configuration.
