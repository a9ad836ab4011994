/**
 * The five suspicious user-agent regular expressions of the middleware
 * (sim/middleware.ts:112-118), each written as a scanning predicate that tries
 * positions the way a backtracking matcher does, next to a declarative
 * definition of what a match is, with a lemma that the two agree.
 */
module UserAgentPatterns {
  import opened Text

  /** `\s` of an ECMAScript regular expression: WhiteSpace and LineTerminator. */
  predicate IsRegExpSpace(c: char) {
    || c == '\t' || c == '\n' || c == '\U{000B}' || c == '\U{000C}' || c == '\r'
    || c == ' ' || c == '\U{00A0}' || c == '\U{1680}' || ('\U{2000}' <= c <= '\U{200A}')
    || c == '\U{2028}' || c == '\U{2029}' || c == '\U{202F}' || c == '\U{205F}'
    || c == '\U{3000}' || c == '\U{FEFF}'
  }

  /** `\w` without the Unicode flag: the characters `\b` tells apart. */
  predicate IsWordChar(c: char) {
    ('a' <= c <= 'z') || ('A' <= c <= 'Z') || ('0' <= c <= '9') || c == '_'
  }

  ghost predicate AllSpace(s: string) {
    forall k :: 0 <= k < |s| ==> IsRegExpSpace(s[k])
  }

  /** What is left after a greedy `\s*`: the longest run of spaces is dropped. */
  function SkipSpace(s: string): (rest: string)
    ensures |rest| <= |s| && rest == s[|s| - |rest|..]
    ensures AllSpace(s[..|s| - |rest|])
    ensures rest == [] || !IsRegExpSpace(rest[0])
    decreases |s|
  {
    if |s| > 0 && IsRegExpSpace(s[0]) then SkipSpace(s[1..]) else s
  }

  /** A run of spaces that is followed by a non-space (or the end) is the one `\s*` takes. */
  lemma {:induction false} SkipSpaceUnique(s: string, n: int)
    requires 0 <= n <= |s| && AllSpace(s[..n])
    requires n == |s| || !IsRegExpSpace(s[n])
    ensures SkipSpace(s) == s[n..]
    decreases n
  {
    if n > 0 {
      assert s[..n][0] == s[0];
      assert s[1..][..n - 1] == s[..n][1..];
      SkipSpaceUnique(s[1..], n - 1);
      assert s[1..][n - 1..] == s[n..];
    }
  }

  // ---- /^\s*$/ --------------------------------------------------------------

  predicate IsBlank(s: string) {
    SkipSpace(s) == []
  }

  lemma BlankIff(s: string)
    ensures IsBlank(s) <==> AllSpace(s)
  {
    assert s[..|s|] == s;
    if AllSpace(s) {
      SkipSpaceUnique(s, |s|);
    }
  }

  // ---- /<\s*script/i --------------------------------------------------------

  /** The tag starts with `<` at `i` and `script` (any case) starts at `j`. */
  ghost predicate ScriptTagAt(s: string, i: int, j: int) {
    && 0 <= i < j && j + 6 <= |s|
    && s[i] == '<'
    && AllSpace(s[i + 1..j])
    && EqualsIgnoreCase(s[j..j + 6], "script")
  }

  predicate ScriptTagStartsAt(s: string, i: nat)
    requires i < |s|
  {
    s[i] == '<' && StartsWithIgnoreCase(SkipSpace(s[i + 1..]), "script")
  }

  /** Tries every start position from `i` on. */
  predicate ScriptTagFrom(s: string, i: nat)
    decreases |s| - i
  {
    i < |s| && (ScriptTagStartsAt(s, i) || ScriptTagFrom(s, i + 1))
  }

  predicate HasScriptTag(s: string) {
    ScriptTagFrom(s, 0)
  }

  lemma ScriptTagFound(s: string, i: nat)
    requires i < |s| && ScriptTagStartsAt(s, i)
    ensures ScriptTagAt(s, i, i + 1 + |s[i + 1..]| - |SkipSpace(s[i + 1..])|)
  {
    var t := s[i + 1..];
    var rest := SkipSpace(t);
    var j := i + 1 + (|t| - |rest|);
    assert s[i + 1..j] == t[..|t| - |rest|];
    assert s[j..j + 6] == rest[..6];
  }

  lemma ScriptTagRecognised(s: string, i: nat, j: int)
    requires i < |s| && ScriptTagAt(s, i, j)
    ensures ScriptTagStartsAt(s, i)
  {
    var t := s[i + 1..];
    var n := j - i - 1;
    assert t[..n] == s[i + 1..j];
    assert s[j..j + 6][0] == s[j];
    assert t[n] == s[j];
    SkipSpaceUnique(t, n);
    assert t[n..][..6] == s[j..j + 6];
  }

  lemma ScriptTagStartsAtIff(s: string, i: nat)
    requires i < |s|
    ensures ScriptTagStartsAt(s, i) <==> exists j :: ScriptTagAt(s, i, j)
  {
    if ScriptTagStartsAt(s, i) {
      ScriptTagFound(s, i);
    }
    if j :| ScriptTagAt(s, i, j) {
      ScriptTagRecognised(s, i, j);
    }
  }

  lemma {:induction false} ScriptTagFromIff(s: string, i: nat)
    ensures ScriptTagFrom(s, i) <==> exists a, j :: i <= a && ScriptTagAt(s, a, j)
    decreases |s| - i
  {
    if i < |s| {
      ScriptTagStartsAtIff(s, i);
      ScriptTagFromIff(s, i + 1);
      if a, j :| i <= a && ScriptTagAt(s, a, j) {
        if a > i {
          assert i + 1 <= a && ScriptTagAt(s, a, j);
        }
      }
    }
  }

  // ---- /^\(\)\s*{/ ----------------------------------------------------------

  /** `()` opens the string and `{` stands at `j`, with only spaces between. */
  ghost predicate FunctionBodyAt(s: string, j: int) {
    && 2 <= j < |s|
    && s[..2] == "()"
    && AllSpace(s[2..j])
    && s[j] == '{'
  }

  predicate LooksLikeFunctionBody(s: string) {
    StartsWith(s, "()") && StartsWith(SkipSpace(s[2..]), "{")
  }

  lemma FunctionBodyIff(s: string)
    ensures LooksLikeFunctionBody(s) <==> exists j :: FunctionBodyAt(s, j)
  {
    if LooksLikeFunctionBody(s) {
      var t := s[2..];
      var rest := SkipSpace(t);
      var j := 2 + (|t| - |rest|);
      assert s[2..j] == t[..|t| - |rest|];
      assert s[j] == rest[0];
      assert FunctionBodyAt(s, j);
    }
    if j :| FunctionBodyAt(s, j) {
      var t := s[2..];
      assert t[..j - 2] == s[2..j];
      assert t[j - 2] == s[j];
      SkipSpaceUnique(t, j - 2);
      assert t[j - 2..][..1] == "{";
    }
  }

  // ---- /\b(sqlmap|nikto|gobuster|dirb|nmap)\b/i -----------------------------

  const ScannerTools: seq<string> := ["sqlmap", "nikto", "gobuster", "dirb", "nmap"]

  predicate IsWordAt(s: string, k: int) {
    0 <= k < |s| && IsWordChar(s[k])
  }

  /** `\b`: word-ness changes between position `k - 1` and position `k`. */
  predicate IsBoundary(s: string, k: int) {
    IsWordAt(s, k - 1) != IsWordAt(s, k)
  }

  /** `\btool\b` matches at `i`, ignoring case. */
  predicate ToolAt(s: string, i: int, tool: string) {
    && 0 <= i && i + |tool| <= |s|
    && EqualsIgnoreCase(s[i..i + |tool|], tool)
    && IsBoundary(s, i)
    && IsBoundary(s, i + |tool|)
  }

  /** The alternatives, tried in order at one position. */
  predicate SomeToolAt(s: string, i: int, tools: seq<string>)
    decreases |tools|
  {
    |tools| > 0 && (ToolAt(s, i, tools[0]) || SomeToolAt(s, i, tools[1..]))
  }

  /** Tries every start position from `i` to the end of the string inclusive. */
  predicate ToolFrom(s: string, i: nat)
    decreases |s| + 1 - i
  {
    i <= |s| && (SomeToolAt(s, i, ScannerTools) || ToolFrom(s, i + 1))
  }

  predicate HasScannerTool(s: string) {
    ToolFrom(s, 0)
  }

  lemma {:induction false} SomeToolAtIff(s: string, i: int, tools: seq<string>)
    ensures SomeToolAt(s, i, tools) <==> exists n :: 0 <= n < |tools| && ToolAt(s, i, tools[n])
    decreases |tools|
  {
    if |tools| > 0 {
      SomeToolAtIff(s, i, tools[1..]);
      if n :| 0 <= n < |tools| && ToolAt(s, i, tools[n]) {
        if n > 0 {
          assert tools[1..][n - 1] == tools[n];
        }
      }
      if n :| 0 <= n < |tools| - 1 && ToolAt(s, i, tools[1..][n]) {
        assert tools[n + 1] == tools[1..][n];
      }
    }
  }

  lemma {:induction false} ToolFromIff(s: string, i: nat)
    ensures ToolFrom(s, i) <==>
      exists a, n :: i <= a && 0 <= n < |ScannerTools| && ToolAt(s, a, ScannerTools[n])
    decreases |s| + 1 - i
  {
    if i <= |s| {
      SomeToolAtIff(s, i, ScannerTools);
      ToolFromIff(s, i + 1);
      if a, n :| i <= a && 0 <= n < |ScannerTools| && ToolAt(s, a, ScannerTools[n]) {
        if a > i {
          assert i + 1 <= a;
        }
      }
    } else {
      assert forall a, n :: i <= a && 0 <= n < |ScannerTools| ==> !ToolAt(s, a, ScannerTools[n]);
    }
  }

  /**
   * For a user agent made of word characters only, `\b` holds just at its two
   * ends, so the pattern flags it exactly when it is a tool name as a whole.
   */
  lemma SingleWordNamesTool(s: string)
    requires forall k :: 0 <= k < |s| ==> IsWordChar(s[k])
    ensures NamesScannerTool(s) <==>
      exists n :: 0 <= n < |ScannerTools| && EqualsIgnoreCase(s, ScannerTools[n])
  {
    if i, n :| 0 <= n < |ScannerTools| && ToolAt(s, i, ScannerTools[n]) {
      var tool := ScannerTools[n];
      assert |tool| >= 4;
      assert IsWordAt(s, i) && !IsWordAt(s, i - 1);
      assert IsWordAt(s, i + |tool| - 1) && !IsWordAt(s, i + |tool|);
      assert i == 0 && |tool| == |s|;
      assert s[i..i + |tool|] == s;
    }
    if n :| 0 <= n < |ScannerTools| && EqualsIgnoreCase(s, ScannerTools[n]) {
      assert |ScannerTools[n]| >= 4;
      assert s[0..|s|] == s;
      assert ToolAt(s, 0, ScannerTools[n]);
    }
  }

  /** `dirbuster` contains `dirb` but not as a whole word. */
  lemma DirbusterNamesNoTool()
    ensures !NamesScannerTool("dirbuster")
  {
    SingleWordNamesTool("dirbuster");
  }

  // ---- the pattern list and `.some` ----------------------------------------

  datatype UaPattern = BlankAgent | PathTraversal | ScriptTag | FunctionBody | ScannerTool

  /** `SUSPICIOUS_UA_PATTERNS`, in source order. */
  const SuspiciousUaPatterns: seq<UaPattern> :=
    [BlankAgent, PathTraversal, ScriptTag, FunctionBody, ScannerTool]

  /** `pattern.test(userAgent)`. */
  predicate Test(p: UaPattern, ua: string) {
    match p
    case BlankAgent => IsBlank(ua)
    case PathTraversal => Includes(ua, "..")
    case ScriptTag => HasScriptTag(ua)
    case FunctionBody => LooksLikeFunctionBody(ua)
    case ScannerTool => HasScannerTool(ua)
  }

  /** `SUSPICIOUS_UA_PATTERNS.some(pattern => pattern.test(userAgent))`. */
  predicate IsSuspicious(ua: string) {
    exists k :: 0 <= k < |SuspiciousUaPatterns| && Test(SuspiciousUaPatterns[k], ua)
  }

  ghost predicate HasDotDot(ua: string) {
    exists i :: OccursAt(ua, "..", i)
  }

  ghost predicate ScriptTagSomewhere(ua: string) {
    exists i, j :: ScriptTagAt(ua, i, j)
  }

  ghost predicate OpensFunctionBody(ua: string) {
    exists j :: FunctionBodyAt(ua, j)
  }

  ghost predicate NamesScannerTool(ua: string) {
    exists i, n :: 0 <= n < |ScannerTools| && ToolAt(ua, i, ScannerTools[n])
  }

  /** What the five regular expressions mean, stated without scanning. */
  ghost predicate MatchesSomePattern(ua: string) {
    AllSpace(ua) || HasDotDot(ua) || ScriptTagSomewhere(ua) || OpensFunctionBody(ua) || NamesScannerTool(ua)
  }

  /** `.some` over the five patterns is their disjunction. */
  lemma SomePatternIff(ua: string)
    ensures IsSuspicious(ua) <==>
      IsBlank(ua) || Includes(ua, "..") || HasScriptTag(ua) || LooksLikeFunctionBody(ua) || HasScannerTool(ua)
  {
    assert SuspiciousUaPatterns[0] == BlankAgent;
    assert SuspiciousUaPatterns[1] == PathTraversal;
    assert SuspiciousUaPatterns[2] == ScriptTag;
    assert SuspiciousUaPatterns[3] == FunctionBody;
    assert SuspiciousUaPatterns[4] == ScannerTool;
  }

  lemma SuspiciousIff(ua: string)
    ensures IsSuspicious(ua) <==> MatchesSomePattern(ua)
  {
    SomePatternIff(ua);
    assert IsBlank(ua) <==> AllSpace(ua) by {
      BlankIff(ua);
    }
    assert Includes(ua, "..") <==> HasDotDot(ua) by {
      IncludesIff(ua, "..");
    }
    assert HasScriptTag(ua) <==> ScriptTagSomewhere(ua) by {
      ScriptTagFromIff(ua, 0);
    }
    assert LooksLikeFunctionBody(ua) <==> OpensFunctionBody(ua) by {
      FunctionBodyIff(ua);
    }
    assert HasScannerTool(ua) <==> NamesScannerTool(ua) by {
      ToolFromIff(ua, 0);
    }
  }
}
