/**
 * The host blocklist middleware (src/middlewares/black_list.py). At
 * construction every pattern is checked: `*` may appear only as a lone `*`
 * or as the leading `*` of `*.suffix`. Per HTTP or WebSocket request the
 * Host header up to its first `:` is compared with every pattern; a match
 * answers 400 and the wrapped application is never called.
 */
module BlackList {
  import opened Wrappers
  import opened Strings

  const ENFORCE_DOMAIN_WILDCARD := "Domain wildcard patterns must be like '*.example.com'."
  const BLOCKED_STATUS := 400
  const BLOCKED_ERROR := "Host in black list"
  /** The patterns used when none are given: block every host. */
  const DEFAULT_BLOCKED_HOSTS: seq<string> := ["*"]

  /** What the middleware does with one ASGI call. */
  datatype Decision =
    | Forward                              // the wrapped app gets the call unchanged
    | Reject(status: nat, error: string)   // a JSON error response is sent instead

  /** The two construction-time checks on one pattern. */
  predicate ValidPattern(p: string) {
    && (|p| == 0 || '*' !in p[1..])
    && (StartsWith(p, "*") && p != "*" ==> StartsWith(p, "*."))
  }

  predicate AllValid(patterns: seq<string>) {
    forall k :: 0 <= k < |patterns| ==> ValidPattern(patterns[k])
  }

  /** A valid pattern has no `*`, is exactly `*`, or is `*.` followed by a `*`-free suffix. */
  lemma ValidPatternShape(p: string)
    ensures ValidPattern(p) <==>
      ('*' !in p || p == "*" || (StartsWith(p, "*.") && '*' !in p[2..]))
  {
    if |p| >= 2 {
      assert p == [p[0]] + p[1..];
      assert p[1..] == [p[1]] + p[2..];
    } else if |p| == 1 {
      assert p == [p[0]];
    }
  }

  /** The patterns in force: the given ones, or `['*']` when the argument is missing. */
  function PatternsOrDefault(blockedHosts: Option<seq<string>>): seq<string> {
    blockedHosts.GetOr(DEFAULT_BLOCKED_HOSTS)
  }

  /** `s.split(':')[0]`: the text before the first `:`, or all of `s`. */
  function BeforeColon(s: string): (r: string)
    ensures |r| <= |s| && r == s[..|r|]
    ensures ':' !in r
    ensures |r| < |s| ==> s[|r|] == ':'
  {
    if s == [] || s[0] == ':' then [] else [s[0]] + BeforeColon(s[1..])
  }

  /** The host a request declares: its Host header without the port, or `""` without one. */
  function HostOf(hostHeader: Option<string>): string {
    BeforeColon(hostHeader.GetOr(""))
  }

  /** One pattern blocks `host`: equal to it, or `*`-led with the rest a suffix of it. */
  predicate Matches(host: string, pattern: string) {
    host == pattern || (StartsWith(pattern, "*") && EndsWith(host, pattern[1..]))
  }

  predicate IsBlocked(host: string, patterns: seq<string>) {
    exists k :: 0 <= k < |patterns| && Matches(host, patterns[k])
  }

  /** Scopes the middleware inspects; every other scope type passes through. */
  predicate IsInspected(scopeType: string) {
    scopeType == "http" || scopeType == "websocket"
  }

  /** The construction-time validation loop: true iff every pattern passes both checks. */
  method CheckPatterns(patterns: seq<string>) returns (ok: bool)
    ensures ok <==> AllValid(patterns)
  {
    for i := 0 to |patterns|
      invariant forall k :: 0 <= k < i ==> ValidPattern(patterns[k])
    {
      var pattern := patterns[i];
      if |pattern| > 0 && '*' in pattern[1..] {
        return false;
      }
      if StartsWith(pattern, "*") && pattern != "*" {
        if !StartsWith(pattern, "*.") {
          return false;
        }
      }
    }
    return true;
  }

  class BlackListHostMiddleware {
    /** The patterns, in the order given. */
    const blockedHosts: seq<string>
    /** Whether the lone `*` is among the patterns. */
    const blockAny: bool

    ghost predicate Valid() {
      AllValid(blockedHosts) && (blockAny <==> "*" in blockedHosts)
    }

    /** The field assignments of `__init__`, once the patterns have passed validation. */
    constructor (patterns: seq<string>)
      requires AllValid(patterns)
      ensures Valid()
      ensures blockedHosts == patterns && (blockAny <==> "*" in patterns)
    {
      blockedHosts := patterns;
      blockAny := "*" in patterns;
    }

    /**
     * `__call__`: only HTTP and WebSocket scopes are inspected; the host is
     * rejected with 400 iff some pattern matches it, and forwarded otherwise.
     */
    method Call(scopeType: string, hostHeader: Option<string>) returns (d: Decision)
      ensures d.Reject? <==> IsInspected(scopeType) && IsBlocked(HostOf(hostHeader), blockedHosts)
      ensures d.Reject? ==> d == Reject(BLOCKED_STATUS, BLOCKED_ERROR)
    {
      if !IsInspected(scopeType) {
        return Forward;
      }
      var host := HostOf(hostHeader);
      var isValidHost := true;
      var i := 0;
      while i < |blockedHosts|
        invariant 0 <= i <= |blockedHosts|
        invariant isValidHost
        invariant forall k :: 0 <= k < i ==> !Matches(host, blockedHosts[k])
      {
        var pattern := blockedHosts[i];
        if host == pattern || (StartsWith(pattern, "*") && EndsWith(host, pattern[1..])) {
          isValidHost := false;
          break;
        }
        i := i + 1;
      }
      if isValidHost {
        d := Forward;
      } else {
        d := Reject(BLOCKED_STATUS, BLOCKED_ERROR);
      }
    }
  }

  /**
   * `BlackListHostMiddleware(app, blocked_hosts)`: a missing argument means
   * `['*']`; any invalid pattern fails construction with the wildcard message.
   */
  method NewMiddleware(blockedHosts: Option<seq<string>>) returns (r: Result<BlackListHostMiddleware>)
    ensures r.Failure? <==> !AllValid(PatternsOrDefault(blockedHosts))
    ensures r.Failure? ==> r.error == ENFORCE_DOMAIN_WILDCARD
    ensures r.Success? ==> fresh(r.value) && r.value.Valid()
    ensures r.Success? ==> r.value.blockedHosts == PatternsOrDefault(blockedHosts)
    ensures r.Success? ==> (r.value.blockAny <==> "*" in PatternsOrDefault(blockedHosts))
  {
    var patterns := PatternsOrDefault(blockedHosts);
    var ok := CheckPatterns(patterns);
    if !ok {
      return Failure(ENFORCE_DOMAIN_WILDCARD);
    }
    var m := new BlackListHostMiddleware(patterns);
    return Success(m);
  }

  /** The lone `*` blocks every host, the empty one included. */
  lemma StarBlocksEveryHost(host: string, patterns: seq<string>)
    requires "*" in patterns
    ensures IsBlocked(host, patterns)
  {
    var k :| 0 <= k < |patterns| && patterns[k] == "*";
    assert patterns[k][1..] == "";
    assert host[|host|..] == "";
    assert Matches(host, patterns[k]);
  }

  /** Without `blocked_hosts` every inspected request is rejected. */
  lemma DefaultBlocksEveryHost(host: string)
    ensures AllValid(DEFAULT_BLOCKED_HOSTS)
    ensures IsBlocked(host, PatternsOrDefault(None))
  {
    assert DEFAULT_BLOCKED_HOSTS[0] == "*";
    StarBlocksEveryHost(host, DEFAULT_BLOCKED_HOSTS);
  }

  /** A middleware with `block_any` set rejects every inspected request. */
  lemma BlockAnyBlocksEveryHost(m: BlackListHostMiddleware, host: string)
    requires m.Valid() && m.blockAny
    ensures IsBlocked(host, m.blockedHosts)
  {
    StarBlocksEveryHost(host, m.blockedHosts);
  }

  /**
   * `*.suffix` blocks every host that ends with `.suffix`, but not the bare
   * `suffix` itself.
   */
  lemma WildcardBlocksSubdomainsOnly(sub: string, suffix: string)
    ensures ValidPattern("*." + suffix) <==> '*' !in suffix
    ensures Matches(sub + "." + suffix, "*." + suffix)
    ensures !Matches(suffix, "*." + suffix)
  {
    var p := "*." + suffix;
    var host := sub + "." + suffix;
    assert p[1..] == "." + suffix;
    assert p[2..] == suffix;
    assert host[|host| - |p[1..]|..] == "." + suffix;
    ValidPatternShape(p);
    assert StartsWith(p, "*.");
    if '*' in suffix {
      var i :| 0 <= i < |suffix| && suffix[i] == '*';
      assert p[1..][i + 1] == '*';
    }
  }

  /** The split stops at the first `:` after a colon-free prefix, or at the end. */
  lemma {:induction false} BeforeColonStops(host: string, rest: string)
    requires ':' !in host
    requires rest == [] || rest[0] == ':'
    ensures BeforeColon(host + rest) == host
    decreases |host|
  {
    if host != [] {
      assert (host + rest)[1..] == host[1..] + rest;
      BeforeColonStops(host[1..], rest);
    } else {
      assert host + rest == rest;
    }
  }

  /** The port in the Host header is ignored; a missing header checks the empty host. */
  lemma HostOfIgnoresPort(host: string, port: string)
    requires ':' !in host
    ensures HostOf(Some(host + ":" + port)) == host
    ensures HostOf(Some(host)) == host
    ensures HostOf(None) == ""
  {
    assert host + ":" + port == host + (":" + port);
    BeforeColonStops(host, ":" + port);
    BeforeColonStops(host, []);
    assert host + [] == host;
  }
}
