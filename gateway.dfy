/**
 * The HTTP gateway's incoming-header matcher: which HTTP headers are passed
 * on to the backend as gRPC metadata, and under which key.
 */
module Gateway {

  /** The authentication headers set by the proxy in front of the gateway, matched exactly. */
  const AuthHeaders: set<string> := {"X-Auth-Request-User", "X-Auth-Request-Email", "X-Auth-Request-Groups"}

  /**
   * The W3C Trace Context headers (sections 3.2 and 3.3 of W3C Trace
   * Context Level 1), matched in any letter case.
   */
  const TraceHeaders: set<string> := {"traceparent", "tracestate"}

  function LowerChar(c: char): (d: char)
    ensures 'A' <= c <= 'Z' ==> d as int == c as int + 32
    ensures !('A' <= c <= 'Z') ==> d == c
  {
    if 'A' <= c <= 'Z' then (c as int + 32) as char else c
  }

  function UpperChar(c: char): (d: char)
    ensures 'a' <= c <= 'z' ==> d as int == c as int - 32
    ensures !('a' <= c <= 'z') ==> d == c
  {
    if 'a' <= c <= 'z' then (c as int - 32) as char else c
  }

  /** `strings.ToLower` on the letters A to Z; other characters are kept. */
  function ToLower(s: string): (r: string)
    ensures |r| == |s| && forall i :: 0 <= i < |s| ==> r[i] == LowerChar(s[i])
  {
    seq(|s|, i requires 0 <= i < |s| => LowerChar(s[i]))
  }

  /** The headers the matcher names itself rather than leaving to the default matcher. */
  predicate MatchedExplicitly(key: string)
  {
    key in AuthHeaders || ToLower(key) in TraceHeaders
  }

  /**
   * `CustomMatcher`: the metadata key a header is forwarded under and whether
   * it is forwarded; `defaultMatcher` stands for `runtime.DefaultHeaderMatcher`.
   */
  function CustomMatcher(key: string, defaultMatcher: string -> (string, bool)): (r: (string, bool))
    ensures MatchedExplicitly(key) ==> r == (key, true)
    ensures !MatchedExplicitly(key) ==> r == defaultMatcher(key)
  {
    if key == "X-Auth-Request-User" then (key, true)
    else if key == "X-Auth-Request-Email" then (key, true)
    else if key == "X-Auth-Request-Groups" then (key, true)
    else
      var lower := ToLower(key);
      if lower == "traceparent" || lower == "tracestate" then (key, true)
      else defaultMatcher(key)
  }

  /** `key` is `name` written with some of its lower-case letters in upper case. */
  predicate SomeCasingOf(key: string, name: string)
  {
    |key| == |name| && forall i :: 0 <= i < |key| ==> key[i] == name[i] || key[i] == UpperChar(name[i])
  }

  /** Every casing of a trace-context header name is forwarded under the key as received. */
  lemma TraceHeadersAnyCase(key: string, name: string, defaultMatcher: string -> (string, bool))
    requires name in TraceHeaders && SomeCasingOf(key, name)
    ensures CustomMatcher(key, defaultMatcher) == (key, true)
  {
    assert forall i :: 0 <= i < |name| ==> 'a' <= name[i] <= 'z';
    assert ToLower(key) == name;
  }

  /**
   * The authentication headers are compared case-sensitively: a different
   * casing of one of them is left to the default matcher.
   */
  lemma AuthHeadersExactCase(key: string, defaultMatcher: string -> (string, bool))
    requires key !in AuthHeaders
    requires exists name :: name in AuthHeaders && ToLower(key) == ToLower(name)
    ensures CustomMatcher(key, defaultMatcher) == defaultMatcher(key)
  {
    var name :| name in AuthHeaders && ToLower(key) == ToLower(name);
    assert |ToLower(name)| >= 18;
    assert ToLower(key) !in TraceHeaders;
  }
}
