/**
 * `validateAcceptableSourceApp`: which applications may hand a callback URL
 * back to the flow. The bundle identifier reported for the opening
 * application must start with one of the Twitter apps' prefixes or with the
 * identifier of the Safari view service.
 */
module SourceApp {
  import opened Wrappers

  /** The accepted bundle-identifier prefixes, in the order the source tests them. */
  const TrustedPrefixes: seq<string> := ["com.twitter", "com.atebits", "com.apple.SafariViewService"]

  /** `String.hasPrefix`, on characters. */
  predicate HasPrefix(s: string, prefix: string)
  {
    |prefix| <= |s| && s[..|prefix|] == prefix
  }

  /** Character-wise reading of "s starts with p", the reference for `HasPrefix`. */
  ghost predicate StartsWith(s: string, p: string)
  {
    |p| <= |s| && forall k :: 0 <= k < |p| ==> s[k] == p[k]
  }

  /**
   * The source application is accepted exactly when one is reported and it
   * starts with one of the trusted prefixes; a missing (or non-string) source
   * is rejected.
   */
  function IsAcceptableSourceApp(source: Option<string>): (ok: bool)
    ensures ok <==> source.Some? && exists i :: 0 <= i < |TrustedPrefixes| && StartsWith(source.value, TrustedPrefixes[i])
  {
    match source
    case None => false
    case Some(s) =>
      HasPrefixIsStartsWith(s, TrustedPrefixes[0]);
      HasPrefixIsStartsWith(s, TrustedPrefixes[1]);
      HasPrefixIsStartsWith(s, TrustedPrefixes[2]);
      HasPrefix(s, "com.twitter") || HasPrefix(s, "com.atebits")
        || HasPrefix(s, "com.apple.SafariViewService")
  }

  lemma HasPrefixIsStartsWith(s: string, p: string)
    ensures HasPrefix(s, p) <==> StartsWith(s, p)
  {
    if StartsWith(s, p) {
      assert s[..|p|] == p;
    }
  }

  /**
   * Acceptance depends only on a prefix: any identifier that extends an
   * accepted one is accepted too (`com.twitter` accepts `com.twitter.ios`).
   */
  lemma {:induction false} AcceptedSourceExtends(s: string, suffix: string)
    requires IsAcceptableSourceApp(Some(s))
    ensures IsAcceptableSourceApp(Some(s + suffix))
  {
    var i :| 0 <= i < |TrustedPrefixes| && StartsWith(s, TrustedPrefixes[i]);
    assert StartsWith(s + suffix, TrustedPrefixes[i]) by {
      forall k | 0 <= k < |TrustedPrefixes[i]| ensures (s + suffix)[k] == TrustedPrefixes[i][k] {
        assert (s + suffix)[k] == s[k];
      }
    }
  }

  /** An identifier shorter than every trusted prefix, or none at all, is never accepted. */
  lemma ShortSourceRejected(source: Option<string>)
    requires source.None? || |source.value| < |"com.twitter"|
    ensures !IsAcceptableSourceApp(source)
  {
  }
}
