/**
 * The URL `openSSO` asks the system to open to hand authentication over to
 * the Twitter app: the `twitterauth` scheme carrying the consumer key, the
 * consumer secret and the app's own callback scheme as query parameters.
 */
module SsoHandoff {
  import opened Wrappers

  const HandoffPrefix: string := "twitterauth://authorize?consumer_key="
  const SecretSeparator: string := "&consumer_secret="
  const CallbackSeparator: string := "&oauth_callback="

  /** The handoff string; a callback URL without a scheme contributes `""`. */
  function HandoffUrl(consumerKey: string, consumerSecret: string, callbackScheme: Option<string>): (url: string)
    ensures |HandoffPrefix| + |consumerKey| <= |url| && url[..|HandoffPrefix| + |consumerKey|] == HandoffPrefix + consumerKey
    ensures |CallbackSeparator + callbackScheme.GetOr("")| <= |url|
    ensures url[|url| - |CallbackSeparator + callbackScheme.GetOr("")|..] == CallbackSeparator + callbackScheme.GetOr("")
  {
    HandoffPrefix + (consumerKey + (SecretSeparator + (consumerSecret + (CallbackSeparator + callbackScheme.GetOr("")))))
  }

  /** Two words with no `&` followed by two tails starting with `&` split the same way. */
  lemma SplitAtAmpersand(x1: string, r1: string, x2: string, r2: string)
    requires '&' !in x1 && '&' !in x2
    requires |r1| > 0 && r1[0] == '&' && |r2| > 0 && r2[0] == '&'
    requires x1 + r1 == x2 + r2
    ensures x1 == x2 && r1 == r2
  {
    assert (x1 + r1)[|x1|] == '&' && (x2 + r2)[|x2|] == '&';
    forall k | 0 <= k < |x1| ensures (x2 + r2)[k] != '&' {
      assert (x1 + r1)[k] == x1[k];
    }
    forall k | 0 <= k < |x2| ensures (x1 + r1)[k] != '&' {
      assert (x2 + r2)[k] == x2[k];
    }
    assert x1 == (x1 + r1)[..|x1|];
    assert x2 == (x2 + r2)[..|x2|];
    assert r1 == (x1 + r1)[|x1|..];
    assert r2 == (x2 + r2)[|x2|..];
  }

  /**
   * When neither the key nor the secret contains `&`, the handoff URL
   * determines all three parameters: the receiving app can read back exactly
   * the key, the secret and the callback scheme that were sent.
   */
  lemma {:induction false} HandoffUrlDeterminesParameters(
    key1: string, secret1: string, scheme1: Option<string>,
    key2: string, secret2: string, scheme2: Option<string>)
    requires '&' !in key1 && '&' !in key2 && '&' !in secret1 && '&' !in secret2
    requires HandoffUrl(key1, secret1, scheme1) == HandoffUrl(key2, secret2, scheme2)
    ensures key1 == key2 && secret1 == secret2 && scheme1.GetOr("") == scheme2.GetOr("")
  {
    var c1, c2 := scheme1.GetOr(""), scheme2.GetOr("");
    var tail1 := key1 + (SecretSeparator + (secret1 + (CallbackSeparator + c1)));
    var tail2 := key2 + (SecretSeparator + (secret2 + (CallbackSeparator + c2)));
    assert tail1 == (HandoffPrefix + tail1)[|HandoffPrefix|..];
    assert tail2 == (HandoffPrefix + tail2)[|HandoffPrefix|..];
    SplitAtAmpersand(key1, SecretSeparator + (secret1 + (CallbackSeparator + c1)),
                     key2, SecretSeparator + (secret2 + (CallbackSeparator + c2)));
    var rest1, rest2 := secret1 + (CallbackSeparator + c1), secret2 + (CallbackSeparator + c2);
    assert rest1 == (SecretSeparator + rest1)[|SecretSeparator|..];
    assert rest2 == (SecretSeparator + rest2)[|SecretSeparator|..];
    SplitAtAmpersand(secret1, CallbackSeparator + c1, secret2, CallbackSeparator + c2);
    assert c1 == (CallbackSeparator + c1)[|CallbackSeparator|..];
    assert c2 == (CallbackSeparator + c2)[|CallbackSeparator|..];
  }
}
