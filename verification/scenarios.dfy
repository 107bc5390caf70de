/**
 * Whole flows driven through a fresh `TwitterAuthentication`, the way the
 * host application and the platform call it. Each method states what the
 * completion handlers receive over the whole flow.
 */
module Scenarios {
  import opened Wrappers
  import opened Foundation
  import opened AuthResult
  import opened SsoCallback
  import opened SourceApp
  import opened TwitterAuth

  const Scheme: string := "myapp"

  /** An object configured with callback scheme `myapp`, SSO allowed. */
  method NewAuthentication() returns (auth: TwitterAuthentication)
    ensures fresh(auth) && auth.Valid()
    ensures auth.callbackUrl == Url(Some(Scheme), None) && !auth.useSafariView
    ensures auth.state == Initial && auth.completionHandler == None && auth.delivered == []
    ensures auth.authenticationSessionObject == None && auth.oauth == None
  {
    auth := new TwitterAuthentication("consumer-key", "consumer-secret", Url(Some(Scheme), None), false);
  }

  /**
   * SSO path: after an accepted handoff, a redirect from an accepted source
   * ends the flow with exactly the parsed result; the same redirect again is
   * rejected and delivers nothing more.
   */
  method SsoRedirectDeliversOnce(handler: HandlerId, items: seq<QueryItem>, sourceApp: Option<string>)
    returns (handled: bool, handledAgain: bool, results: seq<Delivery>)
    requires IsAcceptableSourceApp(sourceApp)
    ensures handled && !handledAgain
    ensures results == [Delivery(handler, SsoResult(Some(items)))]
  {
    var auth := NewAuthentication();
    var request := auth.Authenticate(handler, true);
    auth.HandoffOpened(true);
    var url := Url(Some(Scheme), Some(items));
    handled := auth.HandleOpen(url, sourceApp);
    handledAgain := auth.HandleOpen(url, sourceApp);
    results := auth.delivered;
  }

  /** `myapp://token=abc&secret=def&username=alice` from the Twitter app gives the three values. */
  method SsoSuccessExample() returns (handled: bool, results: seq<Delivery>)
    ensures handled
    ensures results == [Delivery(1, Success("abc", "def", "alice"))]
  {
    var auth := NewAuthentication();
    var request := auth.Authenticate(1, true);
    auth.HandoffOpened(true);
    var items := [QueryItem("token", Some("abc")), QueryItem("secret", Some("def")), QueryItem("username", Some("alice"))];
    handled := auth.HandleOpen(Url(Some(Scheme), Some(items)), Some("com.twitter.android"));
    results := auth.delivered;
  }

  /** A payload without `secret` fails without an error. */
  method SsoMissingSecretExample() returns (handled: bool, results: seq<Delivery>)
    ensures handled
    ensures results == [Delivery(1, Failed(None))]
  {
    var auth := NewAuthentication();
    var request := auth.Authenticate(1, true);
    auth.HandoffOpened(true);
    var items := [QueryItem("token", Some("abc")), QueryItem("username", Some("alice"))];
    handled := auth.HandleOpen(Url(Some(Scheme), Some(items)), Some("com.twitter.android"));
    results := auth.delivered;
  }

  /** A later `token` overrides an earlier one, and a `token` without a value is skipped. */
  method SsoLastWriteWinsExample() returns (results: seq<Delivery>)
    ensures results == [Delivery(1, Success("second", "def", "alice"))]
  {
    var auth := NewAuthentication();
    var request := auth.Authenticate(1, true);
    auth.HandoffOpened(true);
    var items := [QueryItem("token", Some("first")), QueryItem("secret", Some("def")),
                  QueryItem("token", Some("second")), QueryItem("username", Some("alice")),
                  QueryItem("token", None)];
    var handled := auth.HandleOpen(Url(Some(Scheme), Some(items)), Some("com.atebits.Tweetie2"));
    results := auth.delivered;
  }

  /** A redirect with the right scheme from an unknown application is not taken. */
  method RejectedSourceExample() returns (handled: bool, results: seq<Delivery>)
    ensures !handled
    ensures results == []
  {
    var auth := NewAuthentication();
    var request := auth.Authenticate(1, true);
    auth.HandoffOpened(true);
    var items := [QueryItem("token", Some("abc")), QueryItem("secret", Some("def")), QueryItem("username", Some("alice"))];
    var source := "com.evil.app";
    assert source[..11][4] != "com.twitter"[4] && source[..11][4] != "com.atebits"[4];
    handled := auth.HandleOpen(Url(Some(Scheme), Some(items)), Some(source));
    results := auth.delivered;
  }

  /**
   * Coming back to the foreground during the SSO handoff cancels the flow
   * once; a redirect arriving afterwards is rejected whatever it carries.
   */
  method ForegroundCancelsSso(handler: HandlerId, url: Url, sourceApp: Option<string>)
    returns (handled: bool, results: seq<Delivery>)
    ensures !handled
    ensures results == [Delivery(handler, Cancelled)]
  {
    var auth := NewAuthentication();
    var request := auth.Authenticate(handler, true);
    auth.HandoffOpened(true);
    auth.WillEnterForeground();
    handled := auth.HandleOpen(url, sourceApp);
    auth.WillEnterForeground();
    results := auth.delivered;
  }

  /**
   * Handoff declined, authorize page shown in a Safari view controller, the
   * user closes it: one cancellation, and a second dismissal does nothing.
   */
  method BrowserDismissExample(handler: HandlerId) returns (results: seq<Delivery>, oauthLive: bool)
    ensures results == [Delivery(handler, Cancelled)]
    ensures !oauthLive
  {
    var auth := NewAuthentication();
    var request := auth.Authenticate(handler, true);
    auth.HandoffOpened(false);
    auth.HandleAuthorizeUrl(SafariView, true);
    auth.SafariDidFinish();
    auth.SafariDidFinish();
    results := auth.delivered;
    oauthLive := auth.oauth.Some?;
  }

  /** A session that cannot be started fails the flow without an error; it is never a cancellation. */
  method SessionStartFailure(handler: HandlerId, presenter: Presenter) returns (results: seq<Delivery>)
    ensures results == [Delivery(handler, Failed(None))]
  {
    var auth := NewAuthentication();
    var request := auth.Authenticate(handler, false);
    auth.HandleAuthorizeUrl(presenter, false);
    results := auth.delivered;
  }

  /** An authentication session reporting `canceledLogin` cancels the flow; another error fails it. */
  method SessionErrorEndsFlow(handler: HandlerId, error: Error) returns (results: seq<Delivery>)
    ensures results == [Delivery(handler, if error == CanceledLogin then Cancelled else Failed(Some(error)))]
  {
    var auth := NewAuthentication();
    var request := auth.Authenticate(handler, false);
    auth.HandleAuthorizeUrl(AuthenticationSession, true);
    auth.SessionCompleted(None, Some(error));
    results := auth.delivered;
  }

  /**
   * Browser path to the end: the session reports the redirect, it goes to
   * the token exchange, and the exchange's success ends the flow with the
   * access token, its secret and the screen name (`""` without one).
   */
  method BrowserSuccess(handler: HandlerId, items: seq<QueryItem>, token: string, secret: string,
                        parameters: map<string, ParamValue>)
    returns (results: seq<Delivery>, stateAfter: AuthorizationState)
    ensures results == [Delivery(handler, Success(token, secret, ScreenName(parameters)))]
    ensures "screen_name" !in parameters ==> results[0].result.screenName == ""
    ensures stateAfter == Initial
  {
    var auth := NewAuthentication();
    var request := auth.Authenticate(handler, false);
    auth.HandleAuthorizeUrl(AuthenticationSession, true);
    auth.SessionCompleted(Some(Url(Some(Scheme), Some(items))), None);
    assert auth.delivered == [] && auth.state == RequestingToken;
    auth.OAuthSucceeded(token, secret, parameters);
    results := auth.delivered;
    stateAfter := auth.state;
  }

  /**
   * A second `authenticate` while the handoff is pending is not rejected: it
   * replaces the handler, and only the second handler hears the result.
   */
  method SecondAuthenticateReplacesHandler(first: HandlerId, second: HandlerId) returns (results: seq<Delivery>)
    ensures results == [Delivery(second, Cancelled)]
  {
    var auth := NewAuthentication();
    var request := auth.Authenticate(first, true);
    auth.HandoffOpened(true);
    request := auth.Authenticate(second, true);
    auth.WillEnterForeground();
    results := auth.delivered;
  }

  /**
   * `cleanup` empties the session slot without cancelling the session, so a
   * completion URL can still arrive later. Here a browser flow shows its
   * session, a second `authenticate` takes the SSO path and is cancelled by
   * the foreground event, and then the old session reports its URL in state
   * `initial`: it is routed without a state check and delivers `failed(nil)`
   * a second time, to the second handler.
   */
  method StrayCompletionFails(first: HandlerId, second: HandlerId, url: Url) returns (results: seq<Delivery>)
    ensures results == [Delivery(second, Cancelled), Delivery(second, Failed(None))]
  {
    var auth := NewAuthentication();
    var request := auth.Authenticate(first, false);
    auth.HandleAuthorizeUrl(AuthenticationSession, true);
    request := auth.Authenticate(second, true);
    auth.HandoffOpened(true);
    auth.WillEnterForeground();
    auth.SessionCompleted(Some(url), None);
    results := auth.delivered;
  }
}
