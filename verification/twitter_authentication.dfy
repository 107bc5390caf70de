/**
 * The `TwitterAuthentication` orchestrator: an event-driven state machine that
 * first tries to hand authentication over to the Twitter app (SSO) and falls
 * back to a browser-hosted OAuth1 flow. Every event of the flow (a call by the
 * app, the result of opening the handoff URL, a redirect, a web-session
 * completion, an OAuth1 outcome, a foreground notification, a Safari
 * dismissal) is a method that updates the four fields the source updates:
 * `completionHandler`, `state`, `authenticationSessionObject` and `oauth`.
 */
module TwitterAuth {
  import opened Wrappers
  import opened Foundation
  import opened AuthResult
  import opened SsoCallback
  import opened SourceApp
  import opened SsoHandoff

  /** `AuthorizationState`. */
  datatype AuthorizationState = Initial | Sso | Browser | RequestingToken

  /** `AuthorizeResult`: the outcome of one asynchronous leg, fed to `callbacked`. */
  datatype AuthorizeResult =
    | AuthorizeSuccess(url: Url)
    | AuthorizeFailed(error: Error)
    | AuthorizeCancelled(cause: Option<Error>)

  /**
   * What `authenticationSessionObject` can hold: an ASWebAuthenticationSession
   * or SFAuthenticationSession, or an SFSafariViewController (only the latter
   * is dismissed by `cleanupVisibleControllers`).
   */
  datatype Presenter = AuthenticationSession | SafariView

  /** The configuration an `OAuth1Swift` client is created with. */
  datatype OAuthClient = OAuthClient(
    consumerKey: string,
    consumerSecret: string,
    requestTokenUrl: string,
    authorizeUrl: string,
    accessTokenUrl: string)

  const RequestTokenUrl: string := "https://api.twitter.com/oauth/request_token"
  const AuthorizeUrl: string := "https://api.twitter.com/oauth/authorize"
  const AccessTokenUrl: string := "https://api.twitter.com/oauth/access_token"

  /** The client `openBrowser` creates: the consumer credentials and Twitter's three endpoints. */
  function TwitterClient(consumerKey: string, consumerSecret: string): OAuthClient
  {
    OAuthClient(consumerKey, consumerSecret, RequestTokenUrl, AuthorizeUrl, AccessTokenUrl)
  }

  /** A completion handler, identified by the `authenticate` call that stored it. */
  type HandlerId = nat

  /** One call of a completion handler. */
  datatype Delivery = Delivery(handler: HandlerId, result: Result)

  /** The calls made when `result` is delivered to the stored handler, if there is one. */
  function Deliver(handler: Option<HandlerId>, result: Option<Result>): seq<Delivery>
  {
    if handler.Some? && result.Some? then [Delivery(handler.value, result.value)] else []
  }

  /** The clients `cleanup` cancels: the live one, if any. */
  function Released(client: Option<OAuthClient>): seq<OAuthClient>
  {
    if client.Some? then [client.value] else []
  }

  /**
   * The terminal result `callbacked` delivers for an outcome in a state, or
   * `None` when the outcome moves the flow on instead (a redirect in the
   * browser state goes to the token exchange). A redirect in the SSO state is
   * parsed; a redirect in any other state is a failure without an error.
   */
  function Route(state: AuthorizationState, outcome: AuthorizeResult): (r: Option<Result>)
    ensures r.None? <==> state == Browser && outcome.AuthorizeSuccess?
    ensures r == Some(Cancelled) <==>
      outcome.AuthorizeCancelled? || (state == Sso && outcome.AuthorizeSuccess? && outcome.url.hostQuery.None?)
    ensures r.Some? && r.value.Success? ==> state == Sso && outcome.AuthorizeSuccess?
    ensures outcome.AuthorizeFailed? ==> r == Some(Failed(Some(outcome.error)))
    ensures outcome.AuthorizeSuccess? && state == Sso ==> r == Some(SsoResult(outcome.url.hostQuery))
    ensures outcome.AuthorizeSuccess? && (state == Initial || state == RequestingToken) ==> r == Some(Failed(None))
  {
    match outcome
    case AuthorizeSuccess(url) =>
      if state == Sso then Some(SsoResult(url.hostQuery))
      else if state == Browser then None
      else Some(Failed(None))
    case AuthorizeCancelled(_) => Some(Cancelled)
    case AuthorizeFailed(error) => Some(Failed(Some(error)))
  }

  /** The result a web-authentication session error ends the flow with. */
  function SessionErrorResult(error: Error): (r: Result)
    ensures r == Cancelled <==> error == CanceledLogin
    ensures r != Cancelled ==> r == Failed(Some(error))
  {
    if error == CanceledLogin then Cancelled else Failed(Some(error))
  }

  /**
   * The outcome a web-session completion error is reported as: the
   * `canceledLogin` code is a cancellation, any other error a failure.
   */
  function SessionErrorOutcome(error: Error): (outcome: AuthorizeResult)
    ensures outcome.AuthorizeCancelled? <==> error == CanceledLogin
    ensures forall state :: Route(state, outcome) == Some(SessionErrorResult(error))
  {
    if error == CanceledLogin then AuthorizeCancelled(Some(error)) else AuthorizeFailed(error)
  }

  /** A value of the OAuth1 response parameters (`[String: Any]`): a string or anything else. */
  datatype ParamValue = Text(text: string) | NonText

  /** The screen name of a browser-path success: `screen_name` when it is a string, else `""`. */
  function ScreenName(parameters: map<string, ParamValue>): (name: string)
    ensures "screen_name" in parameters && parameters["screen_name"].Text? ==> name == parameters["screen_name"].text
    ensures !("screen_name" in parameters && parameters["screen_name"].Text?) ==> name == ""
  {
    if "screen_name" in parameters && parameters["screen_name"].Text? then parameters["screen_name"].text else ""
  }

  class TwitterAuthentication {
    const consumerKey: string
    const consumerSecret: string
    const callbackUrl: Url
    const useSafariView: bool

    var completionHandler: Option<HandlerId>
    var state: AuthorizationState
    var authenticationSessionObject: Option<Presenter>
    var oauth: Option<OAuthClient>

    /** Every call of a completion handler, in order. */
    var delivered: seq<Delivery>
    /** The redirect URLs handed to `OAuth1Swift.handle(url:)` for the access-token exchange. */
    ghost var forwarded: seq<Url>
    /** How many Safari view controllers `cleanupVisibleControllers` dismissed. */
    ghost var dismissedViews: nat
    /** The OAuth clients `cleanup` cancelled. */
    ghost var cancelledClients: seq<OAuthClient>

    /** The browser leg and the token exchange always have a live OAuth client. */
    ghost predicate Valid()
      reads this
    {
      (state == Browser || state == RequestingToken) ==> oauth.Some?
    }

    /**
     * The flow ended with `result`: it went to the stored handler (if any),
     * the state is back to `initial`, the session slot is empty and the OAuth
     * client was cancelled and released. The handler itself stays stored.
     */
    twostate predicate Finished(result: Result)
      reads this
    {
      && state == Initial
      && authenticationSessionObject == None
      && oauth == None
      && completionHandler == old(completionHandler)
      && delivered == old(delivered) + Deliver(old(completionHandler), Some(result))
      && cancelledClients == old(cancelledClients) + Released(old(oauth))
      && forwarded == old(forwarded)
    }

    /** A Safari view controller that was in the session slot was dismissed, and nothing else. */
    twostate predicate DismissedVisible()
      reads this
    {
      dismissedViews == old(dismissedViews) + (if old(authenticationSessionObject) == Some(SafariView) then 1 else 0)
    }

    /** A browser-path redirect went to the token exchange; nothing else changed. */
    twostate predicate ExchangingToken(url: Url)
      reads this
    {
      && state == RequestingToken
      && forwarded == old(forwarded) + [url]
      && completionHandler == old(completionHandler)
      && authenticationSessionObject == old(authenticationSessionObject)
      && oauth == old(oauth)
      && delivered == old(delivered)
      && dismissedViews == old(dismissedViews)
      && cancelledClients == old(cancelledClients)
    }

    /** The stored fields of a freshly initialised object. */
    constructor (consumerKey: string, consumerSecret: string, callbackUrl: Url, useSafariView: bool)
      ensures Valid()
      ensures this.consumerKey == consumerKey && this.consumerSecret == consumerSecret
      ensures this.callbackUrl == callbackUrl && this.useSafariView == useSafariView
      ensures completionHandler == None && state == Initial
      ensures authenticationSessionObject == None && oauth == None
      ensures delivered == [] && forwarded == [] && dismissedViews == 0 && cancelledClients == []
    {
      this.consumerKey := consumerKey;
      this.consumerSecret := consumerSecret;
      this.callbackUrl := callbackUrl;
      this.useSafariView := useSafariView;
      completionHandler := None;
      state := Initial;
      authenticationSessionObject := None;
      oauth := None;
      delivered := [];
      forwarded := [];
      dismissedViews := 0;
      cancelledClients := [];
    }

    /**
     * `init?`: `callbackUrl` is what the platform makes of `<callbackScheme>://`;
     * when it cannot be parsed there is no object.
     */
    static method Create(consumerKey: string, consumerSecret: string, callbackUrl: Option<Url>, useSafariView: bool)
      returns (auth: TwitterAuthentication?)
      ensures auth == null <==> callbackUrl.None?
      ensures auth != null ==> fresh(auth) && auth.Valid()
      ensures auth != null ==> auth.consumerKey == consumerKey && auth.consumerSecret == consumerSecret
      ensures auth != null ==> auth.callbackUrl == callbackUrl.value && auth.useSafariView == useSafariView
      ensures auth != null ==> auth.state == Initial && auth.completionHandler == None && auth.delivered == []
      ensures auth != null ==> auth.authenticationSessionObject == None && auth.oauth == None
      ensures auth != null ==> auth.forwarded == [] && auth.dismissedViews == 0 && auth.cancelledClients == []
    {
      if callbackUrl.None? {
        auth := null;
      } else {
        auth := new TwitterAuthentication(consumerKey, consumerSecret, callbackUrl.value, useSafariView);
      }
    }

    /**
     * The decision part of `openSSO`: the handoff URL to open, or `None` when
     * the handoff is unavailable at once (browser forced, or the handoff
     * string is not a URL by the platform's parser, `handoffParses`).
     */
    method OpenSso(handoffParses: bool) returns (request: Option<string>)
      ensures request.Some? <==> !useSafariView && handoffParses
      ensures request.Some? ==> request.value == HandoffUrl(consumerKey, consumerSecret, callbackUrl.scheme)
    {
      if useSafariView {
        return None;
      }
      if !handoffParses {
        return None;
      }
      request := Some(HandoffUrl(consumerKey, consumerSecret, callbackUrl.scheme));
    }

    /**
     * `authenticate`: stores the handler (overwriting any earlier one, even
     * mid-flow) and starts the SSO handoff; when the handoff is unavailable at
     * once, the browser path starts. The returned URL is the one passed to
     * `UIApplication.open`; its answer arrives later as `HandoffOpened`.
     */
    method Authenticate(handler: HandlerId, handoffParses: bool) returns (request: Option<string>)
      requires Valid()
      modifies this
      ensures Valid()
      ensures completionHandler == Some(handler)
      ensures request.Some? <==> !useSafariView && handoffParses
      ensures request.Some? ==> request.value == HandoffUrl(consumerKey, consumerSecret, callbackUrl.scheme)
      ensures request.Some? ==> state == old(state) && oauth == old(oauth)
      ensures request.None? ==> state == Browser && oauth == Some(TwitterClient(consumerKey, consumerSecret))
      ensures authenticationSessionObject == old(authenticationSessionObject)
      ensures delivered == old(delivered) && forwarded == old(forwarded)
      ensures dismissedViews == old(dismissedViews) && cancelledClients == old(cancelledClients)
    {
      completionHandler := Some(handler);
      request := OpenSso(handoffParses);
      if request.None? {
        OpenBrowser();
      }
    }

    /**
     * The answer of `UIApplication.open` to the handoff URL: accepted puts the
     * flow in the SSO state (and arms the foreground observer); declined
     * starts the browser path.
     */
    method HandoffOpened(accepted: bool)
      requires Valid()
      modifies this
      ensures Valid()
      ensures accepted ==> state == Sso && oauth == old(oauth)
      ensures !accepted ==> state == Browser && oauth == Some(TwitterClient(consumerKey, consumerSecret))
      ensures completionHandler == old(completionHandler)
      ensures authenticationSessionObject == old(authenticationSessionObject)
      ensures delivered == old(delivered) && forwarded == old(forwarded)
      ensures dismissedViews == old(dismissedViews) && cancelledClients == old(cancelledClients)
    {
      if accepted {
        state := Sso;
      }
      if !accepted {
        OpenBrowser();
      }
    }

    /**
     * The state part of `openBrowser`: a fresh OAuth1 client replaces the
     * stored one (which is not cancelled) and the flow enters the browser
     * state. Its `authorize` call is the foreign exchange; it answers through
     * `HandleAuthorizeUrl`, `OAuthSucceeded` or `OAuthFailed`.
     */
    method OpenBrowser()
      modifies this
      ensures Valid()
      ensures state == Browser && oauth == Some(TwitterClient(consumerKey, consumerSecret))
      ensures completionHandler == old(completionHandler)
      ensures authenticationSessionObject == old(authenticationSessionObject)
      ensures delivered == old(delivered) && forwarded == old(forwarded)
      ensures dismissedViews == old(dismissedViews) && cancelledClients == old(cancelledClients)
    {
      oauth := Some(TwitterClient(consumerKey, consumerSecret));
      state := Browser;
    }

    /**
     * `handle(_:)`: the OAuth1 client asks to show the authorize URL.
     * `started` is `session.start()` for an authentication session, and
     * whether a key window with a root view controller exists for a Safari
     * view controller. A session that cannot be shown fails the flow without
     * an error, never as a cancellation.
     */
    method HandleAuthorizeUrl(presenter: Presenter, started: bool)
      requires Valid()
      modifies this
      ensures Valid()
      ensures started ==> authenticationSessionObject == Some(presenter)
      ensures started ==> state == old(state) && oauth == old(oauth) && completionHandler == old(completionHandler)
      ensures started ==> delivered == old(delivered) && forwarded == old(forwarded)
      ensures started ==> dismissedViews == old(dismissedViews) && cancelledClients == old(cancelledClients)
      ensures !started ==> Finished(Failed(None))
      ensures !started ==>
        dismissedViews == old(dismissedViews)
          + (if presenter == SafariView || old(authenticationSessionObject) == Some(SafariView) then 1 else 0)
    {
      match presenter
      case AuthenticationSession =>
        if !started {
          OnSessionStartFailed();
          return;
        }
        authenticationSessionObject := Some(AuthenticationSession);
      case SafariView =>
        authenticationSessionObject := Some(SafariView);
        if !started {
          OnSessionStartFailed();
          return;
        }
    }

    /**
     * `handleOpen`: a redirect is taken exactly when its scheme is the
     * callback scheme, the opening application is accepted, and a handoff or
     * a browser session is pending. A rejected redirect changes nothing. In
     * the SSO state the payload is parsed and the flow ends; in the browser
     * state the URL goes to the token exchange.
     */
    method HandleOpen(url: Url, sourceApp: Option<string>) returns (handled: bool)
      requires Valid()
      modifies this
      ensures Valid()
      ensures handled <==>
        && url.scheme == callbackUrl.scheme
        && IsAcceptableSourceApp(sourceApp)
        && old(state) != Initial && old(state) != RequestingToken
      ensures !handled ==> unchanged(this)
      ensures handled && old(state) == Sso ==> Finished(SsoResult(url.hostQuery)) && DismissedVisible()
      ensures handled && old(state) == Browser ==> ExchangingToken(url)
    {
      if !(url.scheme == callbackUrl.scheme && IsAcceptableSourceApp(sourceApp)
           && state != Initial && state != RequestingToken) {
        return false;
      }
      Callbacked(AuthorizeSuccess(url));
      return true;
    }

    /**
     * `callbacked`: routes an outcome by the current state, with no other
     * check. Whatever ends the flow goes through the terminal handlers.
     */
    method Callbacked(outcome: AuthorizeResult)
      requires Valid()
      modifies this
      ensures Valid()
      ensures completionHandler == old(completionHandler)
      ensures Route(old(state), outcome).Some? ==> Finished(Route(old(state), outcome).value) && DismissedVisible()
      ensures Route(old(state), outcome).None? ==> ExchangingToken(outcome.url)
      ensures Route(old(state), outcome).Some? && (old(state) == Browser || old(state) == RequestingToken) ==>
        cancelledClients == old(cancelledClients) + [old(oauth).value]
    {
      match outcome
      case AuthorizeSuccess(url) =>
        if state == Sso {
          state := RequestingToken;
          ParseSsoCallback(url);
        } else if state == Browser {
          state := RequestingToken;
          forwarded := forwarded + [url];
        } else {
          OnFailed(None);
        }
      case AuthorizeCancelled(_) =>
        OnCancelled();
      case AuthorizeFailed(error) =>
        OnFailed(Some(error));
    }

    /** `parseSSOCallback`: ends the flow with the result the SSO payload gives. */
    method ParseSsoCallback(url: Url)
      modifies this
      ensures Valid()
      ensures Finished(SsoResult(url.hostQuery)) && DismissedVisible()
    {
      match url.hostQuery
      case None =>
        OnCancelled();
      case Some(items) =>
        var dict := Dictionary(items);
        if "token" in dict && "secret" in dict && "username" in dict {
          OnCompleted(dict["token"], dict["secret"], dict["username"]);
        } else {
          OnFailed(None);
        }
    }

    /** `onCompleted`. */
    method OnCompleted(token: string, secret: string, screenName: string)
      modifies this
      ensures Valid()
      ensures Finished(Success(token, secret, screenName)) && DismissedVisible()
    {
      CleanupVisibleControllers();
      if completionHandler.Some? {
        delivered := delivered + [Delivery(completionHandler.value, Success(token, secret, screenName))];
      }
      Cleanup();
    }

    /** `onSessionStartFailed`: a failure without an error. */
    method OnSessionStartFailed()
      modifies this
      ensures Valid()
      ensures Finished(Failed(None)) && DismissedVisible()
    {
      OnFailed(None);
    }

    /** `onFailed`. */
    method OnFailed(error: Option<Error>)
      modifies this
      ensures Valid()
      ensures Finished(Failed(error)) && DismissedVisible()
    {
      CleanupVisibleControllers();
      if completionHandler.Some? {
        delivered := delivered + [Delivery(completionHandler.value, Failed(error))];
      }
      Cleanup();
    }

    /** `onCancelled`. */
    method OnCancelled()
      modifies this
      ensures Valid()
      ensures Finished(Cancelled) && DismissedVisible()
    {
      CleanupVisibleControllers();
      if completionHandler.Some? {
        delivered := delivered + [Delivery(completionHandler.value, Cancelled)];
      }
      Cleanup();
    }

    /** `cleanupVisibleControllers`: dismisses a Safari view controller in the slot; the slot is kept. */
    method CleanupVisibleControllers()
      modifies this
      ensures DismissedVisible()
      ensures state == old(state) && completionHandler == old(completionHandler)
      ensures authenticationSessionObject == old(authenticationSessionObject) && oauth == old(oauth)
      ensures delivered == old(delivered) && forwarded == old(forwarded) && cancelledClients == old(cancelledClients)
    {
      if authenticationSessionObject == Some(SafariView) {
        dismissedViews := dismissedViews + 1;
      }
    }

    /**
     * `cleanup`: empties the session slot, cancels and releases the OAuth
     * client and returns to `initial`. It leaves the completion handler stored.
     */
    method Cleanup()
      modifies this
      ensures Valid()
      ensures state == Initial && authenticationSessionObject == None && oauth == None
      ensures cancelledClients == old(cancelledClients) + Released(old(oauth))
      ensures completionHandler == old(completionHandler)
      ensures delivered == old(delivered) && forwarded == old(forwarded) && dismissedViews == old(dismissedViews)
    {
      authenticationSessionObject := None;
      if oauth.Some? {
        cancelledClients := cancelledClients + [oauth.value];
      }
      oauth := None;
      state := Initial;
    }

    /**
     * The completion closure of the web-authentication session: a URL is
     * reported as a redirect and then an error, if present, as a cancellation
     * (`canceledLogin`) or a failure, each straight to `callbacked` with no
     * check of the state. With both present, `callbacked` runs twice.
     */
    method SessionCompleted(url: Option<Url>, error: Option<Error>)
      requires Valid()
      modifies this
      ensures Valid()
      ensures completionHandler == old(completionHandler)
      ensures url.None? && error.None? ==> unchanged(this)
      ensures url.Some? && error.None? ==>
        var r := Route(old(state), AuthorizeSuccess(url.value));
        if r.Some? then Finished(r.value) && DismissedVisible() else ExchangingToken(url.value)
      ensures error.Some? ==> state == Initial && authenticationSessionObject == None && oauth == None
      ensures error.Some? ==> cancelledClients == old(cancelledClients) + Released(old(oauth)) && DismissedVisible()
      ensures error.Some? ==>
        delivered == old(delivered)
          + (if url.Some? then Deliver(old(completionHandler), Route(old(state), AuthorizeSuccess(url.value))) else [])
          + Deliver(old(completionHandler), Some(SessionErrorResult(error.value)))
      ensures error.Some? ==> forwarded == old(forwarded) + (if url.Some? && old(state) == Browser then [url.value] else [])
    {
      if url.Some? {
        Callbacked(AuthorizeSuccess(url.value));
      }
      if error.None? {
        return;
      }
      Callbacked(SessionErrorOutcome(error.value));
    }

    /**
     * `willEnterForeground`: returning to the foreground while the SSO
     * handoff is pending cancels the flow; in any other state nothing happens.
     */
    method WillEnterForeground()
      requires Valid()
      modifies this
      ensures Valid()
      ensures old(state) != Sso ==> unchanged(this)
      ensures old(state) == Sso ==> Finished(Cancelled) && DismissedVisible()
    {
      if state == Sso {
        OnCancelled();
      }
    }

    /**
     * `safariViewControllerDidFinish`: the user closing the Safari view
     * cancels the flow only while the browser leg is pending.
     */
    method SafariDidFinish()
      requires Valid()
      modifies this
      ensures Valid()
      ensures old(state) != Browser ==> unchanged(this)
      ensures old(state) == Browser ==> Finished(Cancelled) && DismissedVisible()
      ensures old(state) == Browser ==> cancelledClients == old(cancelledClients) + [old(oauth).value]
    {
      if state != Browser {
        return;
      }
      Callbacked(AuthorizeCancelled(None));
    }

    /**
     * The success closure of `authorize`: the access token and secret, and
     * the `screen_name` response parameter (`""` when absent). No state check.
     */
    method OAuthSucceeded(token: string, secret: string, parameters: map<string, ParamValue>)
      requires Valid()
      modifies this
      ensures Valid()
      ensures Finished(Success(token, secret, ScreenName(parameters))) && DismissedVisible()
      ensures (old(state) == Browser || old(state) == RequestingToken) ==>
        cancelledClients == old(cancelledClients) + [old(oauth).value]
    {
      OnCompleted(token, secret, ScreenName(parameters));
    }

    /** The failure closure of `authorize`: the flow fails with the client's error. No state check. */
    method OAuthFailed(error: Error)
      requires Valid()
      modifies this
      ensures Valid()
      ensures Finished(Failed(Some(error))) && DismissedVisible()
      ensures (old(state) == Browser || old(state) == RequestingToken) ==>
        cancelledClients == old(cancelledClients) + [old(oauth).value]
    {
      OnFailed(Some(error));
    }
  }
}
