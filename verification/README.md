# SimpleTwitterAuthentication — a Dafny model of the authentication orchestrator

This project models `TwitterAuthentication`, the class that logs a user in to
Twitter from an iOS app. It first hands authentication over to the Twitter app
through the `twitterauth://` URL scheme (SSO). When that handoff is forced off
or declined, it falls back to a browser-hosted OAuth1 flow. Every step of the
flow is an event: a call by the app, the answer of `UIApplication.open`, an
inbound redirect (`handleOpen`), a web-session completion, the OAuth1 client's
success or failure, a foreground notification, or the user closing the Safari
view. Each event updates four fields: `state`, `completionHandler`,
`authenticationSessionObject` and `oauth`.

Files and modules:

- `wrappers.dfy` (`Wrappers`): `Option`, standing in for Swift optionals.
- `foundation.dfy` (`Foundation`): the URL record the flow reads (scheme, and
  the host component already split into query items).
- `auth_result.dfy` (`AuthResult`): `Result` and the errors it carries.
- `sso_callback.dfy` (`SsoCallback`): the SSO payload parser. It folds the
  items into a dictionary (last write wins, items without a value skipped)
  and then looks up the three required keys. The fold is proved equal to an
  independent "last valued item" reference.
- `source_app.dfy` (`SourceApp`): the allow-list of applications that may
  send a redirect.
- `sso_handoff.dfy` (`SsoHandoff`): the handoff URL string.
- `twitter_authentication.dfy` (`TwitterAuth`): the state machine, as the
  class `TwitterAuthentication` with one method per event and per private
  handler.
- `scenarios.dfy` (`Scenarios`): whole flows driven through a fresh object.

Observations that the source does not store are kept in extra fields:

- `delivered` records each call of a completion handler, with the handler's
  identity. Handlers are `HandlerId`s.
- The ghost fields `forwarded`, `dismissedViews` and `cancelledClients` record
  the calls to `OAuth1Swift.handle(url:)`, to `dismiss` and to `oauth.cancel()`.

Inputs that come from the platform become method parameters:

- whether `URL(string:)` accepts the callback or handoff string;
- the answer of `UIApplication.open` (`HandoffOpened(accepted)`);
- whether the web session started (`HandleAuthorizeUrl(presenter, started)`).

The model follows the code as written. Where a tidier design would behave
differently, the code wins:

- `cleanup` does not clear `completionHandler`.
- A second `authenticate` is not rejected. It replaces the handler (see
  `Scenarios.SecondAuthenticateReplacesHandler`).
- The web-session completion and the OAuth1 closures call `callbacked` and
  the terminal handlers without any state check. A completion carrying both a
  URL and an error runs `callbacked` twice.
- `callbacked(.success)` outside the SSO and browser states delivers
  `failed(nil)`.
- Only the host component of an SSO redirect is parsed. The query of the
  redirect URL is never read.
- The foreground observer is registered on every accepted handoff and is never
  removed. Its handler acts only in the SSO state.

So single delivery is proved for the state-gated entry points (`HandleOpen`,
`WillEnterForeground`, `SafariDidFinish`): after one of them ends the flow, the
state is `initial`, and a repeat of any of them is rejected or is a no-op. It
is not claimed for the ungated closures.

## Model

| member | source | states |
|---|---|---|
| `SsoCallback.Dictionary` | Sources/TwitterAuthentication.swift:193-200 | every key of the folded dictionary comes from some item that gives it a value |
| `SsoCallback.FoldSnoc` | Sources/TwitterAuthentication.swift:193-200 | folding one more item at the end is one more insert, which skips a nil value |
| `SsoCallback.DictionaryIsLatest` | Sources/TwitterAuthentication.swift:193-200 | for every key, the dictionary's value is that of the LAST item giving the key a value (last write wins, nil values ignored); absent when no item gives one |
| `SsoCallback.LatestValueIsLastWrite` | Sources/TwitterAuthentication.swift:193-200 | the reference value is `v` iff some item sets the key to `v` and no later item sets it at all |
| `SsoCallback.LatestValueAbsent` | Sources/TwitterAuthentication.swift:193-205 | a key is missing iff no item gives it a value |
| `SsoCallback.SsoResult` | Sources/TwitterAuthentication.swift:187-208 | no host gives `cancelled`; otherwise `success(token, secret, username)` with the latest values when all three keys are present, and `failed(nil)` when any is missing |
| `SourceApp.IsAcceptableSourceApp` | Sources/TwitterAuthentication.swift:219-225 | true iff a source is present and it starts, character by character, with `com.twitter`, `com.atebits` or `com.apple.SafariViewService` |
| `SourceApp.AcceptedSourceExtends` | Sources/TwitterAuthentication.swift:223-224 | acceptance is by prefix: any extension of an accepted identifier is accepted |
| `SourceApp.ShortSourceRejected` | Sources/TwitterAuthentication.swift:220-224 | a missing source, or one shorter than every prefix, is rejected |
| `SsoHandoff.HandoffUrl` | Sources/TwitterAuthentication.swift:172 | the handoff string starts with `twitterauth://authorize?consumer_key=` followed by the key, and ends with `&oauth_callback=` followed by the callback scheme (`""` when the callback URL has none) |
| `SsoHandoff.HandoffUrlDeterminesParameters` | Sources/TwitterAuthentication.swift:172 | with no `&` in key or secret, equal handoff URLs have equal key, secret and callback scheme: the receiver reads back what was sent |
| `TwitterAuth.Route` | Sources/TwitterAuthentication.swift:94-117 | `callbacked` ends the flow except for a redirect in the browser state; it cancels only on a cancel outcome or an SSO redirect without a host; success comes only from an SSO redirect; an SSO redirect gives `SsoResult` of its payload; a redirect in `initial` or `requestingToken` gives `failed(nil)`; a failure outcome passes its error on |
| `TwitterAuth.SessionErrorResult` | Sources/TwitterAuthentication.swift:272-278 | a session error ends as `cancelled` iff it is `canceledLogin`, otherwise as `failed(error)` |
| `TwitterAuth.SessionErrorOutcome` | Sources/TwitterAuthentication.swift:272-278 | `canceledLogin` is reported as a cancellation and any other error as a failure, whatever the state |
| `TwitterAuth.ScreenName` | Sources/TwitterAuthentication.swift:255 | the screen name is the `screen_name` parameter when it is a string, otherwise `""` |
| `TwitterAuth.TwitterAuthentication.constructor` | Sources/TwitterAuthentication.swift:47-65 | stores the configuration; starts in `initial` with no handler, session or client |
| `TwitterAuth.TwitterAuthentication.Create` | Sources/TwitterAuthentication.swift:58-65 | no object iff the callback URL cannot be built; otherwise a fresh object in `initial` with no handler, an empty session slot, no OAuth client and empty records |
| `TwitterAuth.TwitterAuthentication.OpenSso` | Sources/TwitterAuthentication.swift:167-173 | the handoff is requested iff the browser is not forced and the handoff URL parses, and the URL is the handoff string |
| `TwitterAuth.TwitterAuthentication.Authenticate` | Sources/TwitterAuthentication.swift:67-75 | stores the handler unconditionally; starts the handoff, or the browser path when the handoff is unavailable at once; delivers nothing |
| `TwitterAuth.TwitterAuthentication.HandoffOpened` | Sources/TwitterAuthentication.swift:174-184 | an accepted open enters `sso`; a declined one enters `browser` with a fresh client |
| `TwitterAuth.TwitterAuthentication.OpenBrowser` | Sources/TwitterAuthentication.swift:234-247 | a client with the consumer credentials and Twitter's three endpoints replaces the stored one; state `browser` |
| `TwitterAuth.TwitterAuthentication.HandleAuthorizeUrl` | Sources/TwitterAuthentication.swift:264-318 | a started session fills the slot and changes nothing else; a session that cannot start ends the flow with `failed(nil)`, never `cancelled` |
| `TwitterAuth.TwitterAuthentication.HandleOpen` | Sources/TwitterAuthentication.swift:77-85 | true iff the scheme is the callback scheme, the source is accepted and the state is `sso` or `browser`; false changes nothing; in `sso` ends the flow with the parsed result; in `browser` forwards the URL to the token exchange |
| `TwitterAuth.TwitterAuthentication.Callbacked` | Sources/TwitterAuthentication.swift:94-117 | ends the flow with `Route`'s result, or moves to `requestingToken` and forwards the redirect; ending the flow from `browser` or `requestingToken` cancels exactly the one live client |
| `TwitterAuth.TwitterAuthentication.ParseSsoCallback` | Sources/TwitterAuthentication.swift:187-208 | ends the flow with `SsoResult` of the payload |
| `TwitterAuth.TwitterAuthentication.OnCompleted` | Sources/TwitterAuthentication.swift:119-125 | delivers `success` once to the stored handler, if any; `initial`, slot empty, client cancelled and released, handler kept |
| `TwitterAuth.TwitterAuthentication.OnSessionStartFailed` | Sources/TwitterAuthentication.swift:127-129 | ends the flow with `failed(nil)` |
| `TwitterAuth.TwitterAuthentication.OnFailed` | Sources/TwitterAuthentication.swift:131-137 | delivers `failed(error)` once to the stored handler, if any, and resets as above |
| `TwitterAuth.TwitterAuthentication.OnCancelled` | Sources/TwitterAuthentication.swift:139-145 | delivers `cancelled` once to the stored handler, if any, and resets as above |
| `TwitterAuth.TwitterAuthentication.CleanupVisibleControllers` | Sources/TwitterAuthentication.swift:147-151 | dismisses the slot's Safari view controller, if it holds one, and changes nothing else |
| `TwitterAuth.TwitterAuthentication.Cleanup` | Sources/TwitterAuthentication.swift:153-158 | empties the slot, cancels and drops the client, returns to `initial`; the handler stays |
| `TwitterAuth.TwitterAuthentication.SessionCompleted` | Sources/TwitterAuthentication.swift:267-279 | a URL is routed as a redirect, then an error as `cancelled` (`canceledLogin`) or `failed(error)`, with no state check; with both, two routings and up to two deliveries |
| `TwitterAuth.TwitterAuthentication.WillEnterForeground` | Sources/TwitterAuthentication.swift:210-217 | in `sso` ends the flow with `cancelled`; in every other state changes nothing |
| `TwitterAuth.TwitterAuthentication.SafariDidFinish` | Sources/TwitterAuthentication.swift:332-335 | in `browser` ends the flow with `cancelled` and cancels the live client; in every other state changes nothing |
| `TwitterAuth.TwitterAuthentication.OAuthSucceeded` | Sources/TwitterAuthentication.swift:250-257 | ends the flow with `success(token, secret, screen name or "")`; from `browser` or `requestingToken` it cancels exactly the live client |
| `TwitterAuth.TwitterAuthentication.OAuthFailed` | Sources/TwitterAuthentication.swift:258-260 | ends the flow with `failed(error)`; from `browser` or `requestingToken` it cancels exactly the live client |
| `Scenarios.SsoRedirectDeliversOnce` | Sources/TwitterAuthentication.swift:77-85 | after an accepted handoff, an accepted redirect is handled and delivers exactly the parsed result once; the same redirect again is rejected |
| `Scenarios.SsoSuccessExample` | Sources/TwitterAuthentication.swift:187-208 | a payload `token=abc&secret=def&username=alice` delivers `success("abc", "def", "alice")` |
| `Scenarios.SsoMissingSecretExample` | Sources/TwitterAuthentication.swift:202-205 | a payload without `secret` delivers `failed(nil)` |
| `Scenarios.SsoLastWriteWinsExample` | Sources/TwitterAuthentication.swift:193-200 | a later `token` wins and a valueless `token` is skipped |
| `Scenarios.RejectedSourceExample` | Sources/TwitterAuthentication.swift:78-82 | a redirect from `com.evil.app` is not handled and delivers nothing |
| `Scenarios.ForegroundCancelsSso` | Sources/TwitterAuthentication.swift:210-217 | foreground during the handoff delivers one `cancelled`; any later redirect is rejected and a second foreground does nothing |
| `Scenarios.BrowserDismissExample` | Sources/TwitterAuthentication.swift:332-335 | closing the Safari view delivers one `cancelled`, releases the client, and a second close does nothing |
| `Scenarios.SessionStartFailure` | Sources/TwitterAuthentication.swift:127-129 | a session that cannot start delivers `failed(nil)` for either presenter |
| `Scenarios.SessionErrorEndsFlow` | Sources/TwitterAuthentication.swift:272-278 | a session error delivers `cancelled` for `canceledLogin` and `failed(error)` otherwise |
| `Scenarios.BrowserSuccess` | Sources/TwitterAuthentication.swift:250-257 | redirect, token exchange, then success delivers the token, secret and screen name (`""` without `screen_name`) and returns to `initial` |
| `Scenarios.StrayCompletionFails` | Sources/TwitterAuthentication.swift:267-286 | a session left behind by an earlier browser flow (`cleanup` drops it without cancelling it) reports its URL in `initial`; it is routed anyway and delivers a second result, `failed(nil)` |
| `Scenarios.SecondAuthenticateReplacesHandler` | Sources/TwitterAuthentication.swift:67-68 | a second `authenticate` mid-flow replaces the handler; only the second handler hears the result |

## Left out

- The OAuth1 request-token, authorize and access-token exchange and its
  request signing (section 2 of RFC 5849) belong to the foreign `OAuth1Swift`
  library. Only its outcomes are modelled, as the events `HandleAuthorizeUrl`,
  `OAuthSucceeded` and `OAuthFailed`. The model takes these events whenever
  they arrive; it does not model that a cancelled client stops calling back.
- UIKit, SafariServices and AuthenticationServices presentation is left out:
  opening URLs, `keyWindow`, presenting view controllers, and the
  `presentationAnchor` `fatalError`. The iOS-version branching in `handle(_:)`
  is reduced to the `Presenter` actually used. ASWebAuthenticationSession and
  SFAuthenticationSession behave the same and are one case.
- `TwitterAuth.TwitterAuthentication.HandleAuthorizeUrl`: does not record the
  authorize URL that is shown, because it is produced by the foreign OAuth1
  client and the flow never inspects it.
- Completion handlers are assumed not to call back into the object. In the
  source the handler runs before `cleanup()` (lines 121-124, 133-136, 141-144).
  A handler that calls `authenticate` again, with the browser forced, starts a
  new browser flow synchronously. The outer `cleanup()` then cancels that new
  client and resets the state to `initial`, so the new flow is dropped. The
  model records a handler call as an entry in `delivered` only, so it does not
  capture this re-entrance.
- `NotificationCenter` registration, `DispatchQueue.main.async` and the
  `[weak self]` captures are runtime plumbing. The foreground notification is
  a plain method call. Observer registration is not modelled: its handler acts
  only in the SSO state, and that state is entered only when the observer is
  registered.
- Foundation URL parsing, `NSURLComponents` query splitting and
  percent-decoding are not modelled. A URL is a scheme plus the host's
  already-split query items. The `options` dictionary of `handleOpen` is
  reduced to its `sourceApplication` string, missing when absent or not a
  string.
- Swift `String` compares by Unicode canonical equivalence. The model compares
  `seq<char>` exactly, in dictionary keys, in `hasPrefix` and in scheme
  equality.
- Example/Example/ViewController.swift and Example/Example/AppDelegate.swift
  (demo UI and app-delegate wiring) and Package.swift (build manifest) are not
  part of this model.
