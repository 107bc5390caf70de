/** The values a caller of the authentication flow receives. */
module AuthResult {
  import opened Wrappers

  /**
   * The errors the flow passes on. `CanceledLogin` is the cancellation code of
   * the web-authentication session (ASWebAuthenticationSessionError and
   * SFAuthenticationError share it); any other session error and any error of
   * the OAuth1 client are carried with an opaque code.
   */
  datatype Error =
    | CanceledLogin
    | SessionError(code: int)
    | OAuthError(code: int)

  /** `TwitterAuthentication.Result`: what the completion handler receives. */
  datatype Result =
    | Success(token: string, secret: string, screenName: string)
    | Failed(error: Option<Error>)
    | Cancelled
}
