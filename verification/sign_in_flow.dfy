/**
 * The sign-in round trip: the browser follows the callback route's redirect
 * to the application root, and the auth hook's effect reads the parameters
 * that redirect carries.
 */
module SignInFlow {
  import opened Js
  import opened QueryString
  import opened YouTubeTypes
  import opened OAuthCallback
  import opened AuthSession

  /**
   * Runs the callback handler, lands a fresh session on its redirect and
   * applies the URL effect; returns the session's resulting auth state.
   */
  method LandAfterCallback(params: Query, exchange: Reply<TokenJson>)
    returns (authenticated: bool, token: Option<string>, error: Option<string>)
    // a refused, code-less or failed exchange leaves the user signed out with the matching marker
    ensures Truthy(Get(params, "error")) ==> !authenticated && error == Some(OAUTH_ERROR)
    ensures !Truthy(Get(params, "error")) && !Truthy(Get(params, "code")) ==>
      !authenticated && error == Some(NO_CODE)
    ensures !Truthy(Get(params, "error")) && Truthy(Get(params, "code")) &&
            (exchange.Threw? || !exchange.ok || exchange.body.expires_in.None?) ==>
      !authenticated && error == Some(AUTH_FAILED)
    // a successful exchange signs the user in with the token it returned, unless that token is empty
    ensures authenticated <==>
      !Truthy(Get(params, "error")) && Truthy(Get(params, "code")) &&
      exchange.Replied? && exchange.ok && exchange.body.expires_in.Some? &&
      Interp(exchange.body.access_token) != ""
    ensures authenticated ==> token == Some(Interp(exchange.body.access_token)) && error == None
    ensures !authenticated ==> token == None
  {
    var r := HandleCallback(params, exchange);
    var session := new Session(r.redirect.path, r.redirect.query);
    session.ApplySearchParams();
    authenticated, token, error := session.isAuthenticated, session.accessToken, session.error;
  }
}
