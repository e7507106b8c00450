/**
 * The auth hook: four pieces of session state, the effect that reads the
 * token or error the OAuth redirect left in the URL, the login and logout
 * actions, and the setters the hook hands out.
 */
module AuthSession {
  import opened Js
  import opened QueryString
  import opened YouTubeTypes

  const LOGIN_FAILED := "Failed to start authentication"

  /** The body of the app's `action=auth` answer. */
  datatype AuthReply = AuthReply(authUrl: Option<string>, error: Option<string>)

  class Session {
    var isAuthenticated: bool
    var userProfile: Option<UserProfile>
    var accessToken: Option<string>
    var error: Option<string>
    /** The browser's location: its path and its query parameters. */
    var pathname: string
    var search: Query

    /** Authenticated exactly when a token is held, and a held token is never empty. */
    ghost predicate Valid()
      reads this
    {
      (isAuthenticated <==> accessToken.Some?) &&
      (accessToken.Some? ==> accessToken.value != "")
    }

    /** The hook's first render at the given location. */
    constructor (pathname: string, search: Query)
      ensures Valid()
      ensures !isAuthenticated && userProfile == None && accessToken == None && error == None
      ensures this.pathname == pathname && this.search == search
    {
      isAuthenticated, userProfile, accessToken, error := false, None, None, None;
      this.pathname, this.search := pathname, search;
    }

    /**
     * The effect on the URL's query: an `error` parameter is shown and the
     * token ignored; otherwise an `access_token` parameter signs the user in;
     * with neither nothing changes.
     */
    method ApplySearchParams()
      requires Valid()
      modifies this
      ensures Valid()
      ensures pathname == old(pathname) && search == old(search) && userProfile == old(userProfile)
      ensures Truthy(Get(search, "error")) ==>
        error == Get(search, "error") &&
        isAuthenticated == old(isAuthenticated) && accessToken == old(accessToken)
      ensures !Truthy(Get(search, "error")) && Truthy(Get(search, "access_token")) ==>
        accessToken == Get(search, "access_token") && isAuthenticated && error == old(error)
      ensures !Truthy(Get(search, "error")) && !Truthy(Get(search, "access_token")) ==>
        isAuthenticated == old(isAuthenticated) && accessToken == old(accessToken) && error == old(error)
    {
      var token := Get(search, "access_token");
      var errorParam := Get(search, "error");
      if Truthy(errorParam) {
        error := errorParam;
        return;
      }
      if Truthy(token) {
        accessToken := token;
        isAuthenticated := true;
      }
    }

    /**
     * `handleLogin`: asks the app for the consent URL and returns where the
     * browser navigates; a failed request records an error instead.
     */
    method HandleLogin(reply: Reply<AuthReply>) returns (navigateTo: Option<string>)
      requires Valid()
      modifies this
      ensures Valid()
      ensures isAuthenticated == old(isAuthenticated) && accessToken == old(accessToken)
      ensures userProfile == old(userProfile) && pathname == old(pathname) && search == old(search)
      ensures reply.Threw? || !reply.ok ==> navigateTo == None && error == Some(LOGIN_FAILED)
      ensures reply.Replied? && reply.ok ==>
        navigateTo == Some(Interp(reply.body.authUrl)) && error == old(error)
    {
      if reply.Threw? || !reply.ok {
        error := Some(LOGIN_FAILED);
        navigateTo := None;
      } else {
        navigateTo := Some(Interp(reply.body.authUrl));
      }
    }

    /** `handleLogout`: clears the session and strips the query, staying on the same path. */
    method HandleLogout()
      requires Valid()
      modifies this
      ensures Valid()
      ensures !isAuthenticated && userProfile == None && accessToken == None && error == None
      ensures pathname == old(pathname) && search == []
    {
      isAuthenticated := false;
      userProfile := None;
      accessToken := None;
      error := None;
      search := [];
    }

    /** `setUserProfile`, as the page uses it once the profile arrives. */
    method SetUserProfile(profile: Option<UserProfile>)
      requires Valid()
      modifies this
      ensures Valid()
      ensures userProfile == profile
      ensures isAuthenticated == old(isAuthenticated) && accessToken == old(accessToken)
      ensures error == old(error) && pathname == old(pathname) && search == old(search)
    {
      userProfile := profile;
    }

    /** `setError`. */
    method SetError(e: Option<string>)
      requires Valid()
      modifies this
      ensures Valid()
      ensures error == e
      ensures isAuthenticated == old(isAuthenticated) && accessToken == old(accessToken)
      ensures userProfile == old(userProfile) && pathname == old(pathname) && search == old(search)
    {
      error := e;
    }
  }
}
