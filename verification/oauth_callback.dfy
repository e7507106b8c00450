/**
 * The OAuth redirect endpoint: reads the authorization response (or error
 * response) of the authorization-code grant, section 4.1.2 and 4.1.2.1 of
 * RFC 6749, exchanges the code through the app's own API, and redirects
 * the browser to the application root.
 */
module OAuthCallback {
  import opened Js
  import opened Decimal
  import opened QueryString
  import opened YouTubeTypes

  /** A redirect to a path at the request's origin, with query parameters. */
  datatype Redirect = Redirect(path: string, query: Query)

  /**
   * What the handler does: the redirect it answers with, and the code it
   * sent to the token exchange (absent when no exchange was attempted).
   */
  datatype CallbackResult = CallbackResult(redirect: Redirect, exchangedCode: Option<string>)

  const OAUTH_ERROR := "oauth_error"
  const NO_CODE := "no_code"
  const AUTH_FAILED := "auth_failed"

  /** `/?error=<marker>`. */
  function ErrorRedirect(marker: string): Redirect {
    Redirect("/", [("error", marker)])
  }

  /**
   * The query of the success redirect built from the exchanged token JSON;
   * absent when `expires_in.toString()` throws because `expires_in` is missing.
   */
  function TokenQuery(t: TokenJson): (r: Option<Query>)
    ensures r.None? <==> t.expires_in.None?
    ensures r.Some? ==>
      Get(r.value, "error") == None &&
      Get(r.value, "access_token") == Some(Interp(t.access_token)) &&
      Get(r.value, "expires_in") == Some(NatToString(t.expires_in.value)) &&
      Get(r.value, "refresh_token") == (if Truthy(t.refresh_token) then t.refresh_token else None)
  {
    if t.expires_in.None? then None
    else
      var access := ("access_token", Interp(t.access_token));
      var expires := ("expires_in", NatToString(t.expires_in.value));
      if Truthy(t.refresh_token) then
        var q := [access, ("refresh_token", t.refresh_token.value), expires];
        assert q[1..] == [q[1], q[2]] && q[1..][1..] == [q[2]] && q[1..][1..][1..] == [];
        Some(q)
      else
        var q := [access, expires];
        assert q[1..] == [q[1]] && q[1..][1..] == [];
        Some(q)
  }

  /**
   * `GET` of the callback route. `params` is the request's query; `exchange`
   * is what the token-exchange request answers, consulted only when the
   * handler makes that request.
   */
  function HandleCallback(params: Query, exchange: Reply<TokenJson>): (r: CallbackResult)
    // an error response wins, whether or not a code came with it
    ensures Truthy(Get(params, "error")) ==>
      r == CallbackResult(ErrorRedirect(OAUTH_ERROR), None)
    ensures !Truthy(Get(params, "error")) && !Truthy(Get(params, "code")) ==>
      r == CallbackResult(ErrorRedirect(NO_CODE), None)
    // otherwise the code is exchanged, exactly once
    ensures r.exchangedCode.Some? <==> !Truthy(Get(params, "error")) && Truthy(Get(params, "code"))
    ensures r.exchangedCode.Some? ==> r.exchangedCode == Get(params, "code")
    ensures r.exchangedCode.Some? ==>
      (r.redirect == ErrorRedirect(AUTH_FAILED) <==>
         exchange.Threw? || !exchange.ok || exchange.body.expires_in.None?)
    // every redirect lands on the root and carries an error marker or an access token, never both
    ensures r.redirect.path == "/"
    ensures Get(r.redirect.query, "error").Some? != Get(r.redirect.query, "access_token").Some?
    ensures exchange.Replied? && exchange.ok && exchange.body.expires_in.Some? && r.exchangedCode.Some? ==>
      var q := r.redirect.query;
      Get(q, "access_token") == Some(Interp(exchange.body.access_token)) &&
      Get(q, "expires_in") == Some(NatToString(exchange.body.expires_in.value)) &&
      (Get(q, "refresh_token").Some? <==> Truthy(exchange.body.refresh_token)) &&
      (Get(q, "refresh_token").Some? ==> Get(q, "refresh_token") == exchange.body.refresh_token)
  {
    var code := Get(params, "code");
    var error := Get(params, "error");
    if Truthy(error) then CallbackResult(ErrorRedirect(OAUTH_ERROR), None)
    else if !Truthy(code) then CallbackResult(ErrorRedirect(NO_CODE), None)
    else
      match exchange
      case Threw => CallbackResult(ErrorRedirect(AUTH_FAILED), code)
      case Replied(ok, body) =>
        if !ok then CallbackResult(ErrorRedirect(AUTH_FAILED), code)
        else
          match TokenQuery(body)
          case None => CallbackResult(ErrorRedirect(AUTH_FAILED), code)
          case Some(q) => CallbackResult(Redirect("/", q), code)
  }

  /**
   * The `state` parameter never changes the outcome: not its value, not
   * where it stands, and not whether it is there at all.
   */
  lemma StateIgnored(before: Query, s1: string, s2: string, after: Query, exchange: Reply<TokenJson>)
    ensures HandleCallback(before + [("state", s1)] + after, exchange)
         == HandleCallback(before + [("state", s2)] + after, exchange)
    ensures HandleCallback(before + [("state", s1)] + after, exchange)
         == HandleCallback(before + after, exchange)
  {
    GetIgnoresOtherName(before, "state", s1, s2, after, "code");
    GetIgnoresOtherName(before, "state", s1, s2, after, "error");
    GetIgnoresInserted(before, ("state", s1), after, "code");
    GetIgnoresInserted(before, ("state", s1), after, "error");
  }
}
