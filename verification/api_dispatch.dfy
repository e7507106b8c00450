/**
 * The server-side API route: one `GET` handler that switches on the
 * `action` parameter. It builds the consent URL (section 4.1.1 of RFC 6749),
 * exchanges an authorization code at the token endpoint with a
 * form-encoded request (section 4.1.3 of RFC 6749), and proxies the
 * profile and data requests with the caller's bearer token.
 */
module ApiDispatch {
  import opened Js
  import opened Strings
  import opened QueryString
  import opened YouTubeTypes

  const GOOGLE_ACCOUNTS := "https://accounts.google.com"
  const AUTH_ENDPOINT := GOOGLE_ACCOUNTS + "/o/oauth2/v2/auth"
  const TOKEN_ENDPOINT := "https://oauth2.googleapis.com/token"
  const USERINFO_ENDPOINT := GOOGLE_APIS + "/oauth2/v2/userinfo"
  const YOUTUBE_V3 := GOOGLE_APIS + "/youtube/v3/"
  const ACTIVITIES_ENDPOINT := YOUTUBE_V3 + "activities" + "?" + "part=snippet,contentDetails&mine=true&maxResults=20&key="
  const SUBSCRIPTIONS_ENDPOINT := YOUTUBE_V3 + "subscriptions" + "?" + "part=snippet&mine=true&maxResults=10&key="
  const LIKED_VIDEOS_ENDPOINT := YOUTUBE_V3 + "videos" + "?" + "part=snippet,statistics&myRating=like&maxResults=20&key="
  const DEFAULT_REDIRECT_URI := "http://localhost:3000/api/spotify/callback"

  const GOOGLE_APIS := "https://www.googleapis.com"
  const SCOPES: seq<string> := [
    GOOGLE_APIS + "/auth/youtube.readonly",
    GOOGLE_APIS + "/auth/youtube.force-ssl",
    GOOGLE_APIS + "/auth/userinfo.profile",
    GOOGLE_APIS + "/auth/userinfo.email"]

  const NO_CODE_MESSAGE := "No authorization code provided"
  const NO_TOKEN_MESSAGE := "No access token provided"
  const INVALID_ACTION_MESSAGE := "Invalid action"
  const INTERNAL_ERROR_MESSAGE := "Internal server error"

  /** The process environment the route reads at start-up. */
  datatype Config = Config(
    apiKey: Option<string>,
    clientId: Option<string>,
    clientSecret: Option<string>,
    redirectUri: Option<string>)

  /** A request the route sends upstream. */
  datatype UpstreamRequest =
    | TokenPost(url: string, form: Query)
    | BearerGet(url: string, token: string)

  /** The JSON body of the route's answer; `Forwarded` is upstream JSON passed on as it is. */
  datatype Body<J> =
    | AuthUrlBody(authUrl: string)
    | ErrorBody(error: string)
    | TokenBody(access_token: Option<string>, refresh_token: Option<string>, expires_in: Option<nat>)
    | Forwarded(json: J)

  datatype Response<J> = Response(status: nat, body: Body<J>)

  /** What one request does: the answer, and the upstream request made (absent when none was). */
  datatype Handled<J> = Handled(response: Response<J>, upstream: Option<UpstreamRequest>)

  /** The redirect URI: the configured one when set and non-empty, else the local development one. */
  function RedirectUri(cfg: Config): (uri: string)
    ensures uri != ""
    ensures Truthy(cfg.redirectUri) ==> uri == cfg.redirectUri.value
    ensures !Truthy(cfg.redirectUri) ==> uri == DEFAULT_REDIRECT_URI
  {
    OrElse(cfg.redirectUri, DEFAULT_REDIRECT_URI)
  }

  /** `scopes.join(' ')`. */
  function ScopeParam(): string {
    Join(SCOPES, ' ')
  }

  /** The scope value is the space-delimited list of the four scopes (section 3.3 of RFC 6749). */
  lemma ScopeParamLists()
    ensures Split(ScopeParam(), ' ') == SCOPES
  {
    assert ' ' !in GOOGLE_APIS;
    assert ' ' !in "/auth/youtube.readonly" && ' ' !in "/auth/youtube.force-ssl";
    assert ' ' !in "/auth/userinfo.profile" && ' ' !in "/auth/userinfo.email";
    SplitJoin(SCOPES, ' ');
  }

  /** The consent URL's parameters, in the order the route writes them. */
  function AuthParams(cfg: Config, encode: string -> string): (q: Query)
    ensures Get(q, "client_id") == Some(Interp(cfg.clientId))
    ensures Get(q, "redirect_uri") == Some(encode(RedirectUri(cfg)))
    ensures Get(q, "scope") == Some(encode(ScopeParam()))
    ensures Get(q, "response_type") == Some("code")
  {
    var q := [
      ("client_id", Interp(cfg.clientId)),
      ("redirect_uri", encode(RedirectUri(cfg))),
      ("scope", encode(ScopeParam())),
      ("response_type", "code"),
      ("access_type", "offline"),
      ("prompt", "consent") ];
    assert q[1..][1..] == q[2..] && q[2..][1..] == q[3..];
    assert Get(q[3..], "response_type") == Some("code");
    assert Get(q[2..], "response_type") == Some("code");
    assert Get(q[1..], "response_type") == Some("code");
    assert Get(q[2..], "scope") == Some(encode(ScopeParam()));
    assert Get(q[1..], "scope") == Some(encode(ScopeParam()));
    q
  }

  /**
   * The consent URL as the route's template literal writes it, with the
   * client id and the two encoded values in its holes.
   */
  function AuthUrlFrom(clientId: string, encodedRedirectUri: string, encodedScope: string): string {
    AUTH_ENDPOINT + "?" +
    "client_id=" + clientId + "&" +
    "redirect_uri=" + encodedRedirectUri + "&" +
    "scope=" + encodedScope + "&" +
    "response_type=code&" +
    "access_type=offline&" +
    "prompt=consent"
  }

  /**
   * The consent URL; `encode` is `encodeURIComponent`. It is the endpoint,
   * `?`, and the consent parameters in their `k=v&k=v` text form.
   */
  function AuthUrl(cfg: Config, encode: string -> string): (url: string)
    ensures url == AUTH_ENDPOINT + "?" + Render(AuthParams(cfg, encode))
  {
    var x1, x2, x3 := Interp(cfg.clientId), encode(RedirectUri(cfg)), encode(ScopeParam());
    AuthUrlIsRendered(x1, x2, x3);
    assert AuthParams(cfg, encode) == [("client_id", x1), ("redirect_uri", x2), ("scope", x3)] + FIXED_AUTH_PARAMS;
    AuthUrlFrom(Interp(cfg.clientId), encode(RedirectUri(cfg)), encode(ScopeParam()))
  }

  const FIXED_AUTH_PARAMS: Query := [("response_type", "code"), ("access_type", "offline"), ("prompt", "consent")]

  /** The three fixed parameters render as the literal tail of the consent URL. */
  lemma FixedAuthParamsRendered()
    ensures Render(FIXED_AUTH_PARAMS) == "response_type=code&" + "access_type=offline&" + "prompt=consent"
  {
    var q := FIXED_AUTH_PARAMS;
    assert Render(q[2..]) == "prompt=consent" by {
      assert q[2..] == [q[2]];
      RenderOne(q[2]);
    }
    assert Render(q[1..]) == "access_type=offline&" + "prompt=consent" by {
      assert q[1..] == [q[1]] + q[2..];
      RenderCons(q[1], q[2..]);
    }
    assert q == [q[0]] + q[1..];
    RenderCons(q[0], q[1..]);
  }

  /** The six parameters render as the query of the consent URL, nested to the right. */
  lemma AuthParamsRendered(x1: string, x2: string, x3: string)
    ensures Render([("client_id", x1), ("redirect_uri", x2), ("scope", x3)] + FIXED_AUTH_PARAMS) ==
      "client_id=" + x1 + "&" + ("redirect_uri=" + x2 + "&" + ("scope=" + x3 + "&" +
        ("response_type=code&" + "access_type=offline&" + "prompt=consent")))
  {
    var p1, p2, p3 := ("client_id", x1), ("redirect_uri", x2), ("scope", x3);
    var q3 := FIXED_AUTH_PARAMS;
    FixedAuthParamsRendered();
    RenderCons(p3, q3);
    RenderCons(p2, [p3] + q3);
    RenderCons(p1, [p2] + ([p3] + q3));
    assert [p1, p2, p3] + q3 == [p1] + ([p2] + ([p3] + q3));
  }

  /** The concatenated consent URL is the endpoint followed by the rendered parameters. */
  lemma AuthUrlIsRendered(x1: string, x2: string, x3: string)
    ensures AuthUrlFrom(x1, x2, x3) ==
      AUTH_ENDPOINT + "?" + Render([("client_id", x1), ("redirect_uri", x2), ("scope", x3)] + FIXED_AUTH_PARAMS)
  {
    AuthParamsRendered(x1, x2, x3);
  }

  lemma FixedAuthParamsUnambiguous()
    ensures Unambiguous(FIXED_AUTH_PARAMS)
  {
    assert '&' !in "response_type" && '=' !in "response_type" && '&' !in "code";
    assert '&' !in "access_type" && '=' !in "access_type" && '&' !in "offline";
    assert '&' !in "prompt" && '=' !in "prompt" && '&' !in "consent";
  }

  lemma AuthParamsUnambiguous(x1: string, x2: string, x3: string)
    requires '&' !in x1 && '&' !in x2 && '&' !in x3
    ensures Unambiguous([("client_id", x1), ("redirect_uri", x2), ("scope", x3)] + FIXED_AUTH_PARAMS)
  {
    FixedAuthParamsUnambiguous();
    assert '&' !in "client_id" && '=' !in "client_id";
    assert '&' !in "redirect_uri" && '=' !in "redirect_uri";
    assert '&' !in "scope" && '=' !in "scope";
  }

  /** Reading the query back out of the concatenated consent URL gives its parameters. */
  lemma AuthUrlFromCarriesParams(x1: string, x2: string, x3: string)
    requires '&' !in x1 && '&' !in x2 && '&' !in x3
    ensures QueryOf(AuthUrlFrom(x1, x2, x3)) ==
      [("client_id", x1), ("redirect_uri", x2), ("scope", x3)] + FIXED_AUTH_PARAMS
  {
    var q := [("client_id", x1), ("redirect_uri", x2), ("scope", x3)] + FIXED_AUTH_PARAMS;
    AuthUrlIsRendered(x1, x2, x3);
    assert '?' !in AUTH_ENDPOINT by {
      assert '?' !in GOOGLE_ACCOUNTS && '?' !in "/o/oauth2/v2/auth";
    }
    AuthParamsUnambiguous(x1, x2, x3);
    QueryOfUrl(AUTH_ENDPOINT, q);
  }

  /**
   * The consent URL carries exactly the six parameters, in order, provided
   * the client id and the two encoded values hold no `&` (which
   * `encodeURIComponent` never leaves in its output).
   */
  lemma AuthUrlCarriesParams(cfg: Config, encode: string -> string)
    requires '&' !in Interp(cfg.clientId)
    requires '&' !in encode(RedirectUri(cfg)) && '&' !in encode(ScopeParam())
    ensures QueryOf(AuthUrl(cfg, encode)) == AuthParams(cfg, encode)
  {
    var x1, x2, x3 := Interp(cfg.clientId), encode(RedirectUri(cfg)), encode(ScopeParam());
    AuthUrlFromCarriesParams(x1, x2, x3);
    assert AuthParams(cfg, encode) == [("client_id", x1), ("redirect_uri", x2), ("scope", x3)] + FIXED_AUTH_PARAMS;
  }

  /** The form body of the token request, in the order the route writes it. */
  function TokenForm(cfg: Config, code: string): (form: Query)
    ensures Get(form, "grant_type") == Some("authorization_code")
    ensures Get(form, "code") == Some(code)
    ensures Get(form, "redirect_uri") == Some(RedirectUri(cfg))
    ensures Get(form, "client_id") == Some(Interp(cfg.clientId))
    ensures Get(form, "client_secret") == Some(Interp(cfg.clientSecret))
    // five distinct names, five pairs: the form holds these and nothing else
    ensures |form| == 5
  {
    var form := [
      ("client_id", Interp(cfg.clientId)),
      ("client_secret", Interp(cfg.clientSecret)),
      ("code", code),
      ("grant_type", "authorization_code"),
      ("redirect_uri", RedirectUri(cfg)) ];
    assert form[1..][1..] == form[2..] && form[2..][1..] == form[3..] && form[3..][1..] == form[4..];
    assert Get(form[4..], "redirect_uri") == Some(RedirectUri(cfg));
    assert Get(form[3..], "redirect_uri") == Some(RedirectUri(cfg));
    assert Get(form[2..], "redirect_uri") == Some(RedirectUri(cfg));
    assert Get(form[1..], "redirect_uri") == Some(RedirectUri(cfg));
    assert Get(form[3..], "grant_type") == Some("authorization_code");
    assert Get(form[2..], "grant_type") == Some("authorization_code");
    assert Get(form[1..], "grant_type") == Some("authorization_code");
    assert Get(form[2..], "code") == Some(code);
    assert Get(form[1..], "code") == Some(code);
    assert Get(form[1..], "client_secret") == Some(Interp(cfg.clientSecret));
    form
  }

  function ErrorResponse<J>(status: nat, message: string): Response<J> {
    Response(status, ErrorBody(message))
  }

  /** `action=callback`. */
  function HandleTokenExchange<J>(q: Query, cfg: Config, tokenReply: Reply<TokenJson>): (h: Handled<J>)
    ensures !Truthy(Get(q, "code")) ==> h == Handled(ErrorResponse(400, NO_CODE_MESSAGE), None)
    ensures Truthy(Get(q, "code")) ==>
      h.upstream == Some(TokenPost(TOKEN_ENDPOINT, TokenForm(cfg, Get(q, "code").value)))
    ensures Truthy(Get(q, "code")) && (tokenReply.Threw? || !tokenReply.ok) ==>
      h.response == ErrorResponse(500, INTERNAL_ERROR_MESSAGE)
    ensures Truthy(Get(q, "code")) && tokenReply.Replied? && tokenReply.ok ==>
      var t := tokenReply.body;
      h.response == Response(200, TokenBody(t.access_token, t.refresh_token, t.expires_in))
  {
    var code := Get(q, "code");
    if !Truthy(code) then Handled(ErrorResponse(400, NO_CODE_MESSAGE), None)
    else
      var request := TokenPost(TOKEN_ENDPOINT, TokenForm(cfg, code.value));
      match tokenReply
      case Threw => Handled(ErrorResponse(500, INTERNAL_ERROR_MESSAGE), Some(request))
      case Replied(ok, t) =>
        if !ok then Handled(ErrorResponse(500, INTERNAL_ERROR_MESSAGE), Some(request))
        else Handled(Response(200, TokenBody(t.access_token, t.refresh_token, t.expires_in)), Some(request))
  }

  /** The actions that proxy a bearer-token request. */
  predicate IsDataAction(action: string) {
    action == "profile" || action == "recent-videos" || action == "top-channels" || action == "liked-videos"
  }

  /**
   * The upstream URL of a data action: the user-info endpoint for the
   * profile, and a data API list call ending in the API key for the others.
   */
  function DataUrl(action: string, cfg: Config): (url: string)
    requires IsDataAction(action)
    ensures action == "profile" ==> url == USERINFO_ENDPOINT
    ensures action == "recent-videos" ==> url == ACTIVITIES_ENDPOINT + Interp(cfg.apiKey)
    ensures action == "top-channels" ==> url == SUBSCRIPTIONS_ENDPOINT + Interp(cfg.apiKey)
    ensures action == "liked-videos" ==> url == LIKED_VIDEOS_ENDPOINT + Interp(cfg.apiKey)
  {
    match action
    case "profile" => USERINFO_ENDPOINT
    case "recent-videos" => ACTIVITIES_ENDPOINT + Interp(cfg.apiKey)
    case "top-channels" => SUBSCRIPTIONS_ENDPOINT + Interp(cfg.apiKey)
    case _ => LIKED_VIDEOS_ENDPOINT + Interp(cfg.apiKey)
  }

  /**
   * Every data URL is on the provider's API host, and only the profile URL
   * has no query string: the API key goes to the three data API calls only.
   */
  lemma DataUrlHost(action: string, cfg: Config)
    requires IsDataAction(action)
    ensures |DataUrl(action, cfg)| > |GOOGLE_APIS| && DataUrl(action, cfg)[..|GOOGLE_APIS|] == GOOGLE_APIS
    ensures '?' in DataUrl(action, cfg) <==> action != "profile"
  {
    assert '?' !in GOOGLE_APIS && '?' !in "/oauth2/v2/userinfo" && '?' !in "/youtube/v3/";
    assert ACTIVITIES_ENDPOINT[|YOUTUBE_V3 + "activities"|] == '?';
    assert SUBSCRIPTIONS_ENDPOINT[|YOUTUBE_V3 + "subscriptions"|] == '?';
    assert LIKED_VIDEOS_ENDPOINT[|YOUTUBE_V3 + "videos"|] == '?';
  }

  /** `action=profile`, `recent-videos`, `top-channels` or `liked-videos`. */
  function HandleDataAction<J>(action: string, q: Query, cfg: Config, dataReply: Reply<J>): (h: Handled<J>)
    requires IsDataAction(action)
    ensures !Truthy(Get(q, "token")) ==> h == Handled(ErrorResponse(400, NO_TOKEN_MESSAGE), None)
    ensures Truthy(Get(q, "token")) ==>
      h.upstream == Some(BearerGet(DataUrl(action, cfg), Get(q, "token").value))
    ensures Truthy(Get(q, "token")) && dataReply.Threw? ==>
      h.response == ErrorResponse(500, INTERNAL_ERROR_MESSAGE)
    // the upstream JSON is passed on unchanged, whatever the upstream status
    ensures Truthy(Get(q, "token")) && dataReply.Replied? ==>
      h.response == Response(200, Forwarded(dataReply.body))
  {
    var token := Get(q, "token");
    if !Truthy(token) then Handled(ErrorResponse(400, NO_TOKEN_MESSAGE), None)
    else
      var request := BearerGet(DataUrl(action, cfg), token.value);
      match dataReply
      case Threw => Handled(ErrorResponse(500, INTERNAL_ERROR_MESSAGE), Some(request))
      case Replied(_, json) => Handled(Response(200, Forwarded(json)), Some(request))
  }

  /**
   * `GET` of the route. `encode` is `encodeURIComponent`; `tokenReply` and
   * `dataReply` are what the token endpoint and the data endpoint answer,
   * each consulted only when the action makes that request.
   */
  function Dispatch<J>(q: Query, cfg: Config, encode: string -> string,
                       tokenReply: Reply<TokenJson>, dataReply: Reply<J>): (h: Handled<J>)
    ensures Get(q, "action") == Some("auth") ==>
      h == Handled(Response(200, AuthUrlBody(AuthUrl(cfg, encode))), None)
    ensures Get(q, "action") == Some("callback") ==> h == HandleTokenExchange(q, cfg, tokenReply)
    ensures Get(q, "action").Some? && IsDataAction(Get(q, "action").value) ==>
      h == HandleDataAction(Get(q, "action").value, q, cfg, dataReply)
    ensures Get(q, "action").None? ||
            (Get(q, "action").value != "auth" && Get(q, "action").value != "callback" &&
             !IsDataAction(Get(q, "action").value)) ==>
      h == Handled(ErrorResponse(400, INVALID_ACTION_MESSAGE), None)
  {
    match Get(q, "action")
    case None => Handled(ErrorResponse(400, INVALID_ACTION_MESSAGE), None)
    case Some(action) =>
      if action == "auth" then Handled(Response(200, AuthUrlBody(AuthUrl(cfg, encode))), None)
      else if action == "callback" then HandleTokenExchange(q, cfg, tokenReply)
      else if IsDataAction(action) then HandleDataAction(action, q, cfg, dataReply)
      else Handled(ErrorResponse(400, INVALID_ACTION_MESSAGE), None)
  }

  /**
   * Every rejection (400) happens before any upstream request; the consent
   * URL is the only answer built without one that is not a rejection.
   */
  lemma DispatchRejectsBeforeUpstream<J>(q: Query, cfg: Config, encode: string -> string,
                                         tokenReply: Reply<TokenJson>, dataReply: Reply<J>)
    ensures var h := Dispatch(q, cfg, encode, tokenReply, dataReply);
      h.response.status == 400 <==> h.upstream.None? && Get(q, "action") != Some("auth")
  {
  }

  /** Every failure after an upstream request is the generic 500, which never carries upstream text. */
  lemma DispatchFailsGenerically<J>(q: Query, cfg: Config, encode: string -> string,
                                    tokenReply: Reply<TokenJson>, dataReply: Reply<J>)
    ensures var h := Dispatch(q, cfg, encode, tokenReply, dataReply);
      (h.upstream.Some? ==> h.response.status in {200, 500}) &&
      (h.response.status == 500 ==> h.response.body == ErrorBody(INTERNAL_ERROR_MESSAGE))
  {
  }
}
