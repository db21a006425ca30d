/**
 * The authorization flow controller: the four route handlers of
 * `AuthController` (login, callback, logout, refresh) over an express response
 * whose cookie jar they update, and the cookie policy they share. The
 * identity provider (openid-client's `Client` and `generators`) is an oracle
 * object: the answers it gives are fixed functions of what it is asked, and it
 * logs every network call it is asked to make.
 */
module Controller {
  import opened Wrappers
  import opened Http
  import Uri

  const CODE_VERIFIER := "code_verifier"
  const ACCESS_TOKEN := "accessToken"
  const ID_TOKEN := "idToken"
  const REFRESH_TOKEN := "refreshToken"

  /** The cookies that together make up a session. */
  const SESSION_COOKIES: set<string> := {ACCESS_TOKEN, ID_TOKEN, REFRESH_TOKEN}

  /** One hour, the lifetime of the access and identity token cookies. */
  const ONE_HOUR_MS: nat := 1000 * 60 * 60
  /** Five days, the lifetime of the refresh token cookie. */
  const FIVE_DAYS_MS: nat := 1000 * 60 * 60 * 24 * 5

  const SCOPE := "openid email profile"
  /** The `code_challenge_method` naming the SHA-256 transformation (RFC 7636 sections 4.2 and 4.3). */
  const CHALLENGE_METHOD := "S256"
  /** Where callback and refresh send the browser. */
  const LANDING := "/me"
  /** Where the hosted logout page sends the browser back to. */
  const POST_LOGOUT_REDIRECT := "http://localhost:8000/me"

  /** The parameters handed to `authorizationUrl`. */
  datatype AuthorizationParams = AuthorizationParams(
    scope: string, codeChallenge: string, codeChallengeMethod: string)

  datatype TokenSet = TokenSet(accessToken: string, idToken: string, refreshToken: string)

  /** The arguments of `callback(redirectUri, params, { code_verifier })`. */
  datatype ExchangeRequest = ExchangeRequest(
    redirectUri: string, params: map<string, Param>, codeVerifier: string)

  /** A network call to the provider. */
  datatype ProviderCall =
    | TokenExchange(request: ExchangeRequest)
    | TokenRefresh(refreshToken: Param)
    | TokenRevocation(token: Param)

  class Provider {
    /** `generators.codeChallenge`: base64url(SHA-256(verifier)). */
    const codeChallenge: string -> string
    /** `authorizationUrl(params)`. */
    const authorizationUrl: AuthorizationParams -> string
    /** What the token endpoint answers to an authorization-code exchange. */
    const exchange: ExchangeRequest -> Result<TokenSet, string>
    /** What the token endpoint answers to a refresh-token grant. */
    const renewal: Param -> Result<TokenSet, string>
    /** What the revocation endpoint answers: `None` when it succeeds. */
    const revocation: Param -> Option<string>
    /** Every network call made so far, oldest first. */
    var calls: seq<ProviderCall>

    constructor (
      codeChallenge: string -> string,
      authorizationUrl: AuthorizationParams -> string,
      exchange: ExchangeRequest -> Result<TokenSet, string>,
      renewal: Param -> Result<TokenSet, string>,
      revocation: Param -> Option<string>)
      ensures this.codeChallenge == codeChallenge && this.authorizationUrl == authorizationUrl
      ensures this.exchange == exchange && this.renewal == renewal && this.revocation == revocation
      ensures calls == []
    {
      this.codeChallenge := codeChallenge;
      this.authorizationUrl := authorizationUrl;
      this.exchange := exchange;
      this.renewal := renewal;
      this.revocation := revocation;
      calls := [];
    }

    /** `client.callback(...)`. */
    method Callback(request: ExchangeRequest) returns (r: Result<TokenSet, string>)
      modifies this
      ensures r == exchange(request)
      ensures calls == old(calls) + [TokenExchange(request)]
    {
      calls := calls + [TokenExchange(request)];
      r := exchange(request);
    }

    /** `client.refresh(refreshToken)`. */
    method Refresh(refreshToken: Param) returns (r: Result<TokenSet, string>)
      modifies this
      ensures r == renewal(refreshToken)
      ensures calls == old(calls) + [TokenRefresh(refreshToken)]
    {
      calls := calls + [TokenRefresh(refreshToken)];
      r := renewal(refreshToken);
    }

    /** `client.revoke(token)`. */
    method Revoke(token: Param) returns (r: Option<string>)
      modifies this
      ensures r == revocation(token)
      ensures calls == old(calls) + [TokenRevocation(token)]
    {
      calls := calls + [TokenRevocation(token)];
      r := revocation(token);
    }
  }

  /**
   * `AuthController`: the provider client and the process environment it reads
   * (`COGNITO_REDIRECT_URI`, `COGNITO_DOMAIN`, `COGNITO_CLIENT_ID`, and whether
   * `NODE_ENV` is `production`).
   */
  class AuthController {
    const provider: Provider
    const redirectUri: string
    const domain: string
    const clientId: string
    const production: bool

    constructor (provider: Provider, redirectUri: string, domain: string, clientId: string, production: bool)
      ensures this.provider == provider && this.redirectUri == redirectUri
      ensures this.domain == domain && this.clientId == clientId && this.production == production
    {
      this.provider := provider;
      this.redirectUri := redirectUri;
      this.domain := domain;
      this.clientId := clientId;
      this.production := production;
    }

    /**
     * GET /auth/login. `verifier` is what `generators.codeVerifier()` drew; the
     * returned parameters are those of the authorization request the browser
     * is redirected to.
     */
    method Login(res: Response, verifier: string) returns (request: AuthorizationParams)
      modifies res
      ensures res.cookies == old(res.cookies)[CODE_VERIFIER := Cookie(verifier, CookieOptions(Some(true), None, None, None))]
      ensures request == AuthorizationParams("openid email profile", provider.codeChallenge(verifier), "S256")
      ensures res.sent == Redirected(FOUND, provider.authorizationUrl(request))
    {
      var codeChallenge := provider.codeChallenge(verifier);
      res.SetCookie(CODE_VERIFIER, verifier, VerifierOptions());
      request := AuthorizationParams(SCOPE, codeChallenge, CHALLENGE_METHOD);
      var authUrl := provider.authorizationUrl(request);
      res.Redirect(authUrl);
    }

    /** GET /auth/callback?code=... */
    method Callback(req: Request, res: Response) returns (c: Completion)
      modifies res, provider
      ensures ValidateCallback(req.query, req.cookies).None? ==>
        && c == Returned
        && res.sent == JsonBody(400, "Invalid request")
        && res.cookies == old(res.cookies)
        && provider.calls == old(provider.calls)
      ensures ValidateCallback(req.query, req.cookies).Some? ==>
        var exchange := ExchangeRequest(redirectUri, req.query, ValidateCallback(req.query, req.cookies).value);
        && provider.calls == old(provider.calls) + [TokenExchange(exchange)]
        && match provider.exchange(exchange)
           case Success(tokens) =>
             && c == Returned
             && CODE_VERIFIER !in res.cookies
             && res.cookies == IssueSession(old(res.cookies) - {CODE_VERIFIER}, tokens, production)
             && res.sent == Redirected(FOUND, "/me")
           case Failure(e) =>
             && c == Threw(e)
             && res.cookies == old(res.cookies)
             && res.sent == old(res.sent)
    {
      var codeVerifier := ValidateCallback(req.query, req.cookies);
      if codeVerifier.None? {
        res.Json(400, "Invalid request");
        return Returned;
      }
      var params := req.query;
      var answer := provider.Callback(ExchangeRequest(redirectUri, params, codeVerifier.value));
      if answer.Failure? {
        return Threw(answer.error);
      }
      var tokens := answer.value;
      res.ClearCookie(CODE_VERIFIER);
      res.SetCookie(ACCESS_TOKEN, tokens.accessToken, TokenCookieOptions(production, ONE_HOUR_MS));
      res.SetCookie(ID_TOKEN, tokens.idToken, TokenCookieOptions(production, ONE_HOUR_MS));
      res.SetCookie(REFRESH_TOKEN, tokens.refreshToken, TokenCookieOptions(production, FIVE_DAYS_MS));
      res.Redirect(LANDING);
      return Returned;
    }

    /** GET /auth/logout. */
    method Logout(req: Request, res: Response) returns (c: Completion)
      modifies res, provider
      ensures c == Returned
      ensures Truthy(Get(req.cookies, REFRESH_TOKEN)) ==>
        provider.calls == old(provider.calls) + [TokenRevocation(req.cookies[REFRESH_TOKEN])]
      ensures !Truthy(Get(req.cookies, REFRESH_TOKEN)) ==> provider.calls == old(provider.calls)
      ensures res.cookies == ClearSession(old(res.cookies))
      ensures res.sent == Redirected(FOUND, LogoutUrl(domain, clientId))
    {
      var refreshToken := Get(req.cookies, REFRESH_TOKEN);
      if Truthy(refreshToken) {
        var failure := provider.Revoke(refreshToken.value);
        // a failed revocation is logged and otherwise ignored
      }
      res.ClearCookie(ACCESS_TOKEN);
      res.ClearCookie(ID_TOKEN);
      res.ClearCookie(REFRESH_TOKEN);
      var logoutUrl := LogoutUrl(domain, clientId);
      res.Redirect(logoutUrl);
      return Returned;
    }

    /** GET /auth/refresh. */
    method Refresh(req: Request, res: Response) returns (c: Completion)
      modifies res, provider
      ensures !Truthy(Get(req.cookies, REFRESH_TOKEN)) ==>
        && c == Returned
        && res.sent == JsonBody(401, "Unauthorized")
        && res.cookies == old(res.cookies)
        && provider.calls == old(provider.calls)
      ensures Truthy(Get(req.cookies, REFRESH_TOKEN)) ==>
        var token := req.cookies[REFRESH_TOKEN];
        && provider.calls == old(provider.calls) + [TokenRefresh(token)]
        && match provider.renewal(token)
           case Success(tokens) =>
             && c == Returned
             && res.cookies == RefreshSession(old(res.cookies), tokens, production)
             && res.sent == Redirected(FOUND, "/me")
           case Failure(e) =>
             && c == Threw(e)
             && res.cookies == old(res.cookies)
             && res.sent == old(res.sent)
    {
      var refreshToken := Get(req.cookies, REFRESH_TOKEN);
      if !Truthy(refreshToken) {
        res.Json(401, "Unauthorized");
        return Returned;
      }
      var answer := provider.Refresh(refreshToken.value);
      if answer.Failure? {
        return Threw(answer.error);
      }
      var tokens := answer.value;
      res.SetCookie(ACCESS_TOKEN, tokens.accessToken, TokenCookieOptions(production, ONE_HOUR_MS));
      res.SetCookie(ID_TOKEN, tokens.idToken, TokenCookieOptions(production, ONE_HOUR_MS));
      res.Redirect(LANDING);
      return Returned;
    }
  }

  /** The options of the `code_verifier` cookie: `{ httpOnly: true }`. */
  function VerifierOptions(): CookieOptions
  {
    CookieOptions(Some(true), None, None, None)
  }

  /** The options of every token cookie, given its lifetime. */
  function TokenCookieOptions(production: bool, maxAge: nat): CookieOptions
  {
    CookieOptions(Some(true), Some(production), Some("lax"), Some(maxAge))
  }

  /**
   * The callback's verifier check: the verifier when the `code` query and the
   * `code_verifier` cookie are both truthy strings, `None` otherwise.
   */
  function ValidateCallback(query: map<string, Param>, cookies: map<string, Param>): (r: Option<string>)
    ensures r.Some? <==>
      CODE_VERIFIER in cookies && cookies[CODE_VERIFIER].Str? && cookies[CODE_VERIFIER].s != "" &&
      "code" in query && query["code"].Str? && query["code"].s != ""
    ensures r.Some? ==> r.value == cookies[CODE_VERIFIER].s && r.value != ""
  {
    var code := Get(query, "code");
    var codeVerifier := Get(cookies, CODE_VERIFIER);
    if !Truthy(code) || !Truthy(codeVerifier) || !IsString(code) || !IsString(codeVerifier) then None
    else Some(codeVerifier.value.s)
  }

  /** The jar once the three token cookies of a fresh token set are written. */
  function IssueSession(jar: Jar, tokens: TokenSet, production: bool): (r: Jar)
    ensures r.Keys == jar.Keys + SESSION_COOKIES
    ensures r[ACCESS_TOKEN] ==
      Cookie(tokens.accessToken, CookieOptions(Some(true), Some(production), Some("lax"), Some(3_600_000)))
    ensures r[ID_TOKEN] ==
      Cookie(tokens.idToken, CookieOptions(Some(true), Some(production), Some("lax"), Some(3_600_000)))
    ensures r[REFRESH_TOKEN] ==
      Cookie(tokens.refreshToken, CookieOptions(Some(true), Some(production), Some("lax"), Some(432_000_000)))
    ensures forall name :: name in jar && name !in SESSION_COOKIES ==> r[name] == jar[name]
  {
    jar
      [ACCESS_TOKEN := Cookie(tokens.accessToken, TokenCookieOptions(production, ONE_HOUR_MS))]
      [ID_TOKEN := Cookie(tokens.idToken, TokenCookieOptions(production, ONE_HOUR_MS))]
      [REFRESH_TOKEN := Cookie(tokens.refreshToken, TokenCookieOptions(production, FIVE_DAYS_MS))]
  }

  /** The jar once a refresh has re-written the access and identity token cookies. */
  function RefreshSession(jar: Jar, tokens: TokenSet, production: bool): (r: Jar)
    ensures r.Keys == jar.Keys + {ACCESS_TOKEN, ID_TOKEN}
    ensures r[ACCESS_TOKEN] ==
      Cookie(tokens.accessToken, CookieOptions(Some(true), Some(production), Some("lax"), Some(3_600_000)))
    ensures r[ID_TOKEN] ==
      Cookie(tokens.idToken, CookieOptions(Some(true), Some(production), Some("lax"), Some(3_600_000)))
    ensures (REFRESH_TOKEN in r <==> REFRESH_TOKEN in jar) && (REFRESH_TOKEN in jar ==> r[REFRESH_TOKEN] == jar[REFRESH_TOKEN])
    ensures forall name :: name in jar && name != ACCESS_TOKEN && name != ID_TOKEN ==> r[name] == jar[name]
  {
    jar
      [ACCESS_TOKEN := Cookie(tokens.accessToken, TokenCookieOptions(production, ONE_HOUR_MS))]
      [ID_TOKEN := Cookie(tokens.idToken, TokenCookieOptions(production, ONE_HOUR_MS))]
  }

  /** The jar once logout has cleared the three token cookies. */
  function ClearSession(jar: Jar): (r: Jar)
    ensures r.Keys == jar.Keys - SESSION_COOKIES
    ensures forall name :: name in r ==> r[name] == jar[name]
  {
    jar - {ACCESS_TOKEN} - {ID_TOKEN} - {REFRESH_TOKEN}
  }

  /** The hosted-UI logout address. */
  function LogoutUrl(domain: string, clientId: string): string
  {
    domain + "/logout?client_id=" + clientId + "&logout_uri=" + Uri.EncodeUriComponent(POST_LOGOUT_REDIRECT)
  }

  /** The address logout redirects to, spelled out. */
  lemma LogoutUrlValue(domain: string, clientId: string)
    ensures LogoutUrl(domain, clientId) ==
      domain + "/logout?client_id=" + clientId + "&logout_uri=" + "http%3A%2F%2Flocalhost%3A8000%2Fme"
  {
    EncodedPostLogoutRedirect();
  }

  lemma EncodedPostLogoutRedirect()
    ensures Uri.EncodeUriComponent(POST_LOGOUT_REDIRECT) == "http%3A%2F%2Flocalhost%3A8000%2Fme"
  {
    PostLogoutRedirectParts();
    Uri.EncodeAddress("http", "localhost", "8000", "me");
    EncodedPostLogoutRedirectFlat();
  }

  lemma PostLogoutRedirectParts()
    ensures Uri.AllUnreserved("http") && Uri.AllUnreserved("localhost")
    ensures Uri.AllUnreserved("8000") && Uri.AllUnreserved("me")
    ensures "http" + ([':'] + (['/'] + (['/'] + ("localhost" + ([':'] + ("8000" + (['/'] + "me")))))))
      == POST_LOGOUT_REDIRECT
  {
  }

  lemma EncodedPostLogoutRedirectFlat()
    ensures "http" + ("%3A" + ("%2F" + ("%2F" + ("localhost" + ("%3A" + ("8000" + ("%2F" + "me")))))))
      == "http%3A%2F%2Flocalhost%3A8000%2Fme"
  {
    var t1 := "8000" + ("%2F" + "me");
    assert t1 == "8000%2Fme";
    var t2 := "localhost" + ("%3A" + t1);
    assert t2 == "localhost%3A8000%2Fme";
    assert "http" + ("%3A" + ("%2F" + ("%2F" + t2))) == "http%3A%2F%2Flocalhost%3A8000%2Fme";
  }

  /** The `logout_uri` parameter the hosted UI receives decodes to the landing address. */
  lemma LogoutUriDecodes()
    ensures Uri.DecodeUriComponent("http%3A%2F%2Flocalhost%3A8000%2Fme") == Some(POST_LOGOUT_REDIRECT)
  {
    EncodedPostLogoutRedirect();
    Uri.DecodeEncode(POST_LOGOUT_REDIRECT);
  }

  /** What the browser sends back: each cookie's value, as cookie-parser reads a plain value. */
  function BrowserSends(jar: Jar): map<string, Param>
  {
    map name | name in jar :: Str(jar[name].value)
  }

  /** All three token cookies are present. */
  predicate HasSession(jar: Jar)
  {
    ACCESS_TOKEN in jar && ID_TOKEN in jar && REFRESH_TOKEN in jar
  }

  /** None of the three token cookies is present. */
  predicate NoSession(jar: Jar)
  {
    ACCESS_TOKEN !in jar && ID_TOKEN !in jar && REFRESH_TOKEN !in jar
  }

  /**
   * The token cookies come and go together: callback writes all three, logout
   * clears all three, and a refresh, which needs the refresh token cookie,
   * leaves a complete session complete.
   */
  lemma SessionAllOrNothing(jar: Jar, tokens: TokenSet, production: bool)
    ensures HasSession(IssueSession(jar - {CODE_VERIFIER}, tokens, production))
    ensures NoSession(ClearSession(jar))
    ensures HasSession(jar) ==> HasSession(RefreshSession(jar, tokens, production))
    ensures REFRESH_TOKEN in jar <==> REFRESH_TOKEN in RefreshSession(jar, tokens, production)
  {
  }

  /**
   * Logging out after a callback leaves the jar as logging out without it
   * would, except that the callback has used up the `code_verifier` cookie;
   * logging out after the token cookies `IssueSession` writes, or after a
   * refresh, leaves exactly the jar a logout alone leaves.
   */
  lemma LogoutUndoesCallback(jar: Jar, tokens: TokenSet, production: bool)
    ensures ClearSession(IssueSession(jar - {CODE_VERIFIER}, tokens, production)) == ClearSession(jar) - {CODE_VERIFIER}
    ensures ClearSession(IssueSession(jar, tokens, production)) == ClearSession(jar)
    ensures ClearSession(RefreshSession(jar, tokens, production)) == ClearSession(jar)
  {
    var a, b := ClearSession(IssueSession(jar, tokens, production)), ClearSession(jar);
    assert a.Keys == b.Keys;
    var d := ClearSession(IssueSession(jar - {CODE_VERIFIER}, tokens, production));
    assert d.Keys == (b - {CODE_VERIFIER}).Keys;
    var c := ClearSession(RefreshSession(jar, tokens, production));
    assert c.Keys == b.Keys;
  }

  /**
   * PKCE binding: a callback the browser makes right after login passes the
   * check with exactly the verifier login stored, the one the challenge was
   * derived from; a callback with no verifier cookie never does.
   */
  lemma CallbackUsesLoginVerifier(jar: Jar, verifier: string, query: map<string, Param>)
    requires "code" in query && query["code"].Str? && query["code"].s != ""
    requires verifier != ""
    ensures ValidateCallback(query, BrowserSends(jar[CODE_VERIFIER := Cookie(verifier, VerifierOptions())])) == Some(verifier)
    ensures CODE_VERIFIER !in jar ==> ValidateCallback(query, BrowserSends(jar)) == None
  {
  }

  /**
   * A login followed by the callback the browser makes with the cookies login
   * left: the token exchange carries the verifier whose challenge went into
   * the authorization request, and on success the session cookies replace the
   * verifier cookie.
   */
  method SignIn(controller: AuthController, jar: Jar, verifier: string, query: map<string, Param>)
    returns (authorization: AuthorizationParams, c: Completion, after: Jar)
    requires "code" in query && query["code"].Str? && query["code"].s != ""
    requires verifier != ""
    modifies controller.provider
    ensures authorization.codeChallenge == controller.provider.codeChallenge(verifier)
    ensures controller.provider.calls ==
      old(controller.provider.calls) + [TokenExchange(ExchangeRequest(controller.redirectUri, query, verifier))]
    ensures controller.provider.exchange(ExchangeRequest(controller.redirectUri, query, verifier)).Success? ==>
      c == Returned && HasSession(after) && CODE_VERIFIER !in after
    ensures controller.provider.exchange(ExchangeRequest(controller.redirectUri, query, verifier)).Failure? ==>
      c.Threw? && CODE_VERIFIER in after && after[CODE_VERIFIER].value == verifier && after.Keys == jar.Keys + {CODE_VERIFIER}
  {
    var loginResponse := new Response(jar);
    authorization := controller.Login(loginResponse, verifier);
    var afterLogin := loginResponse.cookies;
    var req := new Request(query, BrowserSends(afterLogin));
    CallbackUsesLoginVerifier(jar, verifier, query);
    var callbackResponse := new Response(afterLogin);
    c := controller.Callback(req, callbackResponse);
    after := callbackResponse.cookies;
  }
}
