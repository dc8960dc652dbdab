/** The `/auth` endpoints: the two login redirects, the two callbacks (guard
    checks, then the user record, then one new session), `/me`, `/logout` and
    `/providers`. Network results (token exchange, userinfo) arrive as inputs:
    `None` stands for a failed call. */
module OAuth2Routes {
  import opened Wrappers
  import opened Json
  import opened Strings
  import opened Http
  import opened OAuth2Config
  import opened OAuth2Service

  // ---------------------------------------------------------------------------
  // Login
  // ---------------------------------------------------------------------------

  /** `GET /auth/keycloak/login`; `freshState` stands for the `uuid4()` state. */
  function KeycloakLogin(c: Config, freshState: string): Response
  {
    if !IsKeycloakConfigured(c) then
      Raised(HttpError(503, "Keycloak not configured. Set KEYCLOAK_CLIENT_ID and KEYCLOAK_SERVER_URL environment variables."))
    else
      Redirect(KeycloakAuthUrl(c, freshState), [SetCookie("oauth_state", freshState)])
  }

  /** `GET /auth/github/login`: the state is generated and sent, but not kept. */
  function GithubLogin(c: Config, freshState: string): Response
  {
    if !IsGithubConfigured(c) then
      Raised(HttpError(503, "GitHub OAuth2 not configured. Set GITHUB_CLIENT_ID and GITHUB_CLIENT_SECRET."))
    else
      Redirect(GithubAuthUrl(c, freshState), [])
  }

  /** Keycloak login answers 503 exactly when Keycloak is not configured;
      otherwise it redirects to the authorization URL and stores in the
      `oauth_state` cookie the same state the URL carries. */
  lemma KeycloakLoginOutcome(c: Config, freshState: string)
    ensures StatusCode(KeycloakLogin(c, freshState)) == 503 <==> !IsKeycloakConfigured(c)
    ensures IsKeycloakConfigured(c) ==>
      var r := KeycloakLogin(c, freshState);
      && r.Redirect?
      && r.location == KeycloakAuthUrl(c, freshState)
      && Contains(r.location, "state=" + freshState)
      && r.cookies == [SetCookie("oauth_state", freshState)]
  {
    KeycloakAuthUrlShape(c, freshState);
  }

  /** GitHub login answers 503 exactly when GitHub is not configured; otherwise
      it redirects to a URL carrying the state and sets no cookie. */
  lemma GithubLoginOutcome(c: Config, freshState: string)
    ensures StatusCode(GithubLogin(c, freshState)) == 503 <==> !IsGithubConfigured(c)
    ensures IsGithubConfigured(c) ==>
      var r := GithubLogin(c, freshState);
      && r.Redirect?
      && r.location == GithubAuthUrl(c, freshState)
      && Contains(r.location, "state=" + freshState)
      && r.cookies == []
  {
    GithubAuthUrlShape(c, freshState);
  }

  // ---------------------------------------------------------------------------
  // Callbacks
  // ---------------------------------------------------------------------------

  /** The CSRF check of section 10.12 of RFC 6749: both the returned `state` and
      the `oauth_state` cookie are present, non-empty and equal. */
  predicate StateMatches(state: Option<string>, stateCookie: Option<string>)
  {
    IsPresent(state) && IsPresent(stateCookie) && state.value == stateCookie.value
  }

  /** `not (not tokens or "access_token" not in tokens)`. */
  predicate TokensUsable(tokens: Option<Dict>)
  {
    tokens.Some? && tokens.value != map[] && "access_token" in tokens.value
  }

  /** `not (not user_info)`. */
  predicate UserInfoUsable(userInfo: Option<Dict>)
  {
    userInfo.Some? && userInfo.value != map[]
  }

  /** The `user_data` dict the Keycloak callback stores. */
  function KeycloakUserData(tokens: Dict, info: Dict): Dict
  {
    map["access_token" := Get(tokens, "access_token"),
        "refresh_token" := Get(tokens, "refresh_token"),
        "id_token" := Get(tokens, "id_token"),
        "user_id" := Or(Get(info, "sub"), Get(info, "preferred_username")),
        "username" := FirstTruthy(Get(info, "preferred_username"), Get(info, "username"), Get(info, "name")),
        "email" := Get(info, "email"),
        "name" := Get(info, "name"),
        "provider" := JStr("keycloak")]
  }

  /** The guard sequence of `keycloak_callback`, in source order; on success the
      user data to store. */
  function KeycloakCallbackDecision(code: Option<string>, state: Option<string>,
                                    stateCookie: Option<string>, tokens: Option<Dict>,
                                    userInfo: Option<Dict>): Result<Dict, HttpError>
  {
    if !IsPresent(code) then Err(HttpError(400, "Missing authorization code"))
    else if !StateMatches(state, stateCookie) then Err(HttpError(400, "Invalid or missing state parameter"))
    else if !TokensUsable(tokens) then Err(HttpError(500, "Token exchange failed"))
    else if !UserInfoUsable(userInfo) then Err(HttpError(500, "Failed to retrieve user info"))
    else Ok(KeycloakUserData(tokens.value, userInfo.value))
  }

  /** The Keycloak callback succeeds exactly when all four guards pass; a
      failure is a 400 exactly when the code is missing or the state check
      fails, and a 500 otherwise; the first failing guard decides the detail. */
  lemma KeycloakCallbackGuards(code: Option<string>, state: Option<string>,
                               stateCookie: Option<string>, tokens: Option<Dict>,
                               userInfo: Option<Dict>)
    ensures var r := KeycloakCallbackDecision(code, state, stateCookie, tokens, userInfo);
      && (r.Ok? <==> IsPresent(code) && StateMatches(state, stateCookie)
                     && TokensUsable(tokens) && UserInfoUsable(userInfo))
      && (r.Err? ==> (r.error.status == 400 <==> !IsPresent(code) || !StateMatches(state, stateCookie)))
      && (r.Err? ==> r.error.status == 400 || r.error.status == 500)
      && (!IsPresent(code) ==> r == Err(HttpError(400, "Missing authorization code")))
      && (IsPresent(code) && !StateMatches(state, stateCookie) ==>
            r == Err(HttpError(400, "Invalid or missing state parameter")))
      && (IsPresent(code) && StateMatches(state, stateCookie) && !TokensUsable(tokens) ==>
            r == Err(HttpError(500, "Token exchange failed")))
      && (IsPresent(code) && StateMatches(state, stateCookie) && TokensUsable(tokens)
          && !UserInfoUsable(userInfo) ==>
            r == Err(HttpError(500, "Failed to retrieve user info")))
  {
  }

  /** A successful Keycloak callback came back with the state that the login
      stored in the browser's cookie. */
  lemma KeycloakCallbackChecksState(code: Option<string>, state: Option<string>,
                                    stateCookie: Option<string>, tokens: Option<Dict>,
                                    userInfo: Option<Dict>)
    requires KeycloakCallbackDecision(code, state, stateCookie, tokens, userInfo).Ok?
    ensures state.Some? && stateCookie.Some? && state.value == stateCookie.value && state.value != ""
  {
  }

  /** The stored Keycloak record: `user_id` is `sub` when truthy, else
      `preferred_username`; `username` is the first truthy of
      `preferred_username`, `username`, `name` (the last one even when falsy);
      the access token is the exchanged one and the provider is "keycloak". */
  lemma KeycloakUserRecord(tokens: Dict, info: Dict)
    ensures var u := KeycloakUserData(tokens, info);
      && u["user_id"] == (if Truthy(Get(info, "sub")) then Get(info, "sub") else Get(info, "preferred_username"))
      && (Truthy(u["user_id"]) <==> Truthy(Get(info, "sub")) || Truthy(Get(info, "preferred_username")))
      && (Truthy(Get(info, "preferred_username")) ==> u["username"] == Get(info, "preferred_username"))
      && (!Truthy(Get(info, "preferred_username")) && Truthy(Get(info, "username")) ==> u["username"] == Get(info, "username"))
      && (!Truthy(Get(info, "preferred_username")) && !Truthy(Get(info, "username")) ==> u["username"] == Get(info, "name"))
      && u["access_token"] == Get(tokens, "access_token")
      && u["provider"] == JStr("keycloak")
  {
  }

  /** The `user_data` dict the GitHub callback stores. */
  function GithubUserData(tokens: Dict, info: Dict): Dict
  {
    map["access_token" := Get(tokens, "access_token"),
        "user_id" := Get(info, "id"),
        "username" := Get(info, "login"),
        "email" := Get(info, "email"),
        "name" := Get(info, "name"),
        "provider" := JStr("github")]
  }

  /** The guard sequence of `github_callback`. The `state` query parameter is
      accepted and never looked at. */
  function GithubCallbackDecision(code: Option<string>, state: Option<string>,
                                  tokens: Option<Dict>, userInfo: Option<Dict>): Result<Dict, HttpError>
  {
    if !IsPresent(code) then Err(HttpError(400, "Missing authorization code"))
    else if !TokensUsable(tokens) then Err(HttpError(500, "Token exchange failed"))
    else if !UserInfoUsable(userInfo) then Err(HttpError(500, "Failed to retrieve user info"))
    else Ok(GithubUserData(tokens.value, userInfo.value))
  }

  /** The GitHub callback fails only for a missing code (400), a failed token
      exchange (500) or empty user info (500), records `user_id = id` and
      `username = login`, and its outcome does not depend on `state`. */
  lemma GithubCallbackGuards(code: Option<string>, state: Option<string>, otherState: Option<string>,
                             tokens: Option<Dict>, userInfo: Option<Dict>)
    ensures var r := GithubCallbackDecision(code, state, tokens, userInfo);
      && r == GithubCallbackDecision(code, otherState, tokens, userInfo)
      && (r.Ok? <==> IsPresent(code) && TokensUsable(tokens) && UserInfoUsable(userInfo))
      && (r.Err? ==> (r.error.status == 400 <==> !IsPresent(code)))
      && (r.Err? ==> r.error.status == 400 || r.error.status == 500)
      && (r.Ok? ==> r.value["user_id"] == Get(userInfo.value, "id")
                    && r.value["username"] == Get(userInfo.value, "login")
                    && r.value["provider"] == JStr("github"))
  {
  }

  /** The success response of a callback: a JSON body with a message, the
      provider, the new session id and the user, and the `session_id` cookie. */
  function CallbackSuccess(provider: string, message: string, sessionId: string, userData: Dict,
                           extraCookies: seq<CookieOp>): Response
  {
    JsonResponse(
      map["status" := JStr("success"),
          "message" := JStr(message),
          "provider" := JStr(provider),
          "session_id" := JStr(sessionId),
          "user" := JObj(map["username" := Get(userData, "username"),
                             "email" := Get(userData, "email")])],
      [SetCookie("session_id", sessionId)] + extraCookies)
  }

  /** `GET /auth/keycloak/callback`: the decision, then on success one new
      session, the `session_id` cookie and the removal of `oauth_state`. */
  method KeycloakCallback(store: SessionStore, code: Option<string>, state: Option<string>,
                          stateCookie: Option<string>, tokens: Option<Dict>,
                          userInfo: Option<Dict>, freshId: string, now: int)
    returns (response: Response)
    requires store.Valid() && freshId !in store.sessions
    modifies store
    ensures store.Valid()
    ensures match KeycloakCallbackDecision(code, state, stateCookie, tokens, userInfo)
      case Err(e) =>
        response == Raised(e) && store.sessions == old(store.sessions)
      case Ok(userData) =>
        && store.sessions == old(store.sessions)[freshId := NewSession(userData, "keycloak", now)]
        && response == CallbackSuccess("keycloak", "Logged in with Keycloak", freshId, userData, [DeleteCookie("oauth_state")])
  {
    var decision := KeycloakCallbackDecision(code, state, stateCookie, tokens, userInfo);
    if decision.Err? {
      return Raised(decision.error);
    }
    var sessionId := store.CreateSession(decision.value, "keycloak", freshId, now);
    response := CallbackSuccess("keycloak", "Logged in with Keycloak", sessionId, decision.value, [DeleteCookie("oauth_state")]);
  }

  /** `f"Logged in as {user_info.get('login')}"`; the stored username is the
      login. */
  function GithubWelcome(userData: Dict): string
  {
    "Logged in as " + PyStr(Get(userData, "username"))
  }

  /** `GET /auth/github/callback`: the decision, then on success one new session
      and the `session_id` cookie. */
  method GithubCallback(store: SessionStore, code: Option<string>, state: Option<string>,
                        tokens: Option<Dict>, userInfo: Option<Dict>, freshId: string, now: int)
    returns (response: Response)
    requires store.Valid() && freshId !in store.sessions
    modifies store
    ensures store.Valid()
    ensures match GithubCallbackDecision(code, state, tokens, userInfo)
      case Err(e) =>
        response == Raised(e) && store.sessions == old(store.sessions)
      case Ok(userData) =>
        && store.sessions == old(store.sessions)[freshId := NewSession(userData, "github", now)]
        && response == CallbackSuccess("github", GithubWelcome(userData), freshId, userData, [])
  {
    var decision := GithubCallbackDecision(code, state, tokens, userInfo);
    if decision.Err? {
      return Raised(decision.error);
    }
    var sessionId := store.CreateSession(decision.value, "github", freshId, now);
    response := CallbackSuccess("github", GithubWelcome(decision.value), sessionId, decision.value, []);
  }

  // ---------------------------------------------------------------------------
  // Session endpoints
  // ---------------------------------------------------------------------------

  /** What `/me` reports for a found session: the username defaults to
      "anonymous" only when the user data has no `username` key at all. */
  function MeResponse(session: Option<Session>): Response
  {
    match session
    case None => Raised(HttpError(401, "Session expired or invalid"))
    case Some(s) =>
      JsonResponse(
        map["authenticated" := JBool(true),
            "provider" := SessionField(s, "provider"),
            "username" := GetOr(s.userData, "username", JStr("anonymous")),
            "created_at" := SessionField(s, "created_at")],
        [])
  }

  /** `GET /auth/me`, given the request's `session_id` cookie. */
  method GetCurrentUser(store: SessionStore, sessionCookie: Option<string>, now: int)
    returns (response: Response)
    requires store.Valid()
    modifies store
    ensures store.Valid()
    ensures !IsPresent(sessionCookie) ==>
      response == Raised(HttpError(401, "Not authenticated")) && store.sessions == old(store.sessions)
    ensures IsPresent(sessionCookie) ==>
      && response == MeResponse(Lookup(old(store.sessions), sessionCookie.value, now))
      && store.sessions == AfterLookup(old(store.sessions), sessionCookie.value, now)
  {
    if !IsPresent(sessionCookie) {
      return Raised(HttpError(401, "Not authenticated"));
    }
    var session := store.GetSession(sessionCookie.value, now);
    response := MeResponse(session);
  }

  /** `/me` answers 401 when no live session is found and otherwise reports the
      session's provider. A session made by either callback always has a
      `username` key, so for them the "anonymous" default never applies: a
      Keycloak user without any name field is reported with a `null` username. */
  lemma MeReportsSession(session: Option<Session>, tokens: Dict, info: Dict, now: int)
    ensures StatusCode(MeResponse(session)) == 401 <==> session.None?
    ensures session.Some? ==> MeResponse(session).body["provider"] == JStr(session.value.provider)
    ensures var s := NewSession(KeycloakUserData(tokens, info), "keycloak", now);
      MeResponse(Some(s)).body["username"] == KeycloakUserData(tokens, info)["username"]
    ensures var s := NewSession(GithubUserData(tokens, info), "github", now);
      MeResponse(Some(s)).body["username"] == Get(info, "login")
  {
  }

  /** `POST /auth/logout`, given the request's `session_id` cookie. */
  method Logout(store: SessionStore, sessionCookie: Option<string>) returns (response: Response)
    requires store.Valid()
    modifies store
    ensures store.Valid()
    ensures store.sessions == if IsPresent(sessionCookie) then old(store.sessions) - {sessionCookie.value}
                              else old(store.sessions)
    ensures response == JsonResponse(map["status" := JStr("success"),
                                         "message" := JStr("Logged out successfully")],
                                     [DeleteCookie("session_id")])
  {
    if IsPresent(sessionCookie) {
      var _ := store.DeleteSession(sessionCookie.value);
    }
    response := JsonResponse(map["status" := JStr("success"),
                                 "message" := JStr("Logged out successfully")],
                             [DeleteCookie("session_id")]);
  }

  /** `GET /auth/providers`. */
  function Providers(c: Config): Response
  {
    JsonResponse(
      map["providers" := JObj(map[
        "keycloak" := JObj(map["available" := JBool(IsKeycloakConfigured(c)),
                               "url" := JStr("/auth/keycloak/login")]),
        "github" := JObj(map["available" := JBool(IsGithubConfigured(c)),
                             "url" := JStr("/auth/github/login")])])],
      [])
  }

  /** `/providers` reports Keycloak as available exactly when its login
      endpoint redirects instead of answering 503. */
  lemma ProvidersAgreeWithKeycloakLogin(c: Config, freshState: string)
    ensures Providers(c).body["providers"].fields["keycloak"].fields["available"]
         == JBool(StatusCode(KeycloakLogin(c, freshState)) != 503)
  {
  }

  /** `/providers` reports GitHub as available exactly when its login endpoint
      redirects instead of answering 503. */
  lemma ProvidersAgreeWithGithubLogin(c: Config, freshState: string)
    ensures Providers(c).body["providers"].fields["github"].fields["available"]
         == JBool(StatusCode(GithubLogin(c, freshState)) != 503)
  {
  }
}
