/** The OAuth2 service: the two authorization-URL builders and the in-memory
    session table with its lazy expiry, plus the lookup that turns a session
    cookie into the user dict the API handlers consume. */
module OAuth2Service {
  import opened Wrappers
  import opened Json
  import opened Strings
  import opened OAuth2Config

  // ---------------------------------------------------------------------------
  // Authorization URLs (the authorization request of the Authorization Code
  // grant, section 4.1.1 of RFC 6749). Keys and values are inserted verbatim:
  // nothing is percent-encoded.
  // ---------------------------------------------------------------------------

  /** One `key=value` query parameter. */
  type Param = (string, string)

  function ParamText(p: Param): string
  {
    p.0 + "=" + p.1
  }

  function ParamTexts(ps: seq<Param>): seq<string>
  {
    seq(|ps|, k requires 0 <= k < |ps| => ParamText(ps[k]))
  }

  /** `"&".join(f"{k}={v}" for k, v in params.items())`. */
  function QueryString(ps: seq<Param>): string
  {
    Join(ParamTexts(ps), "&")
  }

  /** The Keycloak parameters, in the order the dict literal lists them. */
  function KeycloakAuthParams(c: Config, state: string): seq<Param>
  {
    [ ("client_id", c.keycloakClientId),
      ("redirect_uri", c.keycloakRedirectUri),
      ("response_type", "code"),
      ("scope", "openid profile email"),
      ("state", state) ]
  }

  /** The GitHub parameters, in the order the dict literal lists them. */
  function GithubAuthParams(c: Config, state: string): seq<Param>
  {
    [ ("client_id", c.githubClientId),
      ("redirect_uri", c.githubRedirectUri),
      ("scope", "user:email"),
      ("state", state),
      ("allow_signup", "true") ]
  }

  /** `OAuth2Service.get_keycloak_auth_url(state)`. */
  function KeycloakAuthUrl(c: Config, state: string): string
  {
    KeycloakAuthorizeUrl(c) + "?" + QueryString(KeycloakAuthParams(c, state))
  }

  /** `OAuth2Service.get_github_auth_url(state)`. */
  function GithubAuthUrl(c: Config, state: string): string
  {
    GithubAuthorizeUrl + "?" + QueryString(GithubAuthParams(c, state))
  }

  /** How an authorization server reads one parameter back: the key runs up to
      the first `=`, the value is the rest. */
  function ParseParam(s: string): Param
  {
    if '=' in s then
      var i := FirstIndex(s, '=');
      (s[..i], s[i + 1..])
    else (s, "")
  }

  /** How an authorization server reads the query back: split at every `&`. */
  function ParseQuery(q: string): (ps: seq<Param>)
  {
    var pieces := Split(q, '&');
    seq(|pieces|, k requires 0 <= k < |pieces| => ParseParam(pieces[k]))
  }

  /** A parameter list survives verbatim insertion when no key or value holds
      an `&` and no key holds an `=`. */
  predicate Verbatim(ps: seq<Param>)
  {
    forall k | 0 <= k < |ps| :: '&' !in ps[k].0 && '&' !in ps[k].1 && '=' !in ps[k].0
  }

  lemma ParseParamText(p: Param)
    requires '=' !in p.0
    ensures ParseParam(ParamText(p)) == p
  {
    var s := ParamText(p);
    assert s[|p.0|] == '=';
    var i := FirstIndex(s, '=');
    assert i == |p.0|;
    assert s[..i] == p.0 && s[i + 1..] == p.1;
  }

  /** Reading a built query string back yields exactly the parameters, in order,
      whenever they are `Verbatim`. */
  lemma QueryRoundTrip(ps: seq<Param>)
    requires |ps| >= 1 && Verbatim(ps)
    ensures ParseQuery(QueryString(ps)) == ps
  {
    var texts := ParamTexts(ps);
    forall k | 0 <= k < |texts| ensures '&' !in texts[k] {
      assert texts[k] == ps[k].0 + "=" + ps[k].1;
    }
    SplitJoin(texts, '&');
    assert "&" == ['&'];
    var back := ParseQuery(QueryString(ps));
    forall k | 0 <= k < |ps| ensures back[k] == ps[k] {
      ParseParamText(ps[k]);
    }
  }

  /** The Keycloak URL is the authorize endpoint, a `?`, and a query that
      carries the client id, `response_type=code` and the CSRF state verbatim. */
  lemma KeycloakAuthUrlShape(c: Config, state: string)
    ensures var url := KeycloakAuthUrl(c, state);
      && url[..|KeycloakAuthorizeUrl(c)| + 1] == KeycloakAuthorizeUrl(c) + "?"
      && Contains(url, "client_id=" + c.keycloakClientId)
      && Contains(url, "response_type=code")
      && Contains(url, "state=" + state)
  {
    var ps := KeycloakAuthParams(c, state);
    var prefix := KeycloakAuthorizeUrl(c) + "?";
    assert KeycloakAuthUrl(c, state) == prefix + QueryString(ps);
    QueryContains(ps, 0, prefix);
    assert ps[0].0 + "=" + ps[0].1 == "client_id=" + c.keycloakClientId;
    QueryContains(ps, 2, prefix);
    assert ps[2].0 + "=" + ps[2].1 == "response_type=code";
    QueryContains(ps, 4, prefix);
    assert ps[4].0 + "=" + ps[4].1 == "state=" + state;
  }

  /** A server that splits the Keycloak query at `&` and `=` reads back the five
      parameters in order, provided client id, redirect URI and state hold no
      `&`. */
  lemma KeycloakAuthUrlRoundTrip(c: Config, state: string)
    requires '&' !in c.keycloakClientId && '&' !in c.keycloakRedirectUri && '&' !in state
    ensures ParseQuery(KeycloakAuthUrl(c, state)[|KeycloakAuthorizeUrl(c)| + 1..])
         == KeycloakAuthParams(c, state)
  {
    var ps := KeycloakAuthParams(c, state);
    var prefix := KeycloakAuthorizeUrl(c) + "?";
    assert KeycloakAuthUrl(c, state) == prefix + QueryString(ps);
    assert KeycloakAuthUrl(c, state)[|prefix|..] == QueryString(ps);
    QueryRoundTrip(ps);
  }

  /** The GitHub URL has the same shape, with `scope=user:email` and
      `allow_signup=true` and no `response_type`. */
  lemma GithubAuthUrlShape(c: Config, state: string)
    ensures var url := GithubAuthUrl(c, state);
      && url[..|GithubAuthorizeUrl| + 1] == GithubAuthorizeUrl + "?"
      && Contains(url, "client_id=" + c.githubClientId)
      && Contains(url, "scope=user:email")
      && Contains(url, "state=" + state)
      && Contains(url, "allow_signup=true")
  {
    var ps := GithubAuthParams(c, state);
    var prefix := GithubAuthorizeUrl + "?";
    assert GithubAuthUrl(c, state) == prefix + QueryString(ps);
    QueryContains(ps, 0, prefix);
    assert ps[0].0 + "=" + ps[0].1 == "client_id=" + c.githubClientId;
    QueryContains(ps, 2, prefix);
    assert ps[2].0 + "=" + ps[2].1 == "scope=user:email";
    QueryContains(ps, 3, prefix);
    assert ps[3].0 + "=" + ps[3].1 == "state=" + state;
    QueryContains(ps, 4, prefix);
    assert ps[4].0 + "=" + ps[4].1 == "allow_signup=true";
  }

  /** The GitHub query reads back as its five parameters in order, provided
      client id, redirect URI and state hold no `&`. */
  lemma GithubAuthUrlRoundTrip(c: Config, state: string)
    requires '&' !in c.githubClientId && '&' !in c.githubRedirectUri && '&' !in state
    ensures ParseQuery(GithubAuthUrl(c, state)[|GithubAuthorizeUrl| + 1..])
         == GithubAuthParams(c, state)
  {
    var ps := GithubAuthParams(c, state);
    var prefix := GithubAuthorizeUrl + "?";
    assert GithubAuthUrl(c, state) == prefix + QueryString(ps);
    assert GithubAuthUrl(c, state)[|prefix|..] == QueryString(ps);
    QueryRoundTrip(ps);
  }

  lemma QueryContains(ps: seq<Param>, k: nat, prefix: string)
    requires k < |ps|
    ensures Contains(prefix + QueryString(ps), ps[k].0 + "=" + ps[k].1)
  {
    JoinContainsPart(ParamTexts(ps), "&", k);
    ContainsInSuffix(prefix, QueryString(ps), ParamText(ps[k]));
  }

  // ---------------------------------------------------------------------------
  // Session table
  // ---------------------------------------------------------------------------

  /** One entry of `SESSION_STORAGE`. The ISO-8601 timestamps are kept as whole
      seconds. */
  datatype Session = Session(
    userData: Dict,
    provider: string,
    createdAt: int,
    expiresAt: int,
    accessToken: Json)

  /** The record `create_session` stores at time `now`. */
  function NewSession(userData: Dict, provider: string, now: int): Session
  {
    Session(userData, provider, now, now + SessionTimeout, Get(userData, "access_token"))
  }

  /** `session.get(key)` on the stored record, whose keys are exactly
      `user_data`, `provider`, `created_at`, `expires_at` and `access_token`. */
  function SessionField(s: Session, key: string): Json
  {
    if key == "user_data" then JObj(s.userData)
    else if key == "provider" then JStr(s.provider)
    else if key == "created_at" then JInt(s.createdAt)
    else if key == "expires_at" then JInt(s.expiresAt)
    else if key == "access_token" then s.accessToken
    else JNull
  }

  /** What every stored record satisfies: it expires `SessionTimeout` seconds
      after its creation, and its token is the one in its user data. */
  ghost predicate WellFormed(s: Session)
  {
    s.expiresAt == s.createdAt + SessionTimeout
    && s.accessToken == Get(s.userData, "access_token")
  }

  /** A session is still valid at `now` unless `now > expires_at`. */
  predicate IsLive(s: Session, now: int)
  {
    now <= s.expiresAt
  }

  /** What `get_session(id)` returns at time `now`. */
  function Lookup(sessions: map<string, Session>, id: string, now: int): Option<Session>
  {
    if id in sessions && IsLive(sessions[id], now) then Some(sessions[id]) else None
  }

  /** The table after `get_session(id)` at time `now`: an expired entry is
      deleted on the read that finds it expired. */
  function AfterLookup(sessions: map<string, Session>, id: string, now: int): map<string, Session>
  {
    if id in sessions && !IsLive(sessions[id], now) then sessions - {id} else sessions
  }

  /** `SESSION_STORAGE` with the three static methods that change it. Single
      threaded: concurrent requests are not modelled. */
  class SessionStore {
    var sessions: map<string, Session>

    ghost predicate Valid()
      reads this
    {
      forall id | id in sessions :: WellFormed(sessions[id])
    }

    constructor ()
      ensures Valid() && sessions == map[]
    {
      sessions := map[];
    }

    /** `create_session(user_data, provider)`; `freshId` stands for the
        `uuid4()` and `now` for the clock. */
    method CreateSession(userData: Dict, provider: string, freshId: string, now: int)
      returns (sessionId: string)
      requires Valid() && freshId !in sessions
      modifies this
      ensures Valid()
      ensures sessionId == freshId
      ensures sessions == old(sessions)[sessionId := NewSession(userData, provider, now)]
    {
      sessionId := freshId;
      sessions := sessions[sessionId := NewSession(userData, provider, now)];
    }

    /** `get_session(session_id)` at time `now`. */
    method GetSession(sessionId: string, now: int) returns (session: Option<Session>)
      requires Valid()
      modifies this
      ensures Valid()
      ensures session == Lookup(old(sessions), sessionId, now)
      ensures sessions == AfterLookup(old(sessions), sessionId, now)
      ensures session.Some? ==> WellFormed(session.value) && now <= session.value.createdAt + SessionTimeout
    {
      if sessionId !in sessions {
        return None;
      }
      var s := sessions[sessionId];
      if now > s.expiresAt {
        sessions := sessions - {sessionId};
        return None;
      }
      session := Some(s);
    }

    /** `delete_session(session_id)`. */
    method DeleteSession(sessionId: string) returns (deleted: bool)
      requires Valid()
      modifies this
      ensures Valid()
      ensures deleted <==> sessionId in old(sessions)
      ensures sessions == old(sessions) - {sessionId}
    {
      if sessionId in sessions {
        sessions := sessions - {sessionId};
        return true;
      }
      return false;
    }
  }

  /** A session created at time `t` is returned by every read up to and
      including `t + SessionTimeout`, and such reads leave the table as it is;
      the first read after that returns nothing and takes exactly that entry
      out again. */
  lemma LookupAfterCreate(sessions: map<string, Session>, id: string, userData: Dict,
                          provider: string, t: int, now: int)
    requires id !in sessions
    ensures var m := sessions[id := NewSession(userData, provider, t)];
      && (now <= t + SessionTimeout ==>
            Lookup(m, id, now) == Some(NewSession(userData, provider, t)) && AfterLookup(m, id, now) == m)
      && (now > t + SessionTimeout ==>
            Lookup(m, id, now) == None && AfterLookup(m, id, now) == sessions)
  {
    var m := sessions[id := NewSession(userData, provider, t)];
    assert m - {id} == sessions;
  }

  /** The stored record holds the provider, the user data and the user data's
      access token (`None` when it has none), and expires an hour after it was
      created. */
  lemma NewSessionRecord(userData: Dict, provider: string, now: int)
    ensures var s := NewSession(userData, provider, now);
      && WellFormed(s)
      && SessionField(s, "provider") == JStr(provider)
      && SessionField(s, "user_data") == JObj(userData)
      && SessionField(s, "access_token") == (if "access_token" in userData then userData["access_token"] else JNull)
      && s.expiresAt == now + 3600
  {
  }

  /** Reading an unknown id returns nothing and changes nothing. */
  lemma LookupUnknown(sessions: map<string, Session>, id: string, now: int)
    requires id !in sessions
    ensures Lookup(sessions, id, now) == None && AfterLookup(sessions, id, now) == sessions
  {
  }

  /** A read touches at most the entry it reads: every other entry is kept
      unchanged, and the read entry is either kept or removed. */
  lemma LookupFramesOthers(sessions: map<string, Session>, id: string, now: int)
    ensures var m := AfterLookup(sessions, id, now);
      && m.Keys <= sessions.Keys
      && sessions.Keys - {id} <= m.Keys
      && (forall k | k in m :: m[k] == sessions[k])
      && (Lookup(sessions, id, now).Some? ==> m == sessions)
  {
  }

  /** Liveness only runs out: a session that a read at `later` returns would also
      have been returned at any earlier time. */
  lemma LiveEarlier(sessions: map<string, Session>, id: string, earlier: int, later: int)
    requires earlier <= later
    requires Lookup(sessions, id, later).Some?
    ensures Lookup(sessions, id, earlier) == Lookup(sessions, id, later)
  {
  }

  /** In a table where every record expires `SessionTimeout` seconds after its
      creation, which every store method keeps, a read returns the stored
      record and only until its lifetime has elapsed. */
  lemma LookupWithinTimeout(sessions: map<string, Session>, id: string, now: int)
    requires forall k | k in sessions :: WellFormed(sessions[k])
    ensures Lookup(sessions, id, now).Some? ==>
      && id in sessions
      && Lookup(sessions, id, now).value == sessions[id]
      && now <= sessions[id].createdAt + SessionTimeout
  {
  }

  /** After a delete, every read of that id returns nothing, and a second delete
      reports that nothing was there. */
  lemma LookupAfterDelete(sessions: map<string, Session>, id: string, now: int)
    ensures Lookup(sessions - {id}, id, now) == None
    ensures id !in sessions - {id}
  {
  }

  // ---------------------------------------------------------------------------
  // Session cookie to user
  // ---------------------------------------------------------------------------

  /** The user dict exactly as `get_user_from_session` builds it: it reads
      `user_id` and `email` from the top level of the session record. */
  function UserFromSessionAsWritten(s: Session): Dict
  {
    map["uid" := SessionField(s, "user_id"),
        "sub" := SessionField(s, "user_id"),
        "email" := SessionField(s, "email"),
        "provider" := SessionField(s, "provider")]
  }

  /** The record never has top-level `user_id` or `email` keys, so as written
      the user dict's `uid`, `sub` and `email` are `None` for every session,
      whatever user data the session was created with. */
  lemma AsWrittenIdentityIsNull(userData: Dict, provider: string, now: int)
    ensures var u := UserFromSessionAsWritten(NewSession(userData, provider, now));
      && u["uid"] == JNull && u["sub"] == JNull && u["email"] == JNull
      && u["provider"] == JStr(provider)
  {
  }

  /** The user dict with `user_id` and `email` read from the session's user
      data, where the callbacks put them. */
  function UserFromSession(s: Session): Dict
  {
    map["uid" := Get(s.userData, "user_id"),
        "sub" := Get(s.userData, "user_id"),
        "email" := Get(s.userData, "email"),
        "provider" := SessionField(s, "provider")]
  }

  /** With the user data read where it is stored, `uid` and `sub` are both the
      stored `user_id`, `email` the stored email, and the dict is never empty. */
  lemma IdentityCarriesUserId(userData: Dict, provider: string, now: int)
    ensures var u := UserFromSession(NewSession(userData, provider, now));
      && u["uid"] == u["sub"] == Get(userData, "user_id")
      && u["email"] == Get(userData, "email")
      && u["provider"] == JStr(provider)
      && u != map[]
  {
  }

  /** `get_user_from_session(request)`, given the request's `session_id`
      cookie. */
  method GetUserFromSession(store: SessionStore, sessionCookie: Option<string>, now: int)
    returns (user: Option<Dict>)
    requires store.Valid()
    modifies store
    ensures store.Valid()
    ensures !IsPresent(sessionCookie) ==> user == None && store.sessions == old(store.sessions)
    ensures IsPresent(sessionCookie) ==>
      var id := sessionCookie.value;
      && store.sessions == AfterLookup(old(store.sessions), id, now)
      && user == match Lookup(old(store.sessions), id, now)
                 case None => None
                 case Some(s) => Some(UserFromSession(s))
  {
    if !IsPresent(sessionCookie) {
      return None;
    }
    var session := store.GetSession(sessionCookie.value, now);
    if session.Some? {
      user := Some(UserFromSession(session.value));
    } else {
      user := None;
    }
  }
}
