/** The HR agent endpoint `POST /v1/completions`: authenticate through the
    session, pick the user's id, and dispatch the lower-cased prompt by keyword
    to the leave, capex or org lookups, or else to the language model with a
    prompt augmented by retrieved documents. Retrieval and the model are
    parameters. */
module ApiRoutes {
  import opened Wrappers
  import opened Json
  import opened Strings
  import opened Http
  import opened Leave
  import opened Capex
  import opened Org
  import opened RagService
  import opened OAuth2Service

  /** The value under `"response"` in the handler's reply. */
  datatype AgentReply =
    | LeaveReply(balance: LeaveBalance)
    | CapexReply(capex: TeamCapex)
    | OrgReply(org: OrgMembers)
    | LlmReply(sent: string, text: string)

  /** The branch of the keyword chain a prompt takes. */
  datatype Route = LeaveRoute | CapexRoute | OrgRoute | RagRoute

  /** The model call `chat(prompt)`. */
  type Chat = string -> string

  /** The `top_k` of the retrieval call. */
  const TopK: nat := 3

  const NotAuthenticated := HttpError(401, "Not authenticated. Please login via Keycloak first.")

  /** An uncaught exception, which the framework reports as a 500. */
  const InternalError := HttpError(500, "Internal Server Error")

  /** The `if`/`elif` chain on the lower-cased prompt. */
  function Dispatch(prompt: string): Route
  {
    if Contains(prompt, "leave") then LeaveRoute
    else if Contains(prompt, "capex") then CapexRoute
    else if Contains(prompt, "team") || Contains(prompt, "organization") then OrgRoute
    else RagRoute
  }

  /** The prompt sent to the model: the retrieved documents separated by blank
      lines, then the question; the bare prompt when nothing was retrieved. */
  function Augment(context: seq<string>, prompt: string): string
  {
    if context == [] then prompt
    else Join(context, "\n\n") + "\n\nUser question: " + prompt
  }

  /** The user id the lookups receive: `uid`, else `sub`, else `email`. */
  function UserId(user: Dict): Json
  {
    FirstTruthy(Get(user, "uid"), Get(user, "sub"), Get(user, "email"))
  }

  /** `hr_agent(request, request_obj)`, given what `get_user_from_session`
      returned for the request and the JSON body. A body without a string
      `prompt` makes the handler raise. */
  function HrAgent(user: Option<Dict>, body: Dict, search: Search, chat: Chat)
    : Result<AgentReply, HttpError>
  {
    if user.None? || user.value == map[] then Err(NotAuthenticated)
    else if "prompt" !in body || !body["prompt"].JStr? then Err(InternalError)
    else
      var uid := UserId(user.value);
      var prompt := Lower(body["prompt"].s);
      match Dispatch(prompt)
      case LeaveRoute => Ok(LeaveReply(GetLeaveBalance(uid)))
      case CapexRoute => Ok(CapexReply(GetTeamCapex(uid)))
      case OrgRoute => Ok(OrgReply(GetOrgMembers(uid)))
      case RagRoute =>
        var augmented := Augment(RelevantContext(prompt, TopK, search), prompt);
        Ok(LlmReply(augmented, chat(augmented)))
  }

  /** Without a user the handler answers 401, whatever the body, the documents
      or the model would say, and with a user but no string prompt it fails. */
  lemma UnauthenticatedRejected(user: Option<Dict>, body: Dict, search: Search, chat: Chat)
    ensures user.None? || user.value == map[] ==>
      HrAgent(user, body, search, chat) == Err(HttpError(401, "Not authenticated. Please login via Keycloak first."))
    ensures HrAgent(user, body, search, chat).Err? <==>
      user.None? || user.value == map[] || "prompt" !in body || !body["prompt"].JStr?
  {
  }

  /** Every lookup receives the first truthy one of `uid`, `sub` and `email`,
      and null when none is truthy. */
  lemma LookupsReceiveUserId(u: Dict, body: Dict, search: Search, chat: Chat)
    requires u != map[]
    ensures var r := HrAgent(Some(u), body, search, chat);
      var uid := if Truthy(Get(u, "uid")) then Get(u, "uid")
                 else if Truthy(Get(u, "sub")) then Get(u, "sub")
                 else Get(u, "email");
      && (r.Ok? && r.value.LeaveReply? ==> r.value.balance.uid == uid)
      && (r.Ok? && r.value.CapexReply? ==> r.value.capex.manager == uid)
      && (r.Ok? && r.value.OrgReply? ==> r.value.org.manager == uid)
  {
  }

  /** A prompt mentioning leave, in any letter case, gets the leave balance,
      whatever other keywords it also holds, and never reaches the model. */
  lemma LeaveWins(u: Dict, prompt: string, keyword: string, search: Search, chat: Chat)
    requires u != map[]
    requires Lower(keyword) == "leave" && Contains(prompt, keyword)
    ensures HrAgent(Some(u), map["prompt" := JStr(prompt)], search, chat)
            == Ok(LeaveReply(GetLeaveBalance(UserId(u))))
  {
    ContainsLower(prompt, keyword);
  }

  /** The chain is tried in order: capex only without leave, org only without
      leave and capex. */
  lemma DispatchOrder(prompt: string)
    ensures Dispatch(prompt) == CapexRoute <==>
      !Contains(prompt, "leave") && Contains(prompt, "capex")
    ensures Dispatch(prompt) == OrgRoute <==>
      !Contains(prompt, "leave") && !Contains(prompt, "capex")
      && (Contains(prompt, "team") || Contains(prompt, "organization"))
  {
  }

  /** The model is consulted exactly when the lower-cased prompt holds none of
      the keywords, and then it is sent the prompt augmented with the documents
      retrieved for it with top_k 3. */
  lemma ModelOnlyWithoutKeywords(u: Dict, prompt: string, search: Search, chat: Chat)
    requires u != map[]
    ensures var r := HrAgent(Some(u), map["prompt" := JStr(prompt)], search, chat);
      var p := Lower(prompt);
      && (r.Ok? && r.value.LlmReply? <==>
            !Contains(p, "leave") && !Contains(p, "capex")
            && !Contains(p, "team") && !Contains(p, "organization"))
      && (r.Ok? && r.value.LlmReply? ==>
            var sent := Augment(RelevantContext(p, 3, search), p);
            r.value == LlmReply(sent, chat(sent)))
  {
  }

  /** With no documents the model gets the prompt itself; otherwise what it
      gets holds every retrieved document, begins with the first and ends with
      the question. */
  lemma AugmentShape(context: seq<string>, prompt: string)
    ensures context == [] ==> Augment(context, prompt) == prompt
    ensures context != [] ==>
      var a := Augment(context, prompt);
      && (forall k | 0 <= k < |context| :: Contains(a, context[k]))
      && |a| >= |context[0]| && a[..|context[0]|] == context[0]
      && |a| >= |"\n\nUser question: " + prompt|
      && a[|a| - |"\n\nUser question: " + prompt|..] == "\n\nUser question: " + prompt
  {
    if context != [] {
      var tail := "\n\nUser question: " + prompt;
      var joined := Join(context, "\n\n");
      assert Augment(context, prompt) == joined + tail;
      JoinStartsWithFirst(context, "\n\n");
      assert (joined + tail)[..|context[0]|] == joined[..|context[0]|];
      forall k | 0 <= k < |context| ensures Contains(joined + tail, context[k]) {
        JoinContainsPart(context, "\n\n", k);
        ContainsInPrefix(joined, tail, context[k]);
      }
    }
  }

  /** With the corrected session lookup, a user who logged in with a truthy
      `user_id` has their leave looked up under that id. */
  lemma SessionUserIdReachesLookups(userData: Dict, provider: string, now: int, search: Search, chat: Chat)
    requires Truthy(Get(userData, "user_id"))
    ensures HrAgent(Some(UserFromSession(NewSession(userData, provider, now))),
                    map["prompt" := JStr("leave")], search, chat)
            == Ok(LeaveReply(GetLeaveBalance(Get(userData, "user_id"))))
  {
    var u := UserFromSession(NewSession(userData, provider, now));
    IdentityCarriesUserId(userData, provider, now);
    assert UserId(u) == Get(userData, "user_id");
    LeaveKeyword();
  }

  /** The literal prompt "leave" takes the leave branch. */
  lemma LeaveKeyword()
    ensures Dispatch(Lower("leave")) == LeaveRoute
  {
    assert Lower("leave") == "leave";
    assert "leave"[0..5] == "leave";
    ContainsAt("leave", "leave", 0);
  }

  /** With the session lookup as written, every lookup receives null, whoever
      logged in. */
  lemma AsWrittenLookupsReceiveNull(userData: Dict, provider: string, now: int, search: Search, chat: Chat)
    ensures HrAgent(Some(UserFromSessionAsWritten(NewSession(userData, provider, now))),
                    map["prompt" := JStr("leave")], search, chat)
            == Ok(LeaveReply(GetLeaveBalance(JNull)))
  {
    var u := UserFromSessionAsWritten(NewSession(userData, provider, now));
    AsWrittenIdentityIsNull(userData, provider, now);
    assert u != map[] && UserId(u) == JNull;
    LeaveKeyword();
  }
}
