# HR agent: sessions, OAuth2 login, query routing and retrieval in Dafny

This project models the core of an HR assistant web service. The service has four parts.

- **OAuth2 login.** Users log in with Keycloak or GitHub. The service builds the authorization URLs and runs the two callbacks. Each callback checks its guards in order (code, CSRF state, token exchange, user info). It then builds the stored user record and creates a session.
- **Session table.** Sessions live in an in-memory table. Each expires one hour after creation. A read of an expired session deletes it.
- **HR agent endpoint** (`/v1/completions`). It requires a session user and lower-cases the prompt. It then dispatches by keyword, first match wins: leave balance, team capex, organisation members. Any other prompt goes to a language model, prefixed with the documents that retrieval returns for it.
- **Retrieval service.** It ingests the non-blank `.txt` files of a folder into a vector store, in name order. It returns the stored texts nearest to a query.

The model is split into modules that follow the source files:

| module | models |
|---|---|
| `Json` | Python values, truthiness, `dict.get`, `a or b` and `str()` |
| `Strings` | substring test, `join`/`split`, `lower`, `strip`, string ordering |
| `Http` | responses, raised errors and cookie operations |
| `OAuth2Config` | `app/auth/oauth2_config.py` |
| `OAuth2Service` | `app/auth/oauth2_service.py` |
| `OAuth2Routes` | `app/auth/oauth2_routes.py` |
| `RagService` | `app/rag/rag_service.py` |
| `ApiRoutes` | `app/api/routes.py` |
| `Leave`, `Capex`, `Org` | `app/hr_functions` |

How state and the outside world appear in the model:

- The session table is a class, `OAuth2Service.SessionStore`, whose map field its three methods update in place.
- The vector store is a class, `RagService.VectorStore`, keeping a map from document id to stored text and metadata.
- The ingest loop and the retrieval loop are methods proved against specification functions (`Documents`, `Flatten`).
- The clock is an integer `now`, in seconds.
- A `uuid4()` value is a `freshId` or `freshState` parameter.
- Network calls (token exchange, user info) are `Option` inputs, where `None` is a failed call.
- The nearest-neighbour search and the language model are function parameters.
- A folder is its listing of (name, text) entries, where `None` means the path is missing or is not a directory.

## Model

| member | source | states |
|---|---|---|
| Json.Or | turing_1/hr-agent/app/auth/oauth2_routes.py:71 | `a or b` is truthy iff either operand is; it is `a` when `a` is truthy and `b` otherwise |
| Json.FirstTruthy | turing_1/hr-agent/app/api/routes.py:21 | `a or b or c` is the first truthy operand, the last operand when none is truthy, and truthy iff one operand is |
| Strings.Lower | turing_1/hr-agent/app/api/routes.py:22 | the lower-cased prompt has the same length, holds no upper-case letter, and keeps every other character in place |
| Strings.ContainsLower | turing_1/hr-agent/app/api/routes.py:22-25 | a substring of the prompt stays a substring after both are lower-cased, so keywords match in any case |
| Strings.JoinContainsPart | turing_1/hr-agent/app/api/routes.py:38 | every joined part occurs in the result of `sep.join(parts)` |
| Strings.JoinStartsWithFirst | turing_1/hr-agent/app/api/routes.py:38 | `sep.join(parts)` begins with the first part |
| Strings.JoinSplit | turing_1/hr-agent/app/auth/oauth2_service.py:44 | splitting at a separator and joining with it gives back the string |
| Strings.SplitJoin | turing_1/hr-agent/app/auth/oauth2_service.py:44 | joining separator-free parts and splitting at the separator gives back the parts |
| Strings.Strip | turing_1/hr-agent/app/rag/rag_service.py:58 | `strip()` is empty iff the text is all whitespace; otherwise it neither starts nor ends with whitespace (that only the two ends are removed is `StripWithin`) |
| Strings.StripWithin | turing_1/hr-agent/app/rag/rag_service.py:58 | `strip()` is the slice of the text between an all-whitespace prefix and an all-whitespace suffix: only whitespace at the two ends is removed |
| Strings.StripContained | turing_1/hr-agent/app/rag/rag_service.py:58 | the stripped text occurs in the original text |
| Strings.StripIdempotent | turing_1/hr-agent/app/rag/rag_service.py:58 | stripping twice is stripping once |
| Strings.LexLeTotal | turing_1/hr-agent/app/rag/rag_service.py:57 | any two names are ordered one way or the other |
| Strings.LexLeTransitive | turing_1/hr-agent/app/rag/rag_service.py:57 | the name order is transitive |
| Strings.LexLeAntisymmetric | turing_1/hr-agent/app/rag/rag_service.py:57 | two names ordered both ways are equal, so the sort order is determined |
| OAuth2Config.DefaultProviders | turing_1/hr-agent/app/auth/oauth2_config.py:17-41 | with default settings `IsKeycloakConfigured` holds and `IsGithubConfigured` (client id and secret both non-empty) does not; the session lifetime is 3600 s |
| OAuth2Config.KeycloakConfiguredOnlyByIdAndServer | turing_1/hr-agent/app/auth/oauth2_config.py:48-53 | `IsKeycloakConfigured` depends only on client id and server URL, not on the secret |
| OAuth2Config.KeycloakEndpointsDistinct | turing_1/hr-agent/app/auth/oauth2_config.py:23-25 | the authorize, token and userinfo URLs under the realm prefix are pairwise different |
| OAuth2Service.ParseParamText | turing_1/hr-agent/app/auth/oauth2_service.py:44 | a `key=value` text reads back as its pair when the key holds no `=` |
| OAuth2Service.QueryRoundTrip | turing_1/hr-agent/app/auth/oauth2_service.py:44 | a query joined with `&` reads back as exactly its parameters, in order, when no key or value holds `&` or a key holds `=` |
| OAuth2Service.QueryContains | turing_1/hr-agent/app/auth/oauth2_service.py:44-45 | every `key=value` parameter occurs verbatim in the URL |
| OAuth2Service.KeycloakAuthUrlShape | turing_1/hr-agent/app/auth/oauth2_service.py:37-45 | `KeycloakAuthUrl` is the authorize endpoint, `?`, and a query containing `client_id=`, `response_type=code` and `state=<state>` |
| OAuth2Service.KeycloakAuthUrlRoundTrip | turing_1/hr-agent/app/auth/oauth2_service.py:37-45 | when client id, redirect URI and state hold no `&`, the query of `KeycloakAuthUrl` reads back as client_id, redirect_uri, response_type=code, scope="openid profile email" and state, in that order |
| OAuth2Service.GithubAuthUrlShape | turing_1/hr-agent/app/auth/oauth2_service.py:115-123 | `GithubAuthUrl` is its authorize URL, `?`, and a query containing `client_id=`, `scope=user:email`, `state=<state>` and `allow_signup=true` |
| OAuth2Service.GithubAuthUrlRoundTrip | turing_1/hr-agent/app/auth/oauth2_service.py:115-123 | when client id, redirect URI and state hold no `&`, the query of `GithubAuthUrl` reads back as client_id, redirect_uri, scope=user:email, state and allow_signup=true, in that order |
| OAuth2Service.SessionStore.constructor | turing_1/hr-agent/app/auth/oauth2_config.py:42 | the table starts empty |
| OAuth2Service.SessionStore.CreateSession | turing_1/hr-agent/app/auth/oauth2_service.py:177-200 | the new id maps to a record with the user data, the provider, creation time `now`, expiry `now + 3600` and the user data's access token; no other entry changes |
| OAuth2Service.SessionStore.GetSession | turing_1/hr-agent/app/auth/oauth2_service.py:202-224 | an unknown id gives None and no change; an expired entry (`now > expires_at`) is removed and gives None; a live one is returned and nothing changes; a returned session expires 3600 s after its creation and `now` is within that lifetime |
| OAuth2Service.SessionStore.DeleteSession | turing_1/hr-agent/app/auth/oauth2_service.py:226-240 | returns true iff the id was present; afterwards it is absent and every other entry is unchanged |
| OAuth2Service.LookupAfterCreate | turing_1/hr-agent/app/auth/oauth2_service.py:189-224 | a session created at `t` is returned unchanged by every read up to and including `t + 3600` and by none after |
| OAuth2Service.NewSessionRecord | turing_1/hr-agent/app/auth/oauth2_service.py:192-198 | the stored record's provider, user_data and access_token fields are the arguments and the user data's token (null when absent) |
| OAuth2Service.LookupUnknown | turing_1/hr-agent/app/auth/oauth2_service.py:213-214 | reading an id that is not stored returns None and leaves the table as it was |
| OAuth2Service.LookupFramesOthers | turing_1/hr-agent/app/auth/oauth2_service.py:213-224 | a read leaves every other entry as it was |
| OAuth2Service.LiveEarlier | turing_1/hr-agent/app/auth/oauth2_service.py:220 | a session a read returns at some time is also returned at every earlier time |
| OAuth2Service.LookupWithinTimeout | turing_1/hr-agent/app/auth/oauth2_service.py:213-224 | in a table whose records all expire 3600 s after creation (which every store method keeps), a read returns the stored record, and only until 3600 s after its creation |
| OAuth2Service.LookupAfterDelete | turing_1/hr-agent/app/auth/oauth2_service.py:237-240 | after a delete the id is absent and a read of it returns None |
| OAuth2Service.AsWrittenIdentityIsNull | turing_1/hr-agent/app/auth/oauth2_service.py:258-265 | as written (`UserFromSessionAsWritten`), the user dict of any created session has null `uid`, `sub` and `email` |
| OAuth2Service.IdentityCarriesUserId | turing_1/hr-agent/app/auth/oauth2_service.py:258-265 | read from the user data, `uid` and `sub` are both the stored `user_id` and `email` the stored email |
| OAuth2Service.GetUserFromSession | turing_1/hr-agent/app/auth/oauth2_service.py:243-266 | no or empty cookie gives None and no change; otherwise the read's effect on the table, and for a live session the corrected user dict (`user_id` and `email` read from the user data, see Findings), None otherwise |
| OAuth2Routes.KeycloakLoginOutcome | turing_1/hr-agent/app/auth/oauth2_routes.py:20-38 | `KeycloakLogin` answers 503 exactly when Keycloak is not configured; otherwise it redirects to the Keycloak URL carrying the state, and sets an `oauth_state` cookie holding that same state |
| OAuth2Routes.GithubLoginOutcome | turing_1/hr-agent/app/auth/oauth2_routes.py:98-112 | `GithubLogin` answers 503 exactly when GitHub is not configured; otherwise it redirects to the GitHub URL carrying the state, with no cookie |
| OAuth2Routes.KeycloakCallbackGuards | turing_1/hr-agent/app/auth/oauth2_routes.py:46-64 | `KeycloakCallbackDecision` succeeds iff code, state check, token exchange and user info all pass; a failure is 400 iff the code or the state check failed, else 500; each of the four guards, when it is the first to fail, gives its own detail |
| OAuth2Routes.KeycloakCallbackChecksState | turing_1/hr-agent/app/auth/oauth2_routes.py:49-52 | a successful callback carried a non-empty state equal to the `oauth_state` cookie |
| OAuth2Routes.KeycloakUserRecord | turing_1/hr-agent/app/auth/oauth2_routes.py:67-76 | `user_id` is `sub` if truthy, else `preferred_username`; `username` is the first truthy of preferred_username, username, name; the token is the exchanged one; the provider is keycloak |
| OAuth2Routes.GithubCallbackGuards | turing_1/hr-agent/app/auth/oauth2_routes.py:114-144 | `GithubCallbackDecision` ignores `state`; it succeeds iff code, exchange and user info pass; 400 only for a missing code; the record has user_id = id and username = login |
| OAuth2Routes.KeycloakCallback | turing_1/hr-agent/app/auth/oauth2_routes.py:40-92 | on a guard failure the error is raised and the table is unchanged; on success exactly one new session (provider keycloak), a `session_id` cookie with its id and the removal of `oauth_state` |
| OAuth2Routes.GithubCallback | turing_1/hr-agent/app/auth/oauth2_routes.py:114-158 | on a guard failure the error is raised and the table is unchanged; on success exactly one new session (provider github) and a `session_id` cookie with its id |
| OAuth2Routes.GetCurrentUser | turing_1/hr-agent/app/auth/oauth2_routes.py:164-183 | no cookie gives 401 "Not authenticated" and no change; otherwise the answer for what the session read returns, with the read's effect on the table |
| OAuth2Routes.MeReportsSession | turing_1/hr-agent/app/auth/oauth2_routes.py:170-183 | `MeResponse` is 401 iff no live session; otherwise it reports the session's provider; for sessions the callbacks create, the reported username is the one the callback stored |
| OAuth2Routes.Logout | turing_1/hr-agent/app/auth/oauth2_routes.py:185-200 | always succeeds and clears the `session_id` cookie; with a cookie exactly that session is removed, other sessions are untouched |
| OAuth2Routes.ProvidersAgreeWithKeycloakLogin | turing_1/hr-agent/app/auth/oauth2_routes.py:202-218 | `Providers` lists Keycloak as available exactly when `KeycloakLogin` does not answer 503 |
| OAuth2Routes.ProvidersAgreeWithGithubLogin | turing_1/hr-agent/app/auth/oauth2_routes.py:202-218 | `Providers` lists GitHub as available exactly when `GithubLogin` does not answer 503 |
| Leave.GetLeaveBalance | turing_1/hr-agent/app/hr_functions/leave.py:2-9 | echoes the uid; 12 annual, 6 sick and 4 casual days |
| Leave.LeaveBalanceIgnoresUid | turing_1/hr-agent/app/hr_functions/leave.py:2-9 | the balance depends on the uid only through the echoed field |
| Capex.GetTeamCapex | turing_1/hr-agent/app/hr_functions/capex.py:2-9 | manager is the uid; a named team; total between 500 000 and 5 000 000; 0 < bonus < total; bonus is 10 % to 30 % of total |
| Capex.TeamCapexIgnoresUid | turing_1/hr-agent/app/hr_functions/capex.py:2-9 | the figures depend on the uid only through the manager field |
| Org.GetOrgMembers | turing_1/hr-agent/app/hr_functions/org.py:3-9 | manager is the uid; 1 to 15 members, each non-empty, no two equal |
| Org.OrgMembersIgnoreUid | turing_1/hr-agent/app/hr_functions/org.py:3-9 | the member list is the same for every uid |
| RagService.TxtFiles | turing_1/hr-agent/app/rag/rag_service.py:57 | the selected entries are exactly the listing's entries whose name ends in `.txt` |
| RagService.InsertKeepsSorted | turing_1/hr-agent/app/rag/rag_service.py:57 | inserting into a name-sorted list keeps it sorted |
| RagService.SortByName | turing_1/hr-agent/app/rag/rag_service.py:57 | the result is sorted by name and is a permutation of the input |
| RagService.CollectDocuments | turing_1/hr-agent/app/rag/rag_service.py:52-63 | the three lists have equal length; at each index the id is a file name, the document its stripped text and the metadata source the same name; together they are exactly the non-blank files in file order |
| RagService.DocumentsProvenance | turing_1/hr-agent/app/rag/rag_service.py:56-63 | a document is collected iff some file has that name and that non-empty stripped text |
| RagService.DocumentsEmpty | turing_1/hr-agent/app/rag/rag_service.py:59-67 | nothing is collected iff every file's text is all whitespace |
| RagService.DocumentsSorted | turing_1/hr-agent/app/rag/rag_service.py:56-57 | documents from name-sorted files have ids in name order |
| RagService.AddRecordsEffect | turing_1/hr-agent/app/rag/rag_service.py:80 | after the add, the stored ids are the old ones plus the given ids; each given id holds the document and metadata of one of its positions; other ids are untouched |
| RagService.VectorStore.Delete | turing_1/hr-agent/app/rag/rag_service.py:74 | the store becomes the delete of its old contents |
| RagService.VectorStore.Add | turing_1/hr-agent/app/rag/rag_service.py:80 | the store becomes the add to its old contents |
| RagService.IngestDocumentsFromFolder | turing_1/hr-agent/app/rag/rag_service.py:41-82 | no folder: "no_folder" and no change; no non-blank `.txt` file: "no_docs" and no change; otherwise "ingested" with the document count, and same-id records deleted before the new ones are added |
| RagService.IngestedRecords | turing_1/hr-agent/app/rag/rag_service.py:72-82 | after ingest the stored ids are the old ones plus the ingested ones; a record under an ingested id names it as source and holds the non-empty stripped text of a `.txt` file of that name; other ids keep their records |
| RagService.IngestCoversFiles | turing_1/hr-agent/app/rag/rag_service.py:56-80 | after ingest every `.txt` file whose text is not all whitespace has a record under its name, with that name as source |
| RagService.IngestIdempotent | turing_1/hr-agent/app/rag/rag_service.py:72-80 | ingesting the same documents again leaves the store as one ingest does |
| RagService.IngestCount | turing_1/hr-agent/app/rag/rag_service.py:82 | the reported count is the number of `.txt` entries whose text is not all whitespace |
| RagService.GetRelevantContext | turing_1/hr-agent/app/rag/rag_service.py:85-107 | the nested loop returns `[]` for an empty query or a failed search, else the per-query lists concatenated in order |
| RagService.FlattenAppend | turing_1/hr-agent/app/rag/rag_service.py:102-107 | concatenating the lists of two result batches is concatenating their concatenations |
| RagService.FlattenMembership | turing_1/hr-agent/app/rag/rag_service.py:102-107 | a text is in the context iff some per-query list holds it |
| RagService.RelevantContextCases | turing_1/hr-agent/app/rag/rag_service.py:91-107 | `RelevantContext` is `[]` for an empty query and for a failed search; otherwise it holds exactly the returned texts |
| ApiRoutes.UnauthenticatedRejected | turing_1/hr-agent/app/api/routes.py:13-22 | without a user `HrAgent` answers 401 whatever the body, retrieval or model; it fails iff there is no user or no string prompt |
| ApiRoutes.LookupsReceiveUserId | turing_1/hr-agent/app/api/routes.py:21-32 | every HR lookup receives uid, else sub, else email |
| ApiRoutes.LeaveWins | turing_1/hr-agent/app/api/routes.py:22-26 | a prompt holding "leave" in any letter case gets the leave balance, whatever other keywords it holds |
| ApiRoutes.DispatchOrder | turing_1/hr-agent/app/api/routes.py:25-32 | capex is chosen iff "capex" and not "leave"; org iff "team" or "organization" and neither earlier keyword |
| ApiRoutes.ModelOnlyWithoutKeywords | turing_1/hr-agent/app/api/routes.py:25-42 | the model is consulted iff no keyword occurs, and then it gets the prompt augmented with the top-3 retrieved documents |
| ApiRoutes.AugmentShape | turing_1/hr-agent/app/api/routes.py:37-40 | without documents the prompt is sent unchanged; otherwise the sent text begins with the first document, holds every document and ends with "User question: " and the prompt |
| ApiRoutes.SessionUserIdReachesLookups | turing_1/hr-agent/app/api/routes.py:16-26 | with the corrected session lookup, a leave query is answered for the logged-in user's `user_id` |
| ApiRoutes.AsWrittenLookupsReceiveNull | turing_1/hr-agent/app/api/routes.py:16-26 | with the session lookup as written, a leave query is answered for a null uid, whoever logged in |

## Findings

| source | as written | input that shows it | evidently intended | confidence | as-written member | corrected member |
|---|---|---|---|---|---|---|
| turing_1/hr-agent/app/auth/oauth2_service.py:258-265 | `uid`, `sub` and `email` are read from the top level of the session record, which only has user_data, provider, created_at, expires_at and access_token | a Keycloak login with `sub = "u1"`: the session's user dict has `uid = None`, and `/v1/completions` looks up leave, capex and org for `None` | read `user_id` and `email` from `session["user_data"]`, where both callbacks store them | not executed | OAuth2Service.AsWrittenIdentityIsNull | OAuth2Service.IdentityCarriesUserId |

`OAuth2Service.GetUserFromSession` and the router use the corrected user dict. `ApiRoutes.AsWrittenLookupsReceiveNull` shows the effect of the code as written end to end.

## Left out

- Json.PyStr: `str()` of a list or a dict (Python's repr) is not rendered and comes out empty. It only matters for the GitHub welcome message when the login is not a scalar.
- Strings.Lower: only ASCII letters are folded. Python's Unicode `lower()` (e.g. for accented letters) is not modelled.
- Timestamps are integer seconds. The ISO-8601 text of `created_at`/`expires_at`, microseconds, and the second `utcnow()` read for `created_at` (microseconds after the one used for the expiry) are not modelled.
- `uuid4()` is a caller-supplied id assumed not to be in use. A collision is not modelled.
- Token exchange and user-info requests (`exchange_keycloak_code`, `get_keycloak_user_info`, `exchange_github_code`, `get_github_user_info`) are network I/O. Only their result (a dict, or None on failure) is an input.
- Embedding (`_embed_texts`), Chroma's similarity ranking and `persist()` are foreign library calls. The search is a function parameter returning the per-query document lists, or None when it raises. A result without `documents` is the empty list.
- Exceptions from the embedding model and the vector store are not modelled, except a failing search. Each of these would propagate out of the source:
  - embedding the query (`rag_service.py` line 95, outside the `try`);
  - embedding the documents (line 70);
  - `add` (line 80), which after a successful delete leaves the old records removed and the new ones not added;
  - `persist` (line 81).
- RagService.VectorStore.Delete: a failing delete, which the source ignores, is not modelled. Deleting absent ids simply changes nothing.
- Reading files: a directory named `*.txt`, unreadable files and UTF-8 decoding errors are not modelled.
- The `scripts/ingest_policies.py` script and `app/main.py` only do I/O and wiring. They are not part of this model.
- The language model call (`llm/ollama_client.py`) is an uninterpreted function. Its HTTP errors are not modelled.
- ApiRoutes.HrAgent: a body without a string `prompt` raises in the source (KeyError or AttributeError). The model reports this as a 500 "Internal Server Error" without distinguishing the exception.
- Cookie attributes (`httponly`, `secure`) and the framework's query-parameter parsing are not modelled.
- Requests run one at a time. Concurrent access to the shared session table is not modelled.
- Floating-point JSON values are not modelled.
