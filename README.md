# Linkify web client: session, callback and analysis core in Dafny

This project models the core of the Linkify web client. The client is a React app that runs either on its own or inside an iframe of the Linkify browser extension. The model covers four parts:

- **The session state machine of the auth provider** (`src/contexts/AuthContext.js`). It covers the stored token under `linkify_token`, the default `Authorization` header, the current user and the `loading` flag, and how they change through each of these:
  - the startup check;
  - the extension's `RESTORE_AUTH` and `EXTENSION_AUTH_TOKEN` messages;
  - `login` and `logout`;
  - the mount/unmount effect. In a frame, that effect registers the listener and posts `LINKIFY_READY`.
- **The backend client** (`src/services/api.js`). It covers:
  - the base address;
  - `setAuthToken`;
  - the request interceptor, which attaches the stored token;
  - the response interceptor, which removes the token and goes to `/login` on a 401;
  - the serialised `analyzeCompanyData` body;
  - the `handleApiCall` error fallback chain.
- **The analysis page** (`src/pages/Companies.js`). It covers:
  - the `LINKIFY_EXTENSION_DATA` workflow: analyze, then `START_PEOPLE_SEARCH` to the parent window;
  - the append-only list of `LINKIFY_PEOPLE_RESULT` fragments;
  - the grouping of fragments by persona type;
  - the persona cards, where each card shows the first fragment of its type.
- **The OAuth callback page** (`src/pages/AuthCallback.js`). It is a decision procedure that turns the `token`/`error` query parameters, the verify outcome and `isInExtension` into a list of effects. `Run` applies those effects to the session state, and `Callback` settles the check that `login` started once they have run.

Design of the model:

- Each transition is first a function on a state record: `AuthState` for the provider, `PageState` for the page. The `Env` part of each state holds the window and the client.
- The classes `Browser.Window`, `Api.ApiService`, `AuthContext.AuthProvider` and `Companies.CompaniesPage` hold the fields the source updates. Their methods perform the same transitions step by step, and each is proved to end in the state the function gives.
- A backend call is a parameter: the verify answer, the logout failure, the analysis response. Calls are not executed.
- The window keeps one append-only log of listener registrations, removals and posted messages. This makes their relative order a provable property.
- Every request is logged with the headers the request interceptor computed at the moment it was sent. This is how "the token is persisted before verify" is stated.

Modules:

- `js.dfy` (`Js`): JavaScript truthiness, `||`, `String(undefined)`, `split`/`join` with a one-character separator, and JSON values.
- `protocol.dfy` (`Protocol`): message tags and records.
- `browser.dfy` (`Browser`): the window and its event log.
- `api.dfy` (`Api`)
- `auth_context.dfy` (`AuthContext`)
- `companies.dfy` (`Companies`)
- `auth_callback.dfy` (`AuthCallback`)

### Behaviour worth knowing

The code behaves as follows in a few places where another reading would be natural:

- `LINKIFY_EXTENSION_DATA` does not reset the list of people results. Fragments of an earlier analysis stay and are grouped with later ones (`Companies.WorkflowKeepsResults`).
- In a frame, the session listener is registered *before* `LINKIFY_READY` is posted (`AuthContext.MountOrder`).
- The startup check is still in flight when READY is posted. A `RESTORE_AUTH` that arrives in the meantime is undone by a stale invalid answer: the restored token is removed while the restored user stays (`AuthContext.StaleCheckDropsRestoredToken`). A logout during an `EXTENSION_AUTH_TOKEN` verify is undone the same way by a valid answer (`AuthContext.LogoutDuringTokenVerify`).
- A `valid: false` answer to the startup check, or to the check `login` starts, clears the token and the header but leaves `user` as it was (`AuthContext.CheckRejected`, `AuthContext.InvalidVerifyKeepsUser`). A `valid: false` answer to `EXTENSION_AUTH_TOKEN`'s verify keeps the token stored (`AuthContext.TokenPersistedBeforeVerify`), and one to the callback page's own verify changes nothing.
- `EXTENSION_AUTH_TOKEN` is not idempotent. The registered listener runs with `isInExtension` false. For it, a second delivery with the same answer ends in the same session, posts nothing and only sends one more verify request (`AuthContext.TokenRedeliveryOutsideExtension`). Only a handler run with `isInExtension` true would post `LINKIFY_AUTH_SUCCESS` again with each delivery (`AuthContext.TokenRedeliveryRepeats`). `RESTORE_AUTH` is idempotent (`AuthContext.RestoreIdempotent`).
- The analysis page sends `user.domain`, not the account domain derived from the email (`Companies.ExtensionDataStartsAnalysis`).
- The `accountDomain` field of `RESTORE_AUTH` is read but never used.
- A 401 removes the stored token but leaves the default header set. For a present token, `AuthContext.TokenKeepsConsistent` excludes exactly that case.
- An `EXTENSION_AUTH_TOKEN` message without a `token` stores the text `undefined` under `linkify_token` and deletes the default header. The verify request therefore goes out as `Bearer undefined`, and unless the answer is a 401, header and storage disagree afterwards (`AuthContext.MissingTokenStoresUndefined`).
- A fresh client has no default header, whatever is stored. The startup check brings header and storage into agreement, from which the other transitions keep it (`AuthContext.MountEstablishesConsistent`, `AuthContext.TransitionsKeepConsistent`).
- The callback page's `login` starts a check it does not await, so two verify requests are in flight together. Whichever answers first, login's check decides the user, and an invalid or failed login check removes the token and deletes the header. A 401 on the callback's own verify with a valid login check leaves the header attached with no token stored (`AuthCallback.CallbackSession`, `AuthCallback.EitherAnswerFirst`).
- The callback effect lists `login` among its dependencies, and `login` is a new function on every render of the provider. Each `setUser` of a settled check therefore re-renders the provider and re-runs the callback: it logs in and verifies again. Inside the extension nothing navigates away, so this plausibly repeats with every answer and posts LINKIFY_AUTH_SUCCESS each time. The model runs the callback once.
- `window.parent` is never null in a browser: a top-level window is its own parent. So the `window.parent` guards always pass, and a page that is not framed posts START_PEOPLE_SEARCH to itself. The model keeps `hasParent` as a free flag of the window; its `false` case does not occur in a browser.
- The provider's message listener is registered once, at mount. It therefore closes over the first render's `isInExtension`, which is `false`. The model takes `inExtension` as a parameter of `AuthProvider.HandleExtensionMessage`; with `false`, `AuthContext.TokenNotifiesOnlyWhenValid` shows that nothing is posted. Likewise, the page's listener closes over the `user` of the page's first render; `user` is a parameter of `CompaniesPage.HandleWindowMessage`.

## Model

| member | source | states |
|---|---|---|
| Js.Split | src/contexts/AuthContext.js:93-95 | `split` for a one-character separator: at least one piece, no piece contains the separator, exactly one piece iff the separator is absent, and joining the pieces gives the text back |
| Js.SplitJoin | src/contexts/AuthContext.js:93-95 | the other round trip: splitting a join of separator-free pieces gives the pieces back |
| Js.SplitAfterPiece | src/contexts/AuthContext.js:93-95 | splitting `a + sep + b` with `a` separator-free is `[a]` followed by the split of `b` |
| Js.SplitPiece | src/contexts/AuthContext.js:93-95 | a separator-free text splits into itself alone |
| Js.JoinFirstPiece | src/contexts/AuthContext.js:93-95 | the first piece is a prefix of the joined text and is followed there by the separator when more pieces follow |
| Protocol.InboundTag | src/contexts/AuthContext.js:69-76 | every recognised inbound message carries a `type` |
| Protocol.InboundTagsDistinct | src/pages/Companies.js:44-89 | the `type` field determines which handler branch a well-tagged inbound message takes |
| Protocol.OutboundTagsDistinct | src/contexts/AuthContext.js:31 | the three outbound tags are distinct, so the host can tell READY, AUTH_SUCCESS and START_PEOPLE_SEARCH apart |
| Browser.PostedAppend | src/contexts/AuthContext.js:31 | logging an event adds to the outbox exactly that event's message, if it is a post |
| Browser.PostedPrefix | src/contexts/AuthContext.js:31 | posted messages are never withdrawn: the outbox only grows |
| Browser.ListeningAppend | src/contexts/AuthContext.js:28-36 | whether a listener is registered changes only through its own add/remove |
| Browser.Window.SetItem | src/contexts/AuthContext.js:72 | `localStorage.setItem` updates that key and nothing else |
| Browser.Window.RemoveItem | src/contexts/AuthContext.js:55 | `localStorage.removeItem` removes that key and nothing else |
| Browser.Window.Log | src/contexts/AuthContext.js:28-31 | adding a listener or posting appends one event and changes nothing else |
| Browser.Window.constructor | src/contexts/AuthContext.js:23 | a window starts with its framing, parent, storage, location and an empty event log |
| Api.BaseUrl | src/services/api.js:3 | the configured base address when truthy, else `http://localhost:3001`; never empty |
| Api.Bearer | src/services/api.js:19 | the header value is `Bearer ` followed by exactly the token |
| Api.BearerInjective | src/services/api.js:19 | distinct tokens give distinct header values |
| Api.StoredToken | src/services/api.js:17 | `getItem` is present exactly when the key is stored, with the stored value |
| Api.AttachedHeader | src/services/api.js:41-47 | `setAuthToken` sets the default header for a truthy token, to its bearer value, and deletes it otherwise |
| Api.DefaultHeaders | src/services/api.js:7-12 | the headers the client configures: the JSON content type plus the default `Authorization` when one is set (axios's own common defaults are not modelled) |
| Api.RequestHeaders | src/services/api.js:15-26 | a truthy stored token sets `Authorization` to its bearer value; all other headers are untouched; without one the headers are unchanged |
| Api.RequestHeadersIdempotent | src/services/api.js:15-26 | running the request interceptor twice equals running it once |
| Api.OutgoingAuthorization | src/services/api.js:15-26 | the `Authorization` a request carries: the stored token wins over the default header, which is used only when no truthy token is stored |
| Api.AnalyzeCompanyBody | src/services/api.js:165-171 | the body has at most the three members, each present exactly when its argument is defined |
| Api.AnalyzeBodyRoundTrip | src/services/api.js:165-171 | reading the three members back from the body gives the three arguments unchanged |
| Api.AttachToken | src/services/api.js:41-47 | `setAuthToken` changes only the default header, to `AttachedHeader(token)` |
| Api.AttachTokenIdempotent | src/services/api.js:41-47 | attaching the same token twice equals attaching it once |
| Api.SendRequest | src/services/api.js:50-56 | a request is appended with the headers the interceptor computes from storage and defaults at send time; nothing else changes |
| Api.RejectResponse | src/services/api.js:29-38 | a 401 removes the token and sets the location to `/login`; any other error changes nothing; a token is never added |
| Api.ApiService.constructor | src/services/api.js:6-12 | the client starts with no default `Authorization` and no requests |
| Api.ApiService.SetAuthToken | src/services/api.js:41-47 | the client's new state is `AttachToken` of the old one |
| Api.ApiService.Send | src/services/api.js:15-26 | the client's new state is `SendRequest` of the old one |
| Api.ApiService.Reject | src/services/api.js:29-38 | the error is passed on unchanged and the window's new state is `RejectResponse` of the old one |
| Api.HandleApiCall | src/services/api.js:186-197 | success gives `{data, error: null}`; failure gives no data and the first truthy of the response's `error`, the error message and the fallback (default `API call failed`), which is non-empty unless the caller passes `""` |
| AuthContext.AccountDomain | src/contexts/AuthContext.js:93-95 | without a truthy email: the account domain or `""`; with one: defined iff the email has an `@`, and then free of `@` |
| AuthContext.AccountDomainAfterFirstAt | src/contexts/AuthContext.js:93-95 | for `local@rest`, the domain is the prefix of `rest` up to the next `@` or its end |
| AuthContext.AccountDomainOfAddress | src/contexts/AuthContext.js:93-95 | with exactly one `@`, the domain is everything after it |
| AuthContext.AccountDomainExample | src/pages/AuthCallback.js:35-37 | `a@x.com` gives `x.com` |
| AuthContext.CheckWithoutToken | src/contexts/AuthContext.js:43-47 | without a truthy stored token only `loading` drops: no request, user unchanged |
| AuthContext.CheckValid | src/contexts/AuthContext.js:49-53 | a valid answer adopts the returned user, keeps the token, and the one verify request carries `Bearer <stored token>` |
| AuthContext.CheckRejected | src/contexts/AuthContext.js:54-61 | an invalid or failed verify removes the token and the header, ends loading, and leaves `user` as it was |
| AuthContext.CheckEnds | src/contexts/AuthContext.js:62-64 | on every path loading ends, nothing is posted, and at most one verify request is added |
| AuthContext.CheckScenario | src/contexts/AuthContext.js:41-65 | stored `abc` with a valid answer for `a@x.com` ends authenticated with account domain `x.com` |
| AuthContext.RestoreAdopts | src/contexts/AuthContext.js:69-75 | a truthy `auth.token` is stored and attached and `auth.user` adopted, with no request and no post |
| AuthContext.RestoreIgnored | src/contexts/AuthContext.js:71 | without `auth` or a truthy token nothing changes |
| AuthContext.RestoreIdempotent | src/contexts/AuthContext.js:69-75 | delivering the same RESTORE_AUTH n ≥ 1 times equals delivering it once, and sends and posts nothing |
| AuthContext.RestoreScenario | src/contexts/AuthContext.js:69-75 | the restore of `t1` for `u@acme.com` is adopted without a verify call |
| AuthContext.TokenPersistedBeforeVerify | src/contexts/AuthContext.js:81-86 | the token is stored and the header attached before verify, so the verify request carries `Bearer <token>`; afterwards the token stays stored, except after a 401, which removes it and goes to `/login` |
| AuthContext.TokenNotifiesOnlyWhenValid | src/contexts/AuthContext.js:86-99 | `user` changes only on a valid answer, and then to the answer's user; LINKIFY_AUTH_SUCCESS with the derived domain is posted exactly once when the answer is valid with a user, in the extension, with a parent, and otherwise not at all |
| AuthContext.NotifyGuard | src/contexts/AuthContext.js:106-115 | `notifyExtensionAuth` posts `{token, user, accountDomain}` exactly when `isInExtension && window.parent`, and changes nothing else |
| AuthContext.TokenRedeliveryRepeats | src/contexts/AuthContext.js:76-99 | when the handler runs with `isInExtension` true, a second delivery of the same token with a valid answer verifies and notifies a second time |
| AuthContext.TokenRedeliveryOutsideExtension | src/contexts/AuthContext.js:76-103 | for the listener as registered (`isInExtension` false), a second delivery with the same answer leaves user, loading, storage, header and location as after the first, posts nothing, and adds exactly one request |
| AuthContext.TokenOutsideExtension | src/contexts/AuthContext.js:76-103 | with `isInExtension` false, the new user, loading, storage, header, location, events and request count of EXTENSION_AUTH_TOKEN written out for every answer |
| AuthContext.RejectResponseFrame | src/services/api.js:29-38 | the response interceptor changes only the storage and the location, and those only on a 401 |
| AuthContext.OtherMessagesIgnored | src/contexts/AuthContext.js:68-103 | messages other than the two session messages change nothing |
| AuthContext.LoginValid | src/contexts/AuthContext.js:117-121 | `login` with a valid answer ends with the user adopted, the token stored and attached, loading false, header and storage in agreement |
| AuthContext.LogoutClears | src/contexts/AuthContext.js:123-133 | `logout` sends one logout request and, whether it fails or not, ends with no token, no header and no user |
| AuthContext.MountOrder | src/contexts/AuthContext.js:19-32 | the mount effect sets `isInExtension` to the framing and, in a frame only, logs the listener registration and then READY, in that order |
| AuthContext.FramedLifecycleEvents | src/contexts/AuthContext.js:26-37 | after a framed mount the listener is on; after unmount it is off; READY is the one message posted |
| AuthContext.MountThenUnmount | src/contexts/AuthContext.js:19-39 | mount then unmount leaves the session listener registered iff framed in between and off after, and posts READY exactly once in a frame, nothing otherwise |
| AuthContext.CheckKeepsConsistent | src/contexts/AuthContext.js:41-65 | the startup check keeps the default header in agreement with the stored token, whatever the answer |
| AuthContext.TransitionsKeepConsistent | src/contexts/AuthContext.js:41-133 | the startup check, RESTORE_AUTH, login and logout keep the default header in agreement with the stored token |
| AuthContext.MissingTokenStoresUndefined | src/contexts/AuthContext.js:78-86 | without a `token`, the text `undefined` is stored, the header deleted and the verify sent with `Bearer undefined`; after any answer but a 401, header and storage disagree |
| AuthContext.MountEstablishesConsistent | src/contexts/AuthContext.js:19-64 | from a client with no default header, the mount effect leaves header and storage in agreement, both with the check in flight and once it settles |
| AuthContext.TokenKeepsConsistent | src/contexts/AuthContext.js:81-103 | for a present token, EXTENSION_AUTH_TOKEN keeps header and storage in agreement for every answer except a 401 |
| AuthContext.LoginSplits | src/contexts/AuthContext.js:117-121 | for a non-empty token, `login` always leaves its check pending, and settling it after `LoginBegun` gives `LoggedIn` |
| AuthContext.LoginBegun | src/contexts/AuthContext.js:117-121 | no contract; `setItem`, `setAuthToken`, then `checkAuthStatus` up to its `await`; pinned by `LoginSplits`, `AuthCallback.CallsVerifyWithToken` and `AuthCallback.CallbackSession` |
| AuthContext.LoginKeepsWindow | src/contexts/AuthContext.js:117-121 | whatever its check answers, `login` posts nothing, keeps the framing, sends exactly one request and leaves either its token or nothing stored |
| AuthContext.StaleCheckDropsRestoredToken | src/contexts/AuthContext.js:20-75 | after a framed mount has posted READY with the check in flight, a RESTORE_AUTH is adopted, and a later invalid or failed answer removes its token and header but keeps its user; had the check settled first, the token would survive |
| AuthContext.LogoutDuringTokenVerify | src/contexts/AuthContext.js:83-132 | a logout while an EXTENSION_AUTH_TOKEN verify is in flight clears the user, and a later valid answer signs the user in again with no token and no header |
| AuthContext.InvalidVerifyKeepsUser | src/contexts/AuthContext.js:52-57 | an invalid verify during `login` clears token and header but leaves a signed-in user set |
| AuthContext.CheckBegun | src/contexts/AuthContext.js:41-50 | no contract; pinned by `CheckWithoutToken`, `CheckValid`, `CheckEnds` and `StaleCheckDropsRestoredToken` |
| AuthContext.CheckSettled | src/contexts/AuthContext.js:52-64 | no contract; pinned by `CheckValid`, `CheckRejected` and `StaleCheckDropsRestoredToken` |
| AuthContext.Checked | src/contexts/AuthContext.js:41-65 | no contract; pinned by `CheckWithoutToken`, `CheckValid`, `CheckRejected`, `CheckEnds` and `TransitionsKeepConsistent` |
| AuthContext.Restored | src/contexts/AuthContext.js:69-75 | no contract; pinned by `RestoreAdopts`, `RestoreIgnored` and `RestoreIdempotent` |
| AuthContext.Notified | src/contexts/AuthContext.js:106-115 | no contract; pinned by `NotifyGuard` |
| AuthContext.TokenSent | src/contexts/AuthContext.js:78-86 | no contract; pinned by `TokenPersistedBeforeVerify` and `LogoutDuringTokenVerify` |
| AuthContext.TokenSettled | src/contexts/AuthContext.js:86-102 | no contract; pinned by `TokenNotifiesOnlyWhenValid` and `LogoutDuringTokenVerify` |
| AuthContext.TokenAccepted | src/contexts/AuthContext.js:76-103 | no contract; pinned by `TokenPersistedBeforeVerify`, `TokenNotifiesOnlyWhenValid`, `TokenRedeliveryRepeats` and `TokenKeepsConsistent` |
| AuthContext.Handled | src/contexts/AuthContext.js:68-103 | no contract; pinned by `RestoreScenario` and `OtherMessagesIgnored` |
| AuthContext.LoggedIn | src/contexts/AuthContext.js:117-121 | no contract; pinned by `LoginValid` and `InvalidVerifyKeepsUser` |
| AuthContext.LoggedOut | src/contexts/AuthContext.js:123-133 | no contract; pinned by `LogoutClears` |
| AuthContext.MountBegun | src/contexts/AuthContext.js:19-32 | no contract; pinned by `StaleCheckDropsRestoredToken` and `MountOrder` |
| AuthContext.Mounted | src/contexts/AuthContext.js:19-33 | no contract; pinned by `MountOrder` and `MountThenUnmount` |
| AuthContext.Unmounted | src/contexts/AuthContext.js:34-38 | no contract; pinned by `MountThenUnmount` |
| AuthContext.AuthProvider.constructor | src/contexts/AuthContext.js:15-17 | the provider starts with no user, `loading` true and `isInExtension` false |
| AuthContext.AuthProvider.ClearStoredSession | src/contexts/AuthContext.js:55-56 | the new state is the old one with the token removed and the header deleted |
| AuthContext.AuthProvider.StoreToken | src/contexts/AuthContext.js:72-73 | the new state is the old one with the token stored (as `String(token)`) and attached |
| AuthContext.AuthProvider.BeginCheck | src/contexts/AuthContext.js:41-50 | reports whether verify was called, and the new state is `CheckBegun` of the old one |
| AuthContext.AuthProvider.SettleCheck | src/contexts/AuthContext.js:52-64 | the new state is `CheckSettled` of the old one |
| AuthContext.AuthProvider.CheckAuthStatus | src/contexts/AuthContext.js:41-65 | the new state is `Checked` of the old one |
| AuthContext.AuthProvider.ReceiveToken | src/contexts/AuthContext.js:78-86 | the new state is `TokenSent` of the old one |
| AuthContext.AuthProvider.SettleToken | src/contexts/AuthContext.js:86-102 | the new state is `TokenSettled` of the old one |
| AuthContext.AuthProvider.NotifyExtensionAuth | src/contexts/AuthContext.js:106-115 | the new state is the old one with `Notified` applied to the window |
| AuthContext.AuthProvider.HandleExtensionMessage | src/contexts/AuthContext.js:68-103 | the new state is `Handled` of the old one |
| AuthContext.AuthProvider.Login | src/contexts/AuthContext.js:117-121 | the new state is `LoggedIn` of the old one |
| AuthContext.AuthProvider.Logout | src/contexts/AuthContext.js:123-133 | the new state is `LoggedOut` of the old one |
| AuthContext.AuthProvider.BeginMount | src/contexts/AuthContext.js:19-32 | reports whether the startup check awaits an answer, and the new state is `MountBegun` of the old one |
| AuthContext.AuthProvider.Mount | src/contexts/AuthContext.js:19-33 | the new state is `Mounted` of the old one |
| AuthContext.AuthProvider.Unmount | src/contexts/AuthContext.js:34-38 | the new state is `Unmounted` of the old one |
| Companies.GroupAppend | src/pages/Companies.js:20-25 | appending a fragment extends only its own group, by that fragment, and the typed count by one when it is typed |
| Companies.GroupMembers | src/pages/Companies.js:21-23 | a group holds exactly the non-null fragments whose truthy `personaType` is that type |
| Companies.GroupEmpty | src/pages/Companies.js:21-22 | a group is empty exactly when no fragment has that type |
| Companies.GroupFirst | src/pages/Companies.js:22-23 | the head of a non-empty group is the earliest fragment of that type |
| Companies.GroupSizesSum | src/pages/Companies.js:20-25 | over distinct types covering those present, the group sizes sum to the number of typed fragments |
| Companies.HitsOnce | src/pages/Companies.js:21-23 | a typed fragment joins exactly one group among distinct types that include its own |
| Companies.HitsAbsent | src/pages/Companies.js:21 | a null or untyped fragment, or one whose type is not listed, joins none of the listed groups |
| Companies.SumSizesAppend | src/pages/Companies.js:20-25 | appending a fragment adds to the group-size total exactly the number of groups it joins |
| Companies.SumSizesEmpty | src/pages/Companies.js:20-25 | with no fragments every group is empty |
| Companies.GroupScenario | src/pages/Companies.js:20-25 | two `decision_maker` fragments and a `champion` give groups of two and one, in arrival order |
| Companies.PersonaCards | src/pages/Companies.js:163-167 | the cards are the personas with at least one match, in their order, with none missing; each card shows the first match of its type |
| Companies.PersonaCardsMultiplicity | src/pages/Companies.js:163-167 | each persona with a match gets exactly as many cards as it occurs in the list, and every other persona none |
| Companies.CompanyInfo | src/pages/Companies.js:18 | `company_information` when `analysis_data` is present, else null |
| Companies.PersonasOf | src/pages/Companies.js:19 | `personas` when present under `analysis_data`, else the empty list |
| Companies.SearchPersonas | src/pages/Companies.js:69-74 | one search entry per persona, same order, with exactly its `type` and `linkedin_search_title` |
| Companies.StartSearchMessage | src/pages/Companies.js:62-76 | START_PEOPLE_SEARCH is produced iff there is a parent and `analysis_data` with company information and personas; it carries the company name and one entry per persona of the response, whether or not it has a card, with its type and search title |
| Companies.PeopleResultAppends | src/pages/Companies.js:89-92 | LINKIFY_PEOPLE_RESULT appends its `data`, whatever it is, at the end; earlier fragments and the rest of the state stay |
| Companies.ExtensionDataNeedsDomain | src/pages/Companies.js:52-55 | without a truthy `user.domain` no request is sent, `loading` stays false and analysis and fragments are untouched |
| Companies.ExtensionDataStartsAnalysis | src/pages/Companies.js:47-58 | with a domain, `loading` rises and exactly one analyze request is sent, whose body carries the url, `user.domain` and the scraped data; url and scraped data are stored |
| Companies.WorkflowKeepsResults | src/pages/Companies.js:44-88 | neither step of the analysis workflow changes the fragment list |
| Companies.AnalysisCompletes | src/pages/Companies.js:58-88 | when the call settles loading ends and no request is sent; on success the response becomes the analysis and exactly `StartSearchMessage` is posted; on failure the analysis is kept and only the 401 handling acts |
| Companies.FragmentDuringWorkflow | src/pages/Companies.js:38-97 | a fragment that arrives while the analyze call is pending is still there, after the earlier ones, when the call settles |
| Companies.OtherMessagesIgnored | src/pages/Companies.js:44-97 | other messages change nothing on the page |
| Companies.Matches | src/pages/Companies.js:164-166 | no contract; `peopleByPersonaType[persona.type] \|\| []`, a missing type looked up as `"undefined"`; pinned by `PersonaCards` and `CompaniesPage.DisplayedPersonas` |
| Companies.ExtensionDataReceived | src/pages/Companies.js:44-58 | no contract; pinned by `ExtensionDataNeedsDomain`, `ExtensionDataStartsAnalysis` and `WorkflowKeepsResults` |
| Companies.AnalysisCompleted | src/pages/Companies.js:58-88 | no contract; pinned by `AnalysisCompletes` and `WorkflowKeepsResults` |
| Companies.PeopleResultReceived | src/pages/Companies.js:89-92 | no contract; pinned by `PeopleResultAppends` |
| Companies.WindowMessageHandled | src/pages/Companies.js:38-97 | no contract; pinned by `PeopleResultAppends`, `ExtensionDataNeedsDomain`, `FragmentDuringWorkflow` and `OtherMessagesIgnored` |
| Companies.CompaniesPage.constructor | src/pages/Companies.js:8-15 | the page starts not loading, with no analysis, an empty url, no fragments and no scraped data |
| Companies.CompaniesPage.PeopleByPersonaType | src/pages/Companies.js:20-25 | the reduce produces a key exactly for each type with a fragment, mapped to exactly that type's group in arrival order |
| Companies.CompaniesPage.DisplayedPersonas | src/pages/Companies.js:163-167 | the rendered cards are the analysis personas that have a fragment of their type, in order, each as often as it occurs in the analysis, each showing the earliest fragment of its type |
| Companies.CompaniesPage.HandleWindowMessage | src/pages/Companies.js:38-97 | the new state is `WindowMessageHandled` of the old one |
| Companies.CompaniesPage.CompleteAnalysis | src/pages/Companies.js:58-88 | the new state is `AnalysisCompleted` of the old one |
| Companies.CompaniesPage.Mount | src/pages/Companies.js:100 | the analysis listener is registered and nothing else changes |
| Companies.CompaniesPage.Unmount | src/pages/Companies.js:101 | the analysis listener is removed and nothing else changes |
| AuthCallback.CallbackEffects | src/pages/AuthCallback.js:13-60 | a truthy `error` gives only an error toast and `/login`; no token gives the no-token toast and `/login`; a token first logs in, attaches and verifies, in that order; `valid: false` then stops with nothing more |
| AuthCallback.CallbackLogsIn | src/pages/AuthCallback.js:17-25 | `login` is called, once and first, exactly when there is a truthy token and no truthy error |
| AuthCallback.CallbackNotifyArguments | src/pages/AuthCallback.js:31-41 | the extension is notified only inside it, after a valid verify with a user, with the callback's token, that user and the derived account domain |
| AuthCallback.CallbackNavigation | src/pages/AuthCallback.js:17-59 | at most one navigation: `/companies` exactly after a valid verify with a user outside the extension; `/login` exactly after a bad parameter, or outside the extension after a failure; none exactly when the answer is `valid: false` or after a verify inside the extension |
| AuthCallback.Step | src/pages/AuthCallback.js:25-41 | no contract; `login` up to its check's `await`, `setAuthToken`, the verify call with its 401 handling, and `notifyExtensionAuth`, as the provider and client define them; pinned by `RunCalls`, `TailOnlyPosts` and `CallbackVerifiesWithToken` |
| AuthCallback.VerifyAnswered | src/pages/AuthCallback.js:29 | no contract; the callback's verify answer, where a rejection runs the response interceptor; pinned by `AnswersCommute` |
| AuthCallback.Run | src/pages/AuthCallback.js:24-55 | no contract; the effects applied in order; pinned by `RunCons`, `RunAppend`, `CallbackVerifiesWithToken` and `CallbackNotifies` |
| AuthCallback.Callback | src/pages/AuthCallback.js:13-60 | no contract; the effects, then login's check settling; pinned by `BadParametersChangeNothing`, `CallbackShape`, `EitherAnswerFirst`, `CallbackVerifiesWithToken`, `CallbackNotifies` and `CallbackSession` |
| AuthCallback.CallsSent | src/pages/AuthCallback.js:25-29 | no contract; `login` returned, the token attached again and the callback's verify sent; pinned by `CallsVerifyWithToken` and `CallsKeepWindow` |
| AuthCallback.RunCons | src/pages/AuthCallback.js:24-55 | running effects applies the first and then the rest |
| AuthCallback.RunAppend | src/pages/AuthCallback.js:24-55 | running two effect lists in sequence equals running their concatenation |
| AuthCallback.RunCalls | src/pages/AuthCallback.js:25-29 | the three calls are `login` up to its check's `await`, then `setAuthToken`, then the verify request and its answer |
| AuthCallback.BadParametersChangeNothing | src/pages/AuthCallback.js:17-21 | an error parameter, or no token, leaves the session exactly as it was: no login, no request |
| AuthCallback.TailOnlyPosts | src/pages/AuthCallback.js:31-55 | toasts, navigation and notification send nothing and leave storage, header, user, framing and parent alone |
| AuthCallback.TailKeepsState | src/pages/AuthCallback.js:43-58 | toasts and navigation change nothing in the session |
| AuthCallback.SplitCalls | src/pages/AuthCallback.js:24-55 | after the three calls come only toasts, navigation and (inside the extension, after a valid user) exactly the notify and its success toast |
| AuthCallback.CallbackShape | src/pages/AuthCallback.js:23-55 | with a truthy token and no error, the callback is the three calls, the verify answer, the remaining effects and then login's check |
| AuthCallback.AnswersCommute | src/contexts/AuthContext.js:52-64 | settling login's check and handling the callback's verify answer give the same state in either order |
| AuthCallback.SettleCommutesWithTail | src/pages/AuthCallback.js:31-55 | settling login's check commutes with the toasts, navigation and notification of the callback |
| AuthCallback.EitherAnswerFirst | src/pages/AuthCallback.js:25-29 | login's check answering before the callback's verify answer gives the same final state as answering after everything |
| AuthCallback.CallsVerifyWithToken | src/pages/AuthCallback.js:25-29 | `login` sends its own verify first; after `setAuthToken` the callback's verify is sent last and carries `Bearer <token>` |
| AuthCallback.CallsKeepWindow | src/pages/AuthCallback.js:25-29 | the three calls post nothing and keep the framing and the parent |
| AuthCallback.CallbackVerifiesWithToken | src/pages/AuthCallback.js:25-29 | whatever either check answers, exactly two requests are sent, both verify: login's first, then the callback's, which carries `Bearer <token>` |
| AuthCallback.CallbackNotifies | src/pages/AuthCallback.js:31-47 | LINKIFY_AUTH_SUCCESS with the token, the user and the derived domain is posted exactly once when inside the extension with a parent and the verify is valid with a user; nothing is posted otherwise |
| AuthCallback.CallbackSession | src/pages/AuthCallback.js:25-29 | loading ends; a valid login check adopts its user and keeps the token attached (and stored, unless the callback's verify was a 401); any other login check keeps the user and removes token and header; header and storage agree exactly unless that 401 meets a valid login check |

## Left out

- Js.StringOf, Api.HandleApiCall, Companies.Matches and Companies.PersonaCards: the model has one `None` for both JavaScript `null` and `undefined`, and it reads it as `undefined`. So the following `null` cases are not captured:
  - an EXTENSION_AUTH_TOKEN with `token: null` stores the text `null` and sends `Bearer null`, where the model gives `undefined`;
  - an explicit `null` `errorMessage` in `handleApiCall`, when neither the response's `error` nor the error's `message` is truthy, yields `error: null`, not the default `API call failed`;
  - a persona whose `type` is `null` is looked up under `"null"`, not `"undefined"`;
  - rendering a card whose persona has no `type` throws at `persona.type.replace`, which the model does not represent.
- Rendering (JSX), the toasts of the provider and the analysis page, and console logging are not modelled. The callback's toasts are kept as effects.
- The backend is not modelled. Every call's outcome is a parameter, and the analysis response is taken as already parsed into records; JSON of the wrong shape (a non-string `personaType`, a non-array `personas` that is not missing) is not modelled.
- In the source, each async handler can interleave with others at its `await`. The startup check (`CheckBegun`/`CheckSettled`, with the mount effect as `MountBegun`), the `EXTENSION_AUTH_TOKEN` branch (`TokenSent`/`TokenSettled`) and the analysis workflow are split at their `await`, so other messages can be handled in between. `login` and `logout` are each one step: `login` does not await its check, and `logout`'s call is modelled as settling before anything else happens.
- AuthContext.Mounted and AuthContext.Checked: each runs the begin and settle steps with nothing in between. The interleavings are stated on the split steps instead (`AuthContext.StaleCheckDropsRestoredToken`).
- AuthCallback.Callback: login's check is settled after all the callback's effects. `AuthCallback.EitherAnswerFirst` shows that settling it before the callback's own answer gives the same state; any other message handled between the two answers is not modelled.
- Re-running the callback effect after a re-render of the provider, described under "Behaviour worth knowing", is not modelled; the model runs it once.
- Companies.CompaniesPage.PeopleByPersonaType: the source accumulates into a plain object. A `personaType` naming an `Object.prototype` member (such as `constructor`) would find an inherited value there. The model treats every type as a fresh key.
- Reading `window.location.href` at page mount is only logged by the source and is not modelled. Assigning `window.location.href` on a 401 is modelled as the `location` field; the page reload it causes is not.
- The other endpoints of `src/services/api.js` (profile, company, people and persona calls, lines 58-163 and 177-183) are not used by the core and are not modelled.
- `src/pages/People.js` and `src/pages/Login.js` are not part of this model.
- Api.AnalyzeCompanyBody: `None` is read as `undefined`, whose member the JSON serialisation drops; a `null` url, domain or scraped data, which the source sends as an explicit `null` member, is not distinguished from a missing one.
- The event origin is not checked by the source, and the model does not check it either. Messages whose `data` is not an object fall under `Other`.
