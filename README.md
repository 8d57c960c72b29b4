# Expense-sharing web client: a Dafny model

This project models the core of a browser client for a shared-expenses
service, written in TypeScript and React. The client keeps a session: a
bearer token and a cached identity in `localStorage`, plus an in-memory user
and loading flag. It attaches the token to every API call. On a 401 it
forgets the token. It guards its pages by session state. Four pages
(dashboard, groups, expenses, invitations) derive what they show from the
lists the API returns and update their own state as calls settle.

The modules:

- `Storage`: `localStorage` as used throughout, a class `LocalStorage` over a `map`.
- `Entities`: the shapes of `src/lib/api.ts`, the settled call `Reply`, and `JoinReplies` for `Promise.all`.
- `Gateway` (`src/lib/api.ts`): the request and response hooks as methods over `RequestConfig` and `LocalStorage`; the operation table `Route` and its inverse `Dispatch`.
- `Session` (`src/contexts/AuthContext.tsx`): the class `AuthProvider`, proved against the transition functions `Startup`, `SignIn` and `LogoutStep`.
- `Routes` (`src/App.tsx`): the pure guard `AppRoutes`.
- `ExpensesPage`, `GroupsPage`, `InvitationsPage`, `DashboardPage` (`src/pages/*.tsx`): pure derivations, plus a class per page whose methods are proved against functions over a `Screen` value.
- `Text`, `Lists`, `Wrappers`: the JavaScript built-ins the core relies on (`toLowerCase`, `includes`, `||` on strings, `split`, decimal rendering in template literals; `filter`, `find`, `slice`, `map`) and `Option`.

Each state-changing method is specified as
`Current() == F(old(Current()), inputs)`. The properties are proved as
contracts and lemmas about `F`.

The outcome of each network call is an input to the method that awaits it
(`Reply<T>`: `Ok(data)` or `Failed(status)`). Methods also return the
`Request` they issue, as given by `Gateway.Route`.

The clock is a parameter (`now`). Token-claim decoding, `JSON.parse` of the
cached identity and `JSON.stringify` are function-valued parameters
(`Session.Codec`). Where a lemma needs them to agree, it assumes
`CacheRoundTrips`: serialising an identity gives a non-empty string that
parses back to it.

A 401 removes only `token` (`src/lib/api.ts:36-39`), whereas `logout`
removes both `token` and `userInfo` (`src/contexts/AuthContext.tsx:117-120`).
The model follows the code.
`Session.StaleIdentityAfterUnauthorized` shows one consequence: after a 401
and a login whose token cannot be decoded, a reload restores the identity
cached before the 401.

## Model

| member | source | states |
|---|---|---|
| Storage.Truthy | src/contexts/AuthContext.tsx:34 | a stored string is truthy iff it is present and non-empty, the test `if (token)` makes here and at src/lib/api.ts:19 |
| Storage.Get | src/contexts/AuthContext.tsx:31-32 | `getItem` yields a value exactly when the key is present, and then the stored value |
| Storage.LocalStorage.GetItem | src/contexts/AuthContext.tsx:31-32 | reading returns `Get` of the current contents |
| Storage.LocalStorage.SetItem | src/contexts/AuthContext.tsx:74 | writing one key replaces that key and keeps every other |
| Storage.LocalStorage.RemoveItem | src/contexts/AuthContext.tsx:117-119 | removing a key (present or not) drops only that key |
| Entities.JoinReplies | src/pages/Expenses.tsx:42-45 | a joined fetch succeeds iff both calls succeed, and then carries both results |
| Gateway.RequestConfig.constructor | src/lib/api.ts:13 | a request's configuration holds the given URL and headers |
| Gateway.WithBearer | src/lib/api.ts:18-21 | `Authorization` becomes `"Bearer " + token` exactly when the stored token is non-empty; otherwise the headers are unchanged; other headers are never touched |
| Gateway.AttachCredential | src/lib/api.ts:13-23 | the request hook leaves the headers `WithBearer` describes, keeps the URL and never changes storage |
| Gateway.AfterResponse | src/lib/api.ts:36-39 | a 401 removes `token` and keeps every other key, `userInfo` included; any other outcome leaves storage as it was |
| Gateway.OnResponse | src/lib/api.ts:25-42 | every outcome reaches the caller unchanged; navigation to `/login` happens iff the status is 401 |
| Gateway.AfterResponseIdempotent | src/lib/api.ts:36-39 | purging on 401 twice is the same as purging once |
| Gateway.ExpensesUrl | src/lib/api.ts:127-133 | `/expenses` for an absent or zero group id; otherwise `/expenses?group_id=` followed by the id's canonical decimal text: the only text that parses back to it |
| Gateway.Route | src/lib/api.ts:96-151 | each operation's method is GET iff it reads, PUT iff it updates, DELETE iff it deletes, otherwise POST; a body is sent iff the operation carries one |
| Gateway.RouteDispatch | src/lib/api.ts:96-151 | reading a request back (method, path segments, body) recovers the operation that issued it, with `getExpenses(0)` identified with `getExpenses()` |
| Gateway.RouteInjective | src/lib/api.ts:96-151 | two operations issuing the same request are the same operation, up to `getExpenses(0)` |
| Text.IncludesIffOccurs | src/pages/Expenses.tsx:79 | the left-to-right scan `Includes(s, t)` holds iff `t` occurs in `s` at some position |
| Text.Includes | src/pages/Expenses.tsx:79 | `includes` as a left-to-right scan; its meaning is given by `Text.IncludesIffOccurs` |
| Text.MatchesIgnoringCase | src/pages/Groups.tsx:75 | a case-insensitive search: the lower-cased text contains the lower-cased term |
| Text.MatchesTermInCapitals | src/pages/Groups.tsx:75 | typing the search term in capitals finds exactly the same texts |
| Text.MatchesNarrow | src/pages/Groups.tsx:75-76 | a case-insensitive match of `t + u` implies a match of `t` |
| Text.OrElse | src/contexts/AuthContext.tsx:54 | `a \|\| b` on strings is `b` exactly when `a` is empty, and is non-empty iff either side is |
| Text.OptOrElse | src/contexts/AuthContext.tsx:53 | an undefined or empty left side gives the right side, otherwise the left |
| Text.LocalPart | src/contexts/AuthContext.tsx:82 | `split('@')[0]` is the longest prefix without `@`: the next character, if any, is `@` |
| Text.Lower | src/pages/Expenses.tsx:79 | lower-casing keeps length, turns each upper-case letter into the same letter in lower case and changes nothing else |
| Text.Upper | src/pages/Invitations.tsx:112 | upper-casing keeps length, turns each lower-case letter into the same letter in upper case and changes nothing else |
| Text.LowerOfUpper | src/pages/Groups.tsx:75 | lower-casing an upper-cased string gives the lower-cased original |
| Text.Decimal | src/lib/api.ts:109 | an id's decimal text is non-empty, has a sign exactly for negatives, digits elsewhere, and no leading zero except for 0 itself |
| Text.DecimalRoundTrip | src/lib/api.ts:109 | parsing an id's decimal text gives the id back |
| Text.ParseDecimalCanonical | src/lib/api.ts:109 | any text that parses to `n` is exactly `n`'s decimal text, so `007` and `-0` are refused |
| Text.DecimalInjective | src/lib/api.ts:109 | different ids have different decimal texts |
| Lists.Filter | src/pages/Expenses.tsx:78-83 | `filter` keeps an order-preserving sub-list with exactly the kept elements, each as often as in the input |
| Lists.Find | src/pages/Invitations.tsx:64-66 | `find` returns the first satisfying element, and none exactly when no element satisfies |
| Lists.Map | src/pages/Dashboard.tsx:80-93 | `map` keeps the length and applies the function at every position |
| Lists.Take | src/pages/Dashboard.tsx:80 | `slice(0, n)` is the prefix of length `min(n, length)` |
| Session.IdentityFromClaims | src/contexts/AuthContext.tsx:51-55 | the decoded identity has the claims' id, their e-mail or `''`, and a name that is never empty: the claims' non-empty name; else the e-mail's local part when that is non-empty; else `User` |
| Session.LoginIdentity | src/contexts/AuthContext.tsx:79-83 | the login identity has the argument e-mail; its name is the claims' non-empty name, else exactly the e-mail's local part (the longest prefix without `@`) |
| Session.LoginStep | src/contexts/AuthContext.tsx:71-92 | `login` resolves iff the call succeeds and its token's claims decode, and then the user is the claims' id with the typed e-mail and the claims' name or the e-mail's local part |
| Session.RegisterStep | src/contexts/AuthContext.tsx:94-115 | `register` resolves iff the call succeeds and its token's claims decode, and then the user is the claims' id with the typed name and e-mail |
| Session.Expired | src/contexts/AuthContext.tsx:46 | a token is expired iff its `exp` is present, non-zero and before the current time (its truthiness test) |
| Session.Reload | src/contexts/AuthContext.tsx:27-30 | a page load starts from no user and loading set, over what storage holds, and runs start-up |
| Session.RegisterIdentity | src/contexts/AuthContext.tsx:102-106 | the registration identity has the argument name and e-mail whatever the claims say |
| Session.Startup | src/contexts/AuthContext.tsx:30-69 | start-up always ends with loading false; it never adds or changes a token; it touches no key but `token` and `userInfo`; it sets a new user only with a non-empty token stored |
| Session.SignIn | src/contexts/AuthContext.tsx:71-115 | a failed call, as the handler sees it after the response hook, changes nothing further; a successful one stores the token; the call resolves iff the claims decode, and then sets the user and mirrors it into `userInfo`; otherwise user and `userInfo` stay |
| Session.LogoutStep | src/contexts/AuthContext.tsx:117-121 | logout removes both keys, clears the user and keeps every other key |
| Session.UseAuth | src/contexts/AuthContext.tsx:14-20 | the context is returned iff a provider supplies one; otherwise the call throws |
| Session.AuthProvider.constructor | src/contexts/AuthContext.tsx:27-28 | a provider starts with no user and loading |
| Session.AuthProvider.Initialize | src/contexts/AuthContext.tsx:30-69 | the start-up effect, step by step, reaches the state `Startup` gives |
| Session.AuthProvider.Login | src/contexts/AuthContext.tsx:71-92 | `login` issues the login request and reaches the state and outcome `SignIn` gives with the login identity |
| Session.AuthProvider.Register | src/contexts/AuthContext.tsx:94-115 | `register` issues the register request and reaches the state and outcome `SignIn` gives with the registration identity |
| Session.AuthProvider.Logout | src/contexts/AuthContext.tsx:117-121 | `logout` reaches the state `LogoutStep` gives |
| Session.StartupWithoutToken | src/contexts/AuthContext.tsx:31-34 | with no non-empty token, start-up changes nothing but the loading flag |
| Session.StartupFromCache | src/contexts/AuthContext.tsx:37-39 | with a token and a readable cache, the user is the parsed cache, storage is untouched, and neither the claims decoder nor the clock matters |
| Session.StartupExpired | src/contexts/AuthContext.tsx:45-49 | without a cache, expired claims remove `token` only and leave no user |
| Session.NotExpired | src/contexts/AuthContext.tsx:46 | an expiry equal to now, absent, or zero does not count as expired |
| Session.StartupDecodesClaims | src/contexts/AuthContext.tsx:50-58 | without a cache, unexpired claims give `IdentityFromClaims`, written to `userInfo` |
| Session.StartupPurgesOnFailure | src/contexts/AuthContext.tsx:61-66 | an unreadable cache, or undecodable claims, purge both keys and leave no user |
| Session.StartupIdempotent | src/contexts/AuthContext.tsx:30-69 | running start-up again, at any later time, changes nothing |
| Session.LoginSurvivesReload | src/contexts/AuthContext.tsx:71-92 | after a successful login, a page reload at any time restores the same user and storage |
| Session.RegisterSurvivesReload | src/contexts/AuthContext.tsx:94-115 | after a successful registration, a reload restores the same user, with the supplied name |
| Session.LoginWithBareClaims | src/contexts/AuthContext.tsx:79-83 | logging in as `a@b.com` with claims carrying only `user_id: 7` gives the user `{7, "a", "a@b.com"}` |
| Session.LogoutIdempotent | src/contexts/AuthContext.tsx:117-121 | logging out twice equals logging out once |
| Session.LogoutThenReload | src/contexts/AuthContext.tsx:117-121 | after logout, a reload starts with no user and storage untouched |
| Session.UnauthorizedThenReload | src/lib/api.ts:36-39 | the reload forced by a 401 starts with no user |
| Session.RejectedSignInUnderHook | src/lib/api.ts:36-40 | a login or registration rejected with 401 loses its token in the response hook before the handler runs; the promise rejects, the user and `userInfo` stay |
| Session.StaleIdentityAfterUnauthorized | src/lib/api.ts:36-39 | after a 401, a login whose token does not decode is rejected, yet the next reload restores the identity cached before the 401 |
| Routes.PageAt | src/App.tsx:33-68 | a page is mounted at a path only if that is the page's own path |
| Routes.PageAtPathOf | src/App.tsx:33-68 | every page is found at its own path and only there |
| Routes.Elsewhere | src/App.tsx:36-66 | redirects go to `/dashboard` iff there is a user, to `/login` otherwise |
| Routes.AppRoutes | src/App.tsx:21-70 | spinner iff loading; a page is shown only at its own path, inside the layout iff protected, and iff "protected" matches "signed in"; `/` always redirects; a redirect never points at the current path; nothing matches iff the path is unknown |
| Routes.NoProtectedPageWithoutUser | src/App.tsx:42-63 | without a user no protected page is ever shown |
| Routes.RedirectSettles | src/App.tsx:34-67 | every redirect reaches a shown page in one hop |
| Routes.DetailPathsUnrouted | src/App.tsx:32-68 | paths below `/groups/` or `/expenses/` (the detail links the pages render) match no route |
| Routes.OnlyPresenceMatters | src/App.tsx:36-66 | the outcome depends only on whether there is a user, not on which |
| ExpensesPage.GroupKey | src/pages/Expenses.tsx:81 | an expense's group key is the embedded group's id or the bare id, and is always a number |
| ExpensesPage.OptionValue | src/pages/Expenses.tsx:124-134 | the value a select holds for a numeric option is the number's decimal text |
| ExpensesPage.KeepsAsWritten | src/pages/Expenses.tsx:79-82 | the per-expense test as written: the description contains the term ignoring case, and there is no selection or the numeric group key is strictly equal to the selection string |
| ExpensesPage.FilteredAsWritten | src/pages/Expenses.tsx:78-83 | the filter as written keeps an order-preserving sub-list of exactly the expenses passing `KeepsAsWritten`, each as often as in the input |
| ExpensesPage.SelectionHidesEverything | src/pages/Expenses.tsx:80-81 | as written, any non-empty selection empties the list |
| ExpensesPage.SelectedGroupAsWritten | src/pages/Expenses.tsx:85-87 | as written, `selectedGroupData` is a listed group or nothing |
| ExpensesPage.SelectedGroupNeverFound | src/pages/Expenses.tsx:85-87 | as written, `selectedGroupData` is never found |
| ExpensesPage.Keeps | src/pages/Expenses.tsx:79-82 | the corrected per-expense test: the group key's option value is compared with the selection |
| ExpensesPage.FilteredExpenses | src/pages/Expenses.tsx:78-83 | the corrected filter keeps an order-preserving sub-list of exactly the expenses matching the text and the selected option, each as often as in the input |
| ExpensesPage.SelectingGroupFilters | src/pages/Expenses.tsx:78-83 | choosing a group's option keeps exactly the text-matching expenses of that group |
| ExpensesPage.NoFilterKeepsAll | src/pages/Expenses.tsx:79-80 | with empty search and no selection, both filters keep every expense in order |
| ExpensesPage.SelectedGroupData | src/pages/Expenses.tsx:85-87 | the corrected lookup finds a listed group whose option value is the selection, the first with that id, or none iff no group has it |
| ExpensesPage.SelectingGroupFindsIt | src/pages/Expenses.tsx:85-87 | choosing a listed group's option finds a group with that id |
| ExpensesPage.EmptyStateFor | src/pages/Expenses.tsx:193-207 | the add button appears iff search and selection are both empty; the heading is "No expenses found" iff either is set, "No expenses yet" otherwise |
| ExpensesPage.ListingAsWritten | src/pages/Expenses.tsx:189-250 | the list area as written: rows iff the `===` filter keeps something, and then that list; otherwise the empty state for the current filters |
| ExpensesPage.SelectionShowsNotFound | src/pages/Expenses.tsx:189-194 | as written, any selection shows the empty state "No expenses found", whatever the expenses |
| ExpensesPage.ListingFor | src/pages/Expenses.tsx:189-250 | corrected behaviour (see Findings): rows iff the corrected filter keeps something, and then that list; otherwise the empty state for the current filters |
| ExpensesPage.EmptyWithoutFilters | src/pages/Expenses.tsx:189-207 | without filters the empty state appears iff there are no expenses, and then offers the add button |
| ExpensesPage.CreateBody | src/pages/Expenses.tsx:61-67 | the create body has exactly the four fields: the form's description, the parsed amount, `group_id` as the form's string, and the selected members in order |
| ExpensesPage.AfterFetch | src/pages/Expenses.tsx:38-54 | loading ends false; both lists are replaced on success and both kept on failure; nothing else changes |
| ExpensesPage.AfterAdd | src/pages/Expenses.tsx:56-76 | the add spinner ends off; success empties the form and closes the dialog; failure keeps both; nothing else changes |
| ExpensesPage.WithUrlGroup | src/pages/Expenses.tsx:30-36 | a non-empty `?group=` sets the selection and the form's group; otherwise nothing changes |
| ExpensesPage.UrlGroupListsNothingAsWritten | src/pages/Expenses.tsx:30-36 | as written, arriving with `?group=<id>` lists no expense and shows the empty state |
| ExpensesPage.UrlGroupSelectsThatGroup | src/pages/Expenses.tsx:30-36 | corrected behaviour (see Findings): arriving with `?group=<id>` lists exactly the matching expenses of group `id` |
| ExpensesPage.ExpensesView.constructor | src/pages/Expenses.tsx:13-25 | the page starts empty, loading, with an empty form and closed dialog |
| ExpensesPage.ExpensesView.FetchData | src/pages/Expenses.tsx:38-54 | `fetchData` requests the unfiltered expenses and the groups and reaches `AfterFetch` of the joined reply |
| ExpensesPage.ExpensesView.HandleAddExpense | src/pages/Expenses.tsx:56-76 | `handleAddExpense` posts the form's body, asks for a refetch iff the call succeeded, and reaches `AfterAdd` |
| ExpensesPage.ExpensesView.ApplyUrlGroup | src/pages/Expenses.tsx:30-36 | the mount effect's URL step reaches `WithUrlGroup` |
| GroupsPage.GroupMatches | src/pages/Groups.tsx:75-76 | a group matches iff its name, or its present non-empty description, contains the term ignoring case |
| GroupsPage.FilteredGroups | src/pages/Groups.tsx:74-77 | keeps an order-preserving sub-list of exactly the groups whose name, or present non-empty description, contains the term ignoring case |
| GroupsPage.EmptySearchKeepsAll | src/pages/Groups.tsx:74-77 | an empty term keeps every group in order |
| GroupsPage.LongerSearchNarrows | src/pages/Groups.tsx:74-77 | extending the term never brings a group back |
| GroupsPage.MemberCount | src/pages/Groups.tsx:175 | the count is the members' length, or 0 when members are absent |
| GroupsPage.MemberLabel | src/pages/Groups.tsx:175 | the label is the count followed by ` member` when the count is 1 and ` members` otherwise |
| GroupsPage.AvatarsFor | src/pages/Groups.tsx:178-192 | "No members" iff the list is absent; otherwise at most the first 4 members; a badge iff more than 4, showing how many more |
| GroupsPage.AvatarsCoverMembers | src/pages/Groups.tsx:178-192 | avatars plus badge count every member exactly once |
| GroupsPage.DraftBody | src/pages/Groups.tsx:44 | the create body is the draft's name and description |
| GroupsPage.AfterFetch | src/pages/Groups.tsx:28-37 | loading ends false; the groups are replaced on success, kept on failure; nothing else changes |
| GroupsPage.AfterCreate | src/pages/Groups.tsx:39-53 | the create spinner ends off; success empties the draft and closes the dialog; failure keeps both; nothing else changes |
| GroupsPage.OpenInvite | src/pages/Groups.tsx:147-150 | the Invite button targets the group and opens the dialog, nothing else |
| GroupsPage.CancelInvite | src/pages/Groups.tsx:294-298 | Cancel clears e-mail and target and closes the dialog, nothing else |
| GroupsPage.CanInvite | src/pages/Groups.tsx:57 | the invite guard passes iff a non-zero target group is set and the e-mail is non-empty |
| GroupsPage.AfterInvite | src/pages/Groups.tsx:55-72 | with no target, target 0, or an empty e-mail nothing changes; otherwise success resets e-mail, target and dialog, failure keeps them, and the spinner ends off |
| GroupsPage.InviteSuccessResetsLikeCancel | src/pages/Groups.tsx:62-64 | a successful invite leaves the dialog state exactly as Cancel does |
| GroupsPage.NoInviteAfterReset | src/pages/Groups.tsx:57 | after Cancel or a successful invite, submitting again changes nothing |
| GroupsPage.OpenThenTypeEnablesInvite | src/pages/Groups.tsx:57 | after opening on a group and typing an e-mail, sending is enabled iff the group id is not 0 and the e-mail is not empty |
| GroupsPage.GroupsView.constructor | src/pages/Groups.tsx:13-22 | the page starts empty, loading, with an empty draft and closed dialogs |
| GroupsPage.GroupsView.FetchGroups | src/pages/Groups.tsx:28-37 | `fetchGroups` requests the groups and reaches `AfterFetch` |
| GroupsPage.GroupsView.HandleCreateGroup | src/pages/Groups.tsx:39-53 | posts the draft, asks for a refetch iff the call succeeded, and reaches `AfterCreate` |
| GroupsPage.GroupsView.OpenInviteFor | src/pages/Groups.tsx:147-150 | reaches `OpenInvite` |
| GroupsPage.GroupsView.Cancel | src/pages/Groups.tsx:294-298 | reaches `CancelInvite` |
| GroupsPage.GroupsView.HandleSendInvite | src/pages/Groups.tsx:55-72 | a call is made and an alert shown iff the guard passes; the call is the invitation to the target; the alert reports success or failure; the state reaches `AfterInvite` |
| InvitationsPage.RemoveById | src/pages/Invitations.tsx:44 | removal keeps an order-preserving sub-list of exactly the invitations with another id, each as often as before |
| InvitationsPage.RemoveAbsentId | src/pages/Invitations.tsx:44 | removing an id nobody carries changes nothing |
| InvitationsPage.RemoveByIdIdempotent | src/pages/Invitations.tsx:44 | removing the same id twice equals removing it once |
| InvitationsPage.GroupById | src/pages/Invitations.tsx:64-66 | `getGroupById` returns the first group with that id, and none iff no group has it |
| InvitationsPage.InviterLabel | src/pages/Invitations.tsx:68-72 | the inviter label is `User ` followed by the id's canonical decimal text: the only text that parses back to it |
| InvitationsPage.InviterLabelInjective | src/pages/Invitations.tsx:68-72 | different inviters get different labels |
| InvitationsPage.UnknownGroupHeading | src/pages/Invitations.tsx:116 | an unknown group's heading is `Group ` followed by the id's canonical decimal text: the only text that parses back to it |
| InvitationsPage.AvatarLetter | src/pages/Invitations.tsx:112 | `G` for an unknown group, nothing for an empty name, else the name's first character upper-cased |
| InvitationsPage.CardFor | src/pages/Invitations.tsx:101-159 | a card has actions iff pending; its heading is the found group's name or the unknown-group heading; its inviter and avatar follow the helpers |
| InvitationsPage.ActionsOnlyWhenPending | src/pages/Invitations.tsx:139-159 | no card of a non-pending invitation offers actions |
| InvitationsPage.AfterFetch | src/pages/Invitations.tsx:16-39 | loading ends false; both lists are replaced on success, both kept on any failure |
| InvitationsPage.AfterDecision | src/pages/Invitations.tsx:41-61 | success removes the decided id from the list; failure changes nothing; groups and loading never change |
| InvitationsPage.DecisionRemovesCard | src/pages/Invitations.tsx:43-44 | accepting a listed invitation removes it and keeps every invitation with another id |
| InvitationsPage.DecisionIdempotent | src/pages/Invitations.tsx:41-61 | deciding again on an id already decided changes nothing |
| InvitationsPage.InvitationsView.constructor | src/pages/Invitations.tsx:8-10 | the page starts empty and loading |
| InvitationsPage.InvitationsView.FetchInvitations | src/pages/Invitations.tsx:16-39 | requests invitations and groups and reaches `AfterFetch` of the joined reply |
| InvitationsPage.InvitationsView.HandleAccept | src/pages/Invitations.tsx:41-50 | posts the accept call, alerts success or failure, and reaches `AfterDecision` |
| InvitationsPage.InvitationsView.HandleReject | src/pages/Invitations.tsx:52-61 | posts the reject call, alerts success or failure, and reaches `AfterDecision` |
| DashboardPage.SummarizeGroup | src/pages/Dashboard.tsx:80-85 | a recent group keeps id, name and description, and counts members as the groups page does |
| DashboardPage.GroupName | src/pages/Dashboard.tsx:91 | the group name is never empty: the embedded group's non-empty name, else `Unknown`, including for a bare id |
| DashboardPage.SummarizeExpense | src/pages/Dashboard.tsx:87-93 | a recent expense keeps id, description, amount and date, with `GroupName` of its group |
| DashboardPage.RecentGroups | src/pages/Dashboard.tsx:80-85 | the first `min(5, n)` groups in order, each summarised |
| DashboardPage.RecentExpenses | src/pages/Dashboard.tsx:87-93 | the first `min(5, n)` expenses in order, each summarised |
| DashboardPage.AfterLoad | src/pages/Dashboard.tsx:45-109 | loading ends false; without a user or on failure nothing else changes; on success the counts are the list lengths and the short lists are replaced |
| DashboardPage.FailureShowsNothing | src/pages/Dashboard.tsx:94-100 | from the initial state, failure or no user leaves zeros and empty lists |
| DashboardPage.RecentWithinTotals | src/pages/Dashboard.tsx:71-93 | the short lists never outnumber the counts, and equal them up to five |
| DashboardPage.RecentGroupsInOrder | src/pages/Dashboard.tsx:80-85 | the i-th recent group is the i-th group, with its member count |
| DashboardPage.DashboardView.constructor | src/pages/Dashboard.tsx:34-43 | the dashboard starts at zero, with empty lists, loading |
| DashboardPage.DashboardView.Load | src/pages/Dashboard.tsx:45-109 | no call without a user, else groups and unfiltered expenses; the state reaches `AfterLoad` |

## Left out

- HTTP transport and axios configuration: base URL, `withCredentials`, the default content type (src/lib/api.ts:3-11). A call's outcome is an input.
- The timing of `Promise.all`. A joined fetch is "both results or the first failure". Which failure wins when both fail is not modelled, and no caller inspects it.
- Session.Codec: the internals of `atob` and `JSON.parse`. Claim decoding is an uninterpreted partial function, so the model does not say which tokens fail. `atob` decodes standard Base64 (section 4 of RFC 4648), while JSON Web Token segments (RFC 7519) use base64url (section 5 of RFC 4648).
- Session.Claims: claims whose `user_id` is missing or not a number (the source would store an undefined id). A cache that parses to something other than an identity is also not modelled.
- The clock. The current time is the parameter `now`. `toLocaleDateString` and the dashboard's this-month total are not modelled.
- Floating-point amounts. `parseFloat` is represented by the `amount` parameter of `HandleAddExpense`. Sums, averages and `toFixed` are not modelled.
- The dashboard balance figures. They are fixed at 0 in the source as placeholders.
- `window.location` navigation. It appears only as the `navigate` output of `Gateway.OnResponse`. The reload that follows is modelled as `Session.Reload`.
- JSX markup, CSS, icons, and the open/close toggles of dialogs other than the resets listed above. The onChange handlers of inputs are plain field assignments and are not modelled.
- The member avatar letters of a group card (src/pages/Groups.tsx:185). They read `member.name`, a field the `GroupMember` shape (src/lib/api.ts:61-64) does not have. If the server sends the declared shape, `member.name.charAt(0)` throws a TypeError, so any group card with members fails to render. `GroupsPage.AvatarsFor` gives the members shown, not their letters, so the model does not capture that failure.
- Routes.AppRoutes: paths are compared as exact strings. React Router's case-insensitive and trailing-slash matching is not modelled. The query string is assumed already stripped.
- Text.Lower and Text.Upper: ASCII letters only, not Unicode case mapping.
- `src/components/Layout.tsx` (navigation markup) and `src/pages/Profile.tsx` (a simulated submit with no API call) are not part of this model.
- `console` logging and the `alert` dialogs. The alerts' texts are returned as `notice` outputs.
- The response hook and the handlers: `Session.AuthProvider.Login`, `Register` and the page handlers take a call's outcome as it reaches them after the hook, without the hook's own effect. The hook is `Gateway.OnResponse`, and `Session.RejectedSignInUnderHook` composes it with a rejected sign-in.
- JavaScript numbers: ids and amounts are doubles in the source, while the model uses unbounded `int` and `real`. `Text.Decimal` does not capture the loss of precision beyond 2^53, nor the exponent form `${n}` gives from 1e21 upwards.
- The stale-closure and unmount effects of React state. The model takes each handler's state as the state at the moment its call settles.

## Findings

| source | as written | input that shows it | evidently intended | confidence | as-written member | corrected member |
|---|---|---|---|---|---|---|
| src/pages/Expenses.tsx:80-81 | the group filter compares the selection (always a string from the select) with the numeric group id using `===` | expenses `[e]` with `e.group` the bare id `3`, selection `"3"`: the list is empty | keep the expenses whose group id's option value equals the selection | high, not executed | ExpensesPage.SelectionHidesEverything | ExpensesPage.SelectingGroupFilters |
| src/pages/Expenses.tsx:189-194 | the list area is fed by the `===` filter of lines 80-81 | expenses `[e]` with `e.group` the bare id `3`, search `""`, selection `"3"`: "No expenses found" | show the selected group's expenses | high, not executed | ExpensesPage.SelectionShowsNotFound | ExpensesPage.ListingFor |
| src/pages/Expenses.tsx:30-36 | a `?group=<id>` link preselects the id's text, which the `===` filter never matches | any screen, `?group=3`: nothing is listed | list the expenses of group 3 | high, not executed | ExpensesPage.UrlGroupListsNothingAsWritten | ExpensesPage.UrlGroupSelectsThatGroup |
| src/pages/Expenses.tsx:85-87 | `selectedGroupData` compares numeric group ids with the string selection using `===` | groups `[{id: 3}]`, selection `"3"`: nothing is found, so the summary reads "Across all groups" | find the group whose option value equals the selection | high, not executed | ExpensesPage.SelectedGroupNeverFound | ExpensesPage.SelectingGroupFindsIt |
