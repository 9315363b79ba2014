# Debate platform client: a Dafny model of its decision rules

The client is a React application for a debate platform. A moderator approves proposed debates.
Users join a debate's queue on the Pro or Contro side and are paired into matches. A match runs
through the phases Opening (1), Rebuttal (2), Voting (3) and Closed (4), and visitors vote on it.
The client itself holds no protocol and no storage engine. What it does hold is a set of small
decision rules, and this project states those rules in Dafny and proves what they promise:

- who counts as a participant of a match;
- which text is shown for each round, and which panels each phase shows;
- the order in which the vote-eligibility messages are chosen;
- how the viewer's queue is classified for a debate, and how joining updates it;
- the list transforms of the dashboard, the public list, the results list and the home page;
- how claims are picked from a decoded token;
- the session stores, and the route guards that read them;
- how an HTTP request is built and how a response becomes a value or an error;
- form validation, and the mapping of error messages to user-facing text;
- the status and phase badge tables.

Modules follow the source files one to one. Three shared modules sit underneath them:

- JsValues holds the JavaScript values the pages handle: truthiness, `||`, `??`, optional
  chaining and `String(x)`.
- Text holds trimming, lower-casing and `includes`.
- Ordering holds the stable sort by a lexicographic key that stands for `Array.prototype.sort`
  with a comparator, plus `filter` and `slice`.

Each page that sorts has a `Compare` function that transcribes its comparator. A lemma proves
that the comparator has the same sign as the key order.

Pure rules are functions. State that the source changes step by step is a class whose methods
change fields. Each asynchronous handler is split into a `Begin…` method, which runs up to the
`await`, and a `Complete…` method, which receives the API outcome as a parameter. The rest of
the environment also becomes parameters:

- the backend responses;
- the token decoder, as a function from a token to a payload or to failure;
- `Math.random`, as a choice function with `choice(i) <= i`;
- `fetch`.

The persistent token storage is a one-field class, `TokenStorage.Storage`.

## Model

| member | source | states |
|---|---|---|
| JsValues.Or | src/store/authSlice.js:10-16 | `a \|\| b` is truthy iff either operand is; it yields `b` exactly when `a` is falsy |
| JsValues.ArrayOrEmpty | src/pages/Dashboard.jsx:29-30 | a non-array API result becomes the empty list, and an array is kept |
| MatchPhase.PhaseLabel | src/utils/matchPhase.js:1-14 | 1..4 are Opening, Rebuttal, Voting, Closed; a label starts with "Phase " iff the phase is not 1..4, and then the rest is `String(phase)` |
| MatchPhase.KnownLabelsDistinct | src/utils/matchPhase.js:4-10 | the four known labels are pairwise distinct |
| MatchPhase.PhaseLabelInjective | src/utils/matchPhase.js:1-14 | no two numeric phases share a label |
| MatchPhaseBadge.PhaseBadge | src/components/MatchPhaseBadge.jsx:2-26 | exactly one badge per value; "Unknown"/"bg-secondary" iff the phase is not 1..4, and otherwise the label agrees with `phaseLabel` and the classes are bg-primary, bg-info, bg-warning, bg-dark |
| MatchPhaseBadge.PhaseBadgeInjectiveOnKnown | src/components/MatchPhaseBadge.jsx:6-21 | distinct known phases get distinct labels and distinct classes |
| DebateStatusBadge.StatusBadge | src/components/DebateStatusBadge.jsx:2-30 | 1..5 are Open, In review, Approved, Rejected, Closed with their classes; the label is "Unknown" iff the status is not 1..5, and unknown statuses are grey |
| DebateStatusBadge.StatusLabelsDistinct | src/components/DebateStatusBadge.jsx:7-24 | the five status labels are pairwise distinct |
| SideBadge.SideOf | src/components/SideBadge.jsx:3-5 | every value yields exactly one of PRO, CONTRO, "—"; PRO iff the number 1, CONTRO iff the number 2 |
| SubmissionsPair.CellFor | src/components/SubmissionsPair.jsx:13-19 | a column shows its text iff the text is present (non-empty), else the waiting placeholder |
| SubmissionsPair.Render | src/components/SubmissionsPair.jsx:4-19 | the title is always the header; only the empty hint appears iff both texts are absent, and otherwise both columns |
| SubmissionsPair.OneSideIsRevealed | src/components/SubmissionsPair.jsx:6-19 | with exactly one side present, that side's text is shown and the other column waits |
| Claims.UserIdClaim | src/store/authSlice.js:10 | first truthy of `nameid`, the nameidentifier claim URI, `sub`, else null |
| Claims.UsernameClaim | src/store/authSlice.js:12 | first truthy of `unique_name`, `name`, the name claim URI, `email`, else null |
| Claims.EmailClaim | src/auth/jwt.js:11 | first truthy of `email`, the emailaddress claim URI, else null |
| Claims.RawRoles | src/store/authSlice.js:14 | first truthy of `role`, `roles`, the role claim URI, else `[]`; always truthy |
| Claims.RolesClaim | src/store/authSlice.js:14-16 | an array claim is kept and any other value becomes a one-element array |
| Claims.NoRoleClaimNoRoles | src/store/authSlice.js:14-16 | no role claim gives no roles |
| Claims.SingleRoleIsWrapped | src/auth/jwt.js:13-15 | a single role string is wrapped in a list |
| Jwt.JwtDecode | src/auth/jwt.js:6 | a non-string token fails; a string decodes iff the decoder accepts it, to the decoder's payload |
| Jwt.IdentityOf | src/auth/jwt.js:7-22 | the identity carries the prioritised claims and the whole payload as `claims` |
| Jwt.GetUserFromTokenAsWritten | src/auth/jwt.js:3-5 | any truthy token yields null before decoding; a falsy non-string one fails |
| Jwt.AsWrittenNeverYieldsUser | src/auth/jwt.js:3-6 | when the empty string does not decode, no token ever yields an identity |
| Jwt.GetUserFromToken | src/auth/jwt.js:3-23 | corrected guard: null for a falsy token; otherwise it succeeds iff decoding does, with the decoded identity |
| Jwt.GuardFinding | src/auth/jwt.js:4 | for a decodable non-empty token the as-written function yields null while the corrected one yields its identity |
| AuthSlice.UserOf | src/store/authSlice.js:8-18 | the slice's user carries the prioritised user id, username and roles |
| AuthSlice.GetUserFromToken | src/store/authSlice.js:5-19 | null for a falsy token; otherwise success iff decoding succeeds, with the decoded user |
| AuthSlice.AgreesWithJwt | src/auth/jwt.js:7-15 | the slice and the corrected context picker agree on success and on user id, username and roles |
| AuthSlice.AuthStore.constructor | src/store/authSlice.js:21-28 | the initial token is the persisted one (or null) and the user is derived from it |
| AuthSlice.AuthStore.SetCredentials | src/store/authSlice.js:30-35 | token, user and storage are replaced together from the same token; a decode failure changes nothing and propagates its message |
| AuthSlice.AuthStore.Logout | src/store/authSlice.js:36-40 | token, user and storage all become null and the store stays consistent |
| AuthSlice.UserIffToken | src/store/authSlice.js:26-40 | in a consistent store the user is present iff the token is truthy |
| AuthContext.ReceivedToken | src/auth/AuthContext.jsx:18 | first truthy of `token`, `accessToken`, otherwise `jwt` |
| AuthContext.ReadUser | src/auth/AuthContext.jsx:10 | reading the identity of any token, through the picker as written, never throws and always gives null |
| AuthContext.AuthProvider.constructor | src/auth/AuthContext.jsx:9-13 | the initial token is the persisted one, and the user read from it is null whatever that token is |
| AuthContext.AuthProvider.IsAuthenticated | src/auth/AuthContext.jsx:39 | authenticated iff the token is truthy |
| AuthContext.AuthProvider.Value | src/auth/AuthContext.jsx:35-44 | the context value exposes token, user and `isAuthenticated` |
| AuthContext.AuthProvider.Login | src/auth/AuthContext.jsx:15-27 | a failed call or a response without a token throws and leaves storage, token and user unchanged; otherwise login succeeds, storage and token take the new token, and the provider is authenticated with a null user |
| AuthContext.AuthProvider.Logout | src/auth/AuthContext.jsx:29-33 | storage, token and user are cleared and the provider is unauthenticated |
| AuthContext.UseAuth | src/auth/AuthContext.jsx:49-53 | throws iff there is no provider, and otherwise returns its value |
| Login.LoginErrorText | src/pages/Login.jsx:46-51 | "401", then "400", then the raw message, then the default; never empty |
| Login.BareStatusMessage | src/api/http.js:30-33 | a 401 or 400 without a JSON body fails with "HTTP 401" or "HTTP 400" |
| Login.BareStatusesAreExplained | src/pages/Login.jsx:46-49 | those bare 401/400 failures reach the wrong-credentials and invalid-data texts |
| Login.NoOneInHttp400 | src/pages/Login.jsx:46-49 | the "HTTP 400" message is not mistaken for a 401 |
| Login.LoginPage.constructor | src/pages/Login.jsx:12-18 | the form starts empty, idle and without error or navigation |
| Login.LoginPage.HandleChange | src/pages/Login.jsx:20-23 | only the named field changes |
| Login.LoginPage.BeginSubmit | src/pages/Login.jsx:25-31 | loading is set, the error cleared and the current form sent |
| Login.LoginPage.CompleteSubmit | src/pages/Login.jsx:30-54 | without a token there is no credential change and no navigation; with one the store is updated and then "/dashboard" is visited; errors are mapped; loading ends on every path |
| Http.BuildHeaders | src/api/http.js:6-14 | JSON content type by default and overridable; `Authorization: Bearer <token>` iff a token is present, overriding the caller; every other caller header is kept |
| Http.ResponseData | src/api/http.js:26-28 | the body is used iff the content type contains "application/json", else null |
| Http.ErrorMessage | src/api/http.js:30-33 | first truthy of `message`, `error`, `title`, else "HTTP <status>" |
| Http.Outcome | src/api/http.js:30-35 | a 2xx status returns the data, and any other status throws the chosen message |
| Http.StatusInMessage | src/api/http.js:30-33 | a failure without a usable body throws "HTTP <status>", which contains the status |
| Http.Send | src/api/http.js:4-36 | the request goes to `baseUrl + path` with the built headers; a 401 clears the stored token whatever the body, and any other status leaves it alone |
| RequireAuth.Guard | src/routes/RequireAuth.jsx:5-12 | the outlet renders iff the token is truthy, and otherwise it redirects to "/login" with replace and the original location |
| RequireModerator.Guard | src/routes/RequireModerator.jsx:5-18 | no token redirects to "/login" before roles are read; a token without "Moderator" redirects to "/"; otherwise the outlet renders |
| RequireModerator.AdmitsExactlyModerators | src/routes/RequireModerator.jsx:8-17 | on a consistent store the guard admits exactly the users holding "Moderator", each of whom also passes the login guard |
| SubmissionEditor.SuccessMessage | src/components/SubmissionEditor.jsx:26-32 | "Bozza salvata" for a draft and "Consegna inviata" for a final submission |
| SubmissionEditor.Editor.constructor | src/components/SubmissionEditor.jsx:3-7 | the editor starts idle with the initial body |
| SubmissionEditor.Editor.SubmitDisabled | src/components/SubmissionEditor.jsx:52-56 | submit is off iff disabled, busy or the trimmed body is empty, and it is off whenever save is |
| SubmissionEditor.Editor.Edit | src/components/SubmissionEditor.jsx:46 | only the body changes |
| SubmissionEditor.Editor.BeginRun | src/components/SubmissionEditor.jsx:9-14 | both banners are cleared, busy is set and the current body is passed unchanged |
| SubmissionEditor.Editor.CompleteRun | src/components/SubmissionEditor.jsx:13-33 | success sets the action's message; failure sets the error and rethrows it; busy ends on every path |
| DebateDetails.FirstOther | src/pages/DebateDetails.jsx:85 | the `debateId` of the first entry with a truthy id for another debate, or none iff there is no such entry |
| DebateDetails.Classify | src/pages/DebateDetails.jsx:79-89 | guest iff unauthenticated; `in_this` iff an entry matches the id, checked first; `in_other` with the first other entry's id; `free` otherwise |
| DebateDetails.JoinDisabled | src/pages/DebateDetails.jsx:91-96 | join is enabled iff authenticated, not loading and neither `in_this` nor `in_other` |
| DebateDetails.JoinEnabledIff | src/pages/DebateDetails.jsx:79-96 | join is enabled iff authenticated, idle and the queue has no entry for this debate and no truthy id for another |
| DebateDetails.NormalizeQueue | src/pages/DebateDetails.jsx:59 | an array is kept, a truthy non-array becomes a singleton, a falsy value becomes empty |
| DebateDetails.AddToQueue | src/pages/DebateDetails.jsx:109-114 | `{debateId: id}` is prepended unless an entry for the id exists, in which case the queue is unchanged |
| DebateDetails.AddToQueueJoins | src/pages/DebateDetails.jsx:109-129 | afterwards the queue classifies as `in_this`, and adding again changes nothing |
| DebateDetails.NoSecondJoin | src/pages/DebateDetails.jsx:91-99 | after an add, join is disabled |
| DebateDetails.FeedbackFor | src/pages/DebateDetails.jsx:119-138 | 409 is informational; then 404, 401, 403, then the raw message or the default |
| DebateDetails.DebateDetailsPage.constructor | src/pages/DebateDetails.jsx:22-32 | the page starts loading with an empty queue and no banners |
| DebateDetails.DebateDetailsPage.BeginLoad | src/pages/DebateDetails.jsx:38-43 | loading starts and the error and join banners are reset |
| DebateDetails.DebateDetailsPage.CompleteLoad | src/pages/DebateDetails.jsx:53-68 | the debate and the normalised queue are stored, or the error is shown; loading ends |
| DebateDetails.DebateDetailsPage.BeginJoin | src/pages/DebateDetails.jsx:98-106 | nothing happens and nothing is sent when join is disabled; otherwise the banners clear, join loading starts and `(id, side)` is sent; the debate, queue, page loading and page error are untouched |
| DebateDetails.DebateDetailsPage.CompleteJoin | src/pages/DebateDetails.jsx:107-141 | success and 409 add the debate to the queue and set their messages; other failures set the mapped error; join loading ends; the debate, page loading and page error are untouched |
| PublicMatchDetails.IsParticipant | src/pages/PublicMatchDetails.jsx:30-33 | false without a match or a user id; otherwise membership in {pro, contro} |
| PublicMatchDetails.FirstBy | src/pages/PublicMatchDetails.jsx:37 | the index of the first submission by the user, or the length when there is none |
| PublicMatchDetails.FindBodyByUserId | src/pages/PublicMatchDetails.jsx:35-39 | null for a non-array, a falsy id or no match; otherwise the body of the first matching submission |
| PublicMatchDetails.Texts | src/pages/PublicMatchDetails.jsx:41-45 | without a match all four texts are null; with one, each text is that round's list searched for that side's user id |
| PublicMatchDetails.TextsAreAttributed | src/pages/PublicMatchDetails.jsx:41-45 | each round's text for a side is the body of that side's user's first submission in that round, null when the user has none there, and always a submission by that user |
| PublicMatchDetails.RoundsAreSeparate | src/pages/PublicMatchDetails.jsx:41-45 | changing one round's submissions never changes the other round's texts |
| PublicMatchDetails.VoteStateMessage | src/pages/PublicMatchDetails.jsx:104-110 | wrong phase, then not logged in, then participant; none iff voting, logged in and not a participant |
| PublicMatchDetails.VoteButtonsIff | src/pages/PublicMatchDetails.jsx:104-110 | buttons appear iff phase 3, authenticated and not a participant; an unauthenticated viewer gets the login message even as a participant |
| PublicMatchDetails.VoteErrorText | src/pages/PublicMatchDetails.jsx:90-94 | "401", then "403", then "409", then the raw message |
| PublicMatchDetails.ClosedBanner | src/pages/PublicMatchDetails.jsx:169-178 | present iff phase 4; the draw text, else the winner or "—" |
| PublicMatchDetails.PublicMatchDetailsPage.constructor | src/pages/PublicMatchDetails.jsx:19-28 | the page starts loading without a match or banners |
| PublicMatchDetails.PublicMatchDetailsPage.BeginLoad | src/pages/PublicMatchDetails.jsx:50-54 | loading starts and the error, vote error and vote message are cleared |
| PublicMatchDetails.PublicMatchDetailsPage.CompleteLoad | src/pages/PublicMatchDetails.jsx:56-72 | the match is stored or the error shown; the debate title and body come from the second lookup, null when it fails |
| PublicMatchDetails.PublicMatchDetailsPage.BeginVote | src/pages/PublicMatchDetails.jsx:80-86 | banners clear, voting starts and `(id, value)` is sent; the match, loading flag, page error, title and description are untouched |
| PublicMatchDetails.PublicMatchDetailsPage.CompleteVoteAsWritten | src/pages/PublicMatchDetails.jsx:86-97 | as written, after a successful vote the confirmation is gone, because the reload clears it, and the current match, page error, title and description come from the reload; a failed vote sets the mapped error and leaves the rest of the page as it was |
| PublicMatchDetails.PublicMatchDetailsPage.CompleteVote | src/pages/PublicMatchDetails.jsx:86-97 | corrected: after a successful vote the reloaded match with its title and description, or the reload's error, is shown together with "Voto registrato"; a failed vote sets the mapped error and leaves the match, loading flag, page error, title and description as they were |
| MatchDetails.Sections | src/pages/MatchDetails.jsx:218-265 | the opening editor iff phase 1, rebuttal iff 2, voting iff 3, closed iff 4, with no participation check |
| MatchDetails.AtMostOneSection | src/pages/MatchDetails.jsx:218-264 | at most one phase section appears, and none outside 1..4 |
| MatchDetails.VotingArea | src/pages/MatchDetails.jsx:247-258 | a participant gets the refusal and anyone else gets the buttons |
| MatchDetails.ClosedText | src/pages/MatchDetails.jsx:265 | "pareggio" for a draw, else "vince <winner>", printing "null" for a winner the record holds as null |
| MatchDetails.ClosedTextAgreesWithPublicBanner | src/pages/MatchDetails.jsx:265 | the two closed banners agree except for a non-draw without a winner |
| MatchDetails.ShowsSubmissions | src/pages/MatchDetails.jsx:194-210 | a list is shown iff it is a non-empty array |
| MatchDetails.VoteErrorText | src/pages/MatchDetails.jsx:86-90 | "403" gives the participant message, and anything else is shown raw |
| MatchDetails.MatchDetailsPage.constructor | src/pages/MatchDetails.jsx:18-28 | no match and no vote banners at first |
| MatchDetails.MatchDetailsPage.BeginLoad | src/pages/MatchDetails.jsx:39-42 | the vote banners are cleared |
| MatchDetails.MatchDetailsPage.CompleteLoad | src/pages/MatchDetails.jsx:44-48 | the fetched match replaces the current one; a failure keeps it |
| MatchDetails.MatchDetailsPage.BeginVote | src/pages/MatchDetails.jsx:74-82 | a no-op without a match; otherwise banners clear, loading starts and `(match.id, value)` is sent |
| MatchDetails.MatchDetailsPage.CompleteVote | src/pages/MatchDetails.jsx:83-93 | success sets "Voto registrato", and failure the mapped error; loading ends |
| Dashboard.Dedup | src/pages/Dashboard.jsx:32 | keeps every value, with no repeats |
| Dashboard.DebateIds | src/pages/Dashboard.jsx:32 | the debate id of each match, in order |
| Dashboard.UniqueDebateIds | src/pages/Dashboard.jsx:32 | exactly the truthy debate ids of the matches, each once |
| Dashboard.TitleMapKeys | src/pages/Dashboard.jsx:43-48 | a key is present iff some fulfilled lookup has that truthy id; rejected lookups add nothing |
| Dashboard.TitleMapValues | src/pages/Dashboard.jsx:43-48 | with distinct ids, each fulfilled lookup's title is stored under its id |
| Dashboard.BuildTitleMap | src/pages/Dashboard.jsx:43-48 | the loop builds the same map as the reduce |
| Dashboard.Enrich | src/pages/Dashboard.jsx:51-54 | an existing title is kept, else the looked-up one, else null; no other field changes |
| Dashboard.EnrichAll | src/pages/Dashboard.jsx:51-54 | every match is enriched, in place in the list |
| Dashboard.CompareAgreesWithKey | src/pages/Dashboard.jsx:73-81 | the comparator orders by phase (missing 999) and then by newest `createdAt` (missing 0), as the key does |
| Dashboard.Sorted | src/pages/Dashboard.jsx:71-83 | the result is sorted by that key and is a permutation of the matches |
| Dashboard.ActiveClosedPartition | src/pages/Dashboard.jsx:85-86 | active and closed partition the list, and both keep the sorted order |
| Dashboard.DashboardPage.constructor | src/pages/Dashboard.jsx:12-16 | the page starts loading with empty lists |
| Dashboard.DashboardPage.CompleteLoad | src/pages/Dashboard.jsx:25-63 | non-arrays become empty; matches are enriched with the titles of the fulfilled lookups; a failure shows its message or the default |
| PublicMatches.CompareAgreesWithKey | src/pages/PublicMatches.jsx:58-69 | the comparator puts voting matches first and then the newest first, as the key does |
| PublicMatches.View | src/pages/PublicMatches.jsx:40-72 | the output is sorted and holds exactly the passing matches with their multiplicities |
| PublicMatches.ViewProperties | src/pages/PublicMatches.jsx:46-69 | every output passes the filters; voting matches precede the others; within a group the newest come first; the output is a sub-multiset |
| PublicMatches.BlankQueryFiltersNothing | src/pages/PublicMatches.jsx:41-50 | a blank query keeps every match the voting filter keeps |
| MatchResults.CompareAgreesWithKey | src/pages/MatchResults.jsx:45-49 | the comparator orders newest first, as the key does |
| MatchResults.Filtered | src/pages/MatchResults.jsx:39-67 | the output holds exactly the passing items with their multiplicities |
| MatchResults.FilteredProperties | src/pages/MatchResults.jsx:42-64 | the output is newest-first, every item passes the votes and search filters, and it is a sub-multiset |
| MatchResults.DrawFoundByPareggio | src/pages/MatchResults.jsx:57-62 | a draw is found by searching "pareggio" |
| MatchResults.WinnerLabel | src/pages/MatchResults.jsx:126 | "Pareggio" for a draw, else the winner, else "—" |
| MatchResults.VotesShown | src/pages/MatchResults.jsx:123 | missing vote counts show as 0 |
| MatchResults.ResultBadge | src/pages/MatchResults.jsx:140 | the badge phase defaults to 4 |
| Home.Swap | src/pages/Home.jsx:15 | the two positions are exchanged and every other position is unchanged |
| Home.SwapPermutes | src/pages/Home.jsx:15 | a swap is a permutation |
| Home.ShuffleFrom | src/pages/Home.jsx:13-16 | the shuffle keeps the length |
| Home.ShufflePermutes | src/pages/Home.jsx:13-16 | the shuffle is a permutation of the input |
| Home.PickRandom | src/pages/Home.jsx:11-18 | the in-place loop computes the prefix of the shuffle; `min(n, |items|)` elements, a sub-multiset of the input, which is not mutated |
| Home.TopVotables | src/pages/Home.jsx:59 | the first `min(6, |votables|)` elements, in order |
| Home.FeaturedResults | src/pages/Home.jsx:58 | at most four results drawn from the list, and none for a non-array |
| Home.FeaturedLabel | src/pages/Home.jsx:140 | a featured card shows "Pareggio" for a draw, otherwise the winner, or "—" without one |
| Home.FeaturedLabelAgreesWithResults | src/pages/Home.jsx:140 | a featured card and the results page give every match the same outcome label |
| CreateDebate.CanSubmit | src/pages/CreateDebate.jsx:17-25 | false while loading; true iff idle with a trimmed title of at least 6 and a description of at least 30 characters |
| CreateDebate.Validate | src/pages/CreateDebate.jsx:48-55 | the title is checked before the description; it passes iff both are long enough |
| CreateDebate.ButtonAgreesWithValidation | src/pages/CreateDebate.jsx:17-55 | an idle form passes validation iff the button is enabled |
| CreateDebate.BlankTitleRejected | src/pages/CreateDebate.jsx:48-51 | a title of spaces is always rejected |
| CreateDebate.FriendlyError | src/pages/CreateDebate.jsx:32-39 | "401", "403", "409", "400", then the raw message, then the default; never empty |
| CreateDebate.CreateDebatePage.constructor | src/pages/CreateDebate.jsx:8-15 | both fields start empty, idle and without banners |
| CreateDebate.CreateDebatePage.HandleChange | src/pages/CreateDebate.jsx:27-30 | only the named field changes |
| CreateDebate.CreateDebatePage.BeginSubmit | src/pages/CreateDebate.jsx:41-63 | both banners clear; a failing form gets its error and sends nothing; otherwise loading starts and the trimmed title and description are sent |
| CreateDebate.CreateDebatePage.CompleteSubmit | src/pages/CreateDebate.jsx:64-71 | success sets the moderation notice, and failure the mapped error; loading ends |
| Mod.StatusLabel | src/pages/Mod.jsx:13-28 | 1..5 are Open, In Review, Approved, Rejected, Closed, and anything else is `String(status)` |
| Mod.LabelMatchesBadgeUpToCase | src/pages/Mod.jsx:13-28 | the table and badge labels agree up to letter case and differ exactly for status 2 |
| Mod.Actions | src/pages/Mod.jsx:109-129 | Open offers InReview; InReview offers Approved and Rejected; anything else offers nothing |
| Mod.ActionsMoveForward | src/pages/Mod.jsx:109-129 | no action targets Open or Closed, and every action raises the status |
| Mod.BusyDisablesOneRow | src/pages/Mod.jsx:110-123 | with distinct row ids, a running action disables exactly the busy row's buttons, and with none running no row with an id is disabled |
| Mod.ModPage.constructor | src/pages/Mod.jsx:30-37 | the page starts loading with no items, banners or busy row |
| Mod.ModPage.BeginLoad | src/pages/Mod.jsx:39-41 | loading starts and the error is cleared |
| Mod.ModPage.CompleteLoad | src/pages/Mod.jsx:43-50 | the items are replaced by the result, or the error is shown; loading ends |
| Mod.ModPage.BeginAction | src/pages/Mod.jsx:57-60 | both banners clear and the row's id becomes the busy id |
| Mod.ModPage.CompleteAction | src/pages/Mod.jsx:62-71 | success sets "Operazione completata" and reloads the items, with the reload's error or none; failure shows the message and leaves items, loading flag and page error as they were; the busy id is reset on every path |

## Left out

- Network and storage are I/O. Responses, `fetch` and the token decoder are parameters.
  `src/auth/tokenStorage.js` is not part of this model; it is represented by the one-field class
  `TokenStorage.Storage`.
- `res.json()` failing on a malformed body is not modelled. A JSON content type gives the
  parsed body as a value.
- Header names are compared exactly, not case-insensitively as `fetch` would.
- JavaScript numbers are integers here. Floats, `NaN` and date parsing (`new Date(...).getTime()`)
  are left out, and `createdAt` is an optional integer timestamp.
- trim and `toLowerCase` work over an explicit whitespace set and ASCII letters, not full
  Unicode.
- Object keys are plain strings. Prototype keys such as `__proto__` and `toString` are not
  modelled.
- A `null` element in a queue or submission list makes the source throw on `q.debateId` or
  `x.userId`. The model reads such an element as having no `debateId` or `userId`.
- Asynchronous control is left out: `Promise.all`/`allSettled` interleaving, the
  `alive`/`cancelled` liveness flags, effect scheduling and the 700 ms `setTimeout` navigation.
  That navigation is recorded in the page's `scheduled` list.
- AuthSlice.AuthStore.constructor requires that the persisted token decodes. The source would
  throw while the store is being created; that path is not modelled.
- MatchDetails.ClosedText: a missing winner is one case in the model. In the source a field
  that is absent prints "undefined" and one that is `null` prints "null"; the model prints
  "null" for both.
- Http.Send: a 401 clears the persisted token only. The redux `token` and `user` are left as
  they were, as in the source.
- MatchDetails.MatchDetailsPage.CompleteLoad: only the match is modelled; the debate title
  lookup and the loading/error flags of the page are presentation.
- Mod.ModPage.CompleteLoad: the moderation payload is taken as a list. In the source, a
  non-array payload would make the render throw.
- Ordering.SortBy is a stable insertion sort. Stability is not part of the stated contracts,
  which hold for any correct sort with the same comparator.
- Home.PickRandom: `Math.random` becomes a choice function with `choice(i) <= i`. The
  distribution of the shuffle is not modelled.
- The request builders under `src/api/` are one-line wrappers over `http` and are not
  modelled. The same holds for markup other than the badge tables, and for `Register`, `Navbar`,
  `Footer`, `AuthCard`, `App` and `main`.
- Phase transitions, vote uniqueness and matchmaking are server rules and are not part of the
  client.

## Findings

| source | as written | input that shows it | evidently intended | confidence | as-written member | corrected member |
|---|---|---|---|---|---|---|
| src/auth/jwt.js:4 | `if (token) return null;` returns null for every truthy token and sends only falsy tokens to the decoder | any non-empty token string that the decoder accepts: the result is null instead of its user, so `AuthProvider` is authenticated with a null user after every login | `if (!token) return null;`, as in `src/store/authSlice.js:6` | high, not executed | Jwt.GuardFinding | Jwt.GetUserFromToken |
| src/pages/PublicMatchDetails.jsx:87-88 | the vote confirmation is set and then `load()` runs, which clears `voteMessage` at line 54 | any vote the server accepts: the "Voto registrato" banner is removed by the reload | the confirmation survives the refresh | medium, not executed | PublicMatchDetails.PublicMatchDetailsPage.CompleteVoteAsWritten | PublicMatchDetails.PublicMatchDetailsPage.CompleteVote |
