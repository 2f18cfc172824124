# blog-platform client core in Dafny

This project models the client logic of a React/Redux blogging application, and proves properties of that model. The application lists articles in pages and shows single articles. It also offers likes, creating and editing articles, registration, login and a profile editor. The model covers:

- **Session store** (`AuthSlice`). It holds the user, the token and the authenticated flag, and mirrors them into the `auth` slot of browser storage. It has a startup loader and the `setCredentials`, `logout` and `checkAuth` reducers.
- **API layer** (`BlogApi`). It covers the request each endpoint builds and the header preparation, plus the tags each read provides and each mutation invalidates.
- **Query cache** (`ApiCache`). This is an explicit model of the cache those tags drive.
- **Revalidation trigger** (`AutoUpdaterUser`).
- **Pagination state** (`ArticleSlice`).
- **Route table** (`Routes`). The paths the router renders a page for, against which the navigations are checked.
- **Components**: the list (`BlogList`), the list card with its like button (`BlogArticle`), the article page (`ArticlePage`), the tag editor shared by the create and edit forms (`ArticleForm`, `CreateArticle`, `EditArticle`), and the account forms (`SignUp`, `SignIn`, `Profile`). The account forms share their error object (`FormErrors`) and the schema constraints (`Schema`).

The source changes state in three places, and each is modelled as a Dafny `class` whose methods state the new state. These are the store reducers, the pagination reducer and the component state (tags, current tag, server error, local article, form errors). Each method is tied to a pure step function, and the properties are lemmas about those functions. The session store keeps the invariant that reloading the page would give back the in-memory session.

Some JavaScript behaviour is written out explicitly:

- **Truthiness.** A nullable string is `Option<string>`, and it is truthy when it is present and non-empty.
- **`trim`.** It uses the full ECMAScript whitespace set.
- **`toLowerCase`.** It is modelled on ASCII.
- **Storage.** It is a map from keys to decoded values, where `Corrupt` stands for text that does not parse.
- **Awaited requests.** The result of every awaited request is an input value: success, or a failure that carries a status, an `errors` payload and a message.

One might expect the session to hold a token exactly when it is authenticated, but the code does not keep that. `setCredentials` sets the flag to true whatever token the payload carries (`AuthSlice.SetCredentialsRoundTrip`), and the profile update stores a session with no user (`Profile.UpdateDropsUser`). The model follows the code.

## Model

| member | source | states |
|---|---|---|
| JsValues.TrimIdempotent | src/Components/CreateArticle/CreateArticle.js:36-37 | trimming a trimmed string changes nothing, and a non-empty trimmed string starts and ends with a non-whitespace character |
| JsValues.TrimEmptyIff | src/Components/CreateArticle/CreateArticle.js:36 | the trimmed input is empty, so falsy, exactly when every character is JS whitespace |
| JsValues.ToLowerIdempotent | src/Components/SignUp/SignUp.js:64 | lowercasing a lowercased key changes nothing |
| BlogApi.PrepareHeaders | src/blogApi.js:7-13 | `Authorization: Token <token>` is set exactly when the token is truthy; otherwise the headers are unchanged |
| BlogApi.ListQueryWindow | src/blogApi.js:18-24 | the list query sends offset `(page-1)*limit` and `limit`, with page 1 and limit 5 when they are undefined |
| BlogApi.ListWindowsTile | src/blogApi.js:18-24 | consecutive pages' windows are adjacent (the next offset is this offset plus limit), and offsets of pages from 1 are non-negative |
| BlogApi.ListWindowsDisjoint | src/blogApi.js:18-24 | two different pages with a positive limit request non-overlapping windows |
| ApiCache.ListReadEntry | src/blogApi.js:17-37 | a settled list read stores the response's articles and `articlesCount` with the page argument as passed, so a call without a page stores no current page although page 1 was requested; the entry provides one Article tag per returned slug in order, then the list tag, and a failed read keeps the page an earlier read stored (none for a first read) but provides the list tag alone |
| ApiCache.CurrentUserReadEntry | src/blogApi.js:78-85 | a settled current-user read stores the reply's `user`; a failed read keeps the user an earlier read stored; the entry provides the CurrentUser tag either way |
| BlogApi.ListProvidedTagsShape | src/blogApi.js:30-36 | a list result provides one Article tag per article (its slug) followed by the LIST tag; no result provides only LIST |
| BlogApi.ListProvidesSlug | src/blogApi.js:30-36 | a list result provides the tag of a slug exactly when some article on the page has that slug |
| BlogApi.FavoritePair | src/blogApi.js:44-58 | favorite and unfavorite use the same URL with POST and DELETE, and both invalidate exactly the article's tag |
| BlogApi.ArticleInvalidations | src/blogApi.js:97-124 | update invalidates the article and LIST, create only LIST, and delete's type-wide tag matches LIST but no single article |
| BlogApi.CurrentUserTagFlow | src/blogApi.js:60-95 | sign-up, sign-in and profile update all invalidate the CurrentUser tag, which the current-user read provides although it is not a declared tag type |
| ApiCache.Record | src/blogApi.js:30-41 | a settled read stores a fresh entry with the tags the endpoint provides for its result; a success replaces the data and a failure keeps the earlier data; other entries are left alone and the cache stays well formed |
| ApiCache.Invalidate | src/blogApi.js:49 | invalidation keeps keys, data and tags, and marks an entry stale exactly when it was stale or an invalidated tag matches one of its tags |
| ApiCache.InvalidateIdempotent | src/blogApi.js:49 | invalidating the same tags twice equals once and keeps the cache well formed |
| ApiCache.HitById | src/blogApi.js:49 | a tag with an id hits an entry exactly when the entry provided that very tag |
| ApiCache.ListEntryHasListTag | src/blogApi.js:30-36 | every cached list page carries the LIST tag |
| ApiCache.ArticleEntryTags | src/blogApi.js:41 | a cached article carries exactly its slug's tag, whether or not the read failed |
| ApiCache.UpdateArticleRefreshes | src/blogApi.js:112-115 | an update makes its article and every list page stale and keeps other articles and the current user |
| ApiCache.DeleteArticleRefreshesListsOnly | src/blogApi.js:123 | a delete makes every list page stale and keeps every other entry, the deleted article's entry included |
| ApiCache.CreateArticleRefreshesListsOnly | src/blogApi.js:103 | a create makes every list page stale and keeps every other entry |
| ApiCache.FavoriteRefreshesArticleAndPagesShowingIt | src/blogApi.js:49 | a (un)favorite makes its article stale, and a list page stale exactly when it was stale or its last settled read showed that slug; a page whose refetch failed is left as it was; nothing else changes |
| ApiCache.UserMutationsRefreshCurrentUserOnly | src/blogApi.js:60-95 | the three user mutations make the current-user entry stale and keep every other entry |
| AuthSlice.LoadDefaults | src/reducers/authSlice.js:13-31 | storage without `auth`, or with an entry that is unparseable or empty, loads the empty session without failing |
| AuthSlice.LoadIgnoresOtherKeys | src/reducers/authSlice.js:15 | writing or removing any key other than `auth` does not change what is loaded |
| AuthSlice.SetCredentialsRoundTrip | src/reducers/authSlice.js:58-71 | setCredentials stores the payload's user and token with the flag true, writes exactly that record under `auth`, reloads to the same session, and ignores any flag in the payload |
| AuthSlice.ClearIdempotent | src/reducers/authSlice.js:72-77 | logout empties the session and removes `auth` and nothing else; twice equals once; a reload gives the empty session |
| AuthSlice.FulfilledKeepsToken | src/reducers/authSlice.js:81-92 | a fulfilled check replaces the user, sets the flag, keeps the token and persists that record |
| AuthSlice.ReducersPersist | src/reducers/authSlice.js:58-98 | after every reducer a reload reproduces the session, and writing other keys keeps that so |
| AuthSlice.CheckAuthWithoutToken | src/reducers/authSlice.js:34-36 | a falsy token sends no request and rejects with "Token undefiend" whatever the server would say |
| AuthSlice.CheckAuthWithToken | src/reducers/authSlice.js:38-49 | with a token, GET /user is sent; the check is fulfilled exactly when data holds a user, and rejects with the server's message, "Authorization error" or "Incorrect response format" |
| AuthSlice.AuthStore.constructor | src/reducers/authSlice.js:52 | the store starts from what storage loads, and so satisfies the reload invariant |
| AuthSlice.AuthStore.SetCredentials | src/reducers/authSlice.js:58-71 | the fields and storage become the setCredentials step of the old state, and the invariant holds |
| AuthSlice.AuthStore.Logout | src/reducers/authSlice.js:72-77 | the state becomes the clearing step of the old state, and the invariant holds |
| AuthSlice.AuthStore.CheckAuthFulfilled | src/reducers/authSlice.js:81-92 | the state becomes the fulfilled step, and the invariant holds |
| AuthSlice.AuthStore.CheckAuthRejected | src/reducers/authSlice.js:93-98 | the state becomes the same clearing step as logout, and the invariant holds |
| AuthSlice.AuthStore.Dispatch | src/reducers/authSlice.js:57-78 | dispatching an action applies its reducer's step |
| AuthSlice.AuthStore.SetItem | src/Components/SignIn/SignIn.js:47-48 | a component's write to another key leaves the session and the invariant intact |
| AutoUpdaterUser.DispatchNeedsCredentials | src/Components/AutoUpdaterUser.js:9-13 | checkAuth is dispatched only with the flag set and a non-empty token, and on mount exactly then |
| AutoUpdaterUser.ClearedNeverRevalidates | src/Components/AutoUpdaterUser.js:10 | after logout or a rejected check the effect never dispatches |
| AutoUpdaterUser.FulfilledDoesNotRetrigger | src/Components/AutoUpdaterUser.js:13 | a fulfilled check changes neither dependency, so it does not retrigger itself |
| AutoUpdaterUser.RevalidationSettles | src/Components/AutoUpdaterUser.js:9-13 | whatever the check's result, once reduced the effect does not dispatch again |
| AutoUpdaterUser.SetCredentialsTriggers | src/Components/AutoUpdaterUser.js:9-13 | new credentials trigger a check exactly when their token is truthy and the session was unauthenticated or had another token |
| ArticleSlice.Pagination.constructor | src/reducers/articleSlise.js:3-6 | the initial state is page 1 with limit 5 |
| ArticleSlice.Pagination.SetCurrentPage | src/reducers/articleSlise.js:12-14 | the payload becomes the current page and the limit is unchanged |
| ArticleSlice.SetCurrentPageTwice | src/reducers/articleSlise.js:12-14 | applying the same payload twice leaves the state of applying it once |
| BlogList.QueryArgsWindow | src/Components/BlogList/BlogList.js:12-15 | the list requests offset `(currentPage-1)*limit` and the store's limit |
| BlogList.VisibleCards | src/Components/BlogList/BlogList.js:45-55 | every card links `/articles/<slug>` for an input article with a truthy slug, and every such article has its card |
| BlogList.VisibleCardsConcat | src/Components/BlogList/BlogList.js:45-55 | skipping slugless articles keeps the order: the cards of a concatenation are the concatenated cards |
| BlogList.RenderPrecedence | src/Components/BlogList/BlogList.js:21-70 | loading wins over error and error over the list; "no articles" exactly for missing or empty data; pagination shows the store's page and limit, the response's total, never disabled |
| BlogList.AllSluglessRendersBlank | src/Components/BlogList/BlogList.js:44-58 | a non-empty page whose articles all lack a slug renders an empty grid rather than "no articles" |
| BlogList.HandlePageChange | src/Components/BlogList/BlogList.js:17-19 | a page change sets the current page and keeps the limit |
| ArticleForm.WithTag | src/Components/CreateArticle/CreateArticle.js:35-40 | the trimmed input is appended exactly when it is non-empty and new, else the list is unchanged; duplicate-freedom is preserved |
| ArticleForm.WithoutTag | src/Components/CreateArticle/CreateArticle.js:42-44 | every value in the result is in the list and differs from the removed tag, and every other value of the list stays; the result is a subsequence of the list, is the list itself when the tag is absent, and keeps duplicate-freedom |
| ArticleForm.WithoutTagCounts | src/Components/CreateArticle/CreateArticle.js:42-44 | the filter keeps every other entry as many times as it occurred, duplicates included, and drops every copy of the removed tag |
| ArticleForm.AddThenRemove | src/Components/CreateArticle/CreateArticle.js:35-44 | removing a tag just added restores the list |
| ArticleForm.CleanTagsAdd | src/Components/CreateArticle/CreateArticle.js:35-40 | adding a tag keeps every tag distinct, non-empty and trimmed |
| ArticleForm.CleanTagsRemove | src/Components/CreateArticle/CreateArticle.js:42-44 | removing a tag keeps every tag distinct, non-empty and trimmed |
| ArticleForm.FormState.constructor | src/Components/CreateArticle/CreateArticle.js:18-20 | a new form has no tags, an empty input and no server error |
| ArticleForm.FormState.SetCurrentTag | src/Components/CreateArticle/CreateArticle.js:111 | typing replaces only the current input |
| ArticleForm.FormState.AddTag | src/Components/CreateArticle/CreateArticle.js:35-40 | the tags become the add step of the old ones, and the input is cleared exactly when the tag was accepted |
| ArticleForm.FormState.RemoveTag | src/Components/CreateArticle/CreateArticle.js:42-44 | the tags become the filter step of the old ones; nothing else changes |
| ArticleForm.FormState.ClearForm | src/Components/CreateArticle/CreateArticle.js:32-34 | only the current input is reset; the tags are unchanged |
| CreateArticle.SchemaBounds | src/Components/CreateArticle/CreateArticle.js:9-13 | each field is flagged exactly when out of bounds (title 3 to 100, description 1 to 200, body at least 10), and the form passes exactly when none is |
| CreateArticle.EnabledOnceValidated | src/Components/CreateArticle/CreateArticle.js:63 | once every field is validated, submit is enabled exactly when the schema passes and no request is in flight |
| CreateArticle.HandleSubmit | src/Components/CreateArticle/CreateArticle.js:46-62 | an invalid form sends nothing; otherwise the server error is cleared, the payload is sent, and "/" is opened only on success; a failure leaves the error cleared |
| EditArticle.SchemaBounds | src/Components/EditArticle/EditArticle.js:9-13 | each field is flagged exactly when out of bounds (title 3 to 100, description 10 to 200, body at least 20) |
| EditArticle.StricterThanCreate | src/Components/EditArticle/EditArticle.js:9-13 | every article the edit schema accepts the create schema accepts too, and the converse fails |
| EditArticle.LoadArticle | src/Components/EditArticle/EditArticle.js:35-45 | a loaded article resets the form to title, description and body, and the tags to tagList or []; without an article nothing changes |
| EditArticle.UpdateFailure | src/Components/EditArticle/EditArticle.js:80 | the server error is the `errors` payload when present, otherwise "Couldn't update the article" |
| EditArticle.HandleSubmit | src/Components/EditArticle/EditArticle.js:63-82 | an invalid form sends nothing; otherwise the slug and payload are sent, success opens `/articles/<slug>` with no error, and a failure records its server error |
| EditArticle.UneditedSubmitSendsArticle | src/Components/EditArticle/EditArticle.js:35-75 | loading an article and then submitting the reset values unedited, when the edit schema accepts them, sends the article's own title, description, body and tags (or none) back to its slug |
| EditArticle.View | src/Components/EditArticle/EditArticle.js:84-90 | fetching first, then "not found" without an article, then the form |
| BlogArticle.Toggled | src/Components/BlogArticle/BlogArticle.js:20-33 | the mark flips, the count moves down for a favourite and up otherwise, every other field is kept |
| BlogArticle.ToggleTwice | src/Components/BlogArticle/BlogArticle.js:20-33 | two successful toggles restore the article |
| BlogArticle.LikeRequest | src/Components/BlogArticle/BlogArticle.js:17-28 | logged out, no request; otherwise DELETE on a favourite and POST on the others, at the article's favorite URL |
| BlogArticle.Card.constructor | src/Components/BlogArticle/BlogArticle.js:12 | the card starts with the article it was given |
| BlogArticle.Card.HandleLikeClick | src/Components/BlogArticle/BlogArticle.js:14-38 | the request is the like request, and the article is toggled exactly when logged in and the request succeeds |
| BlogArticle.ClickTwice | src/Components/BlogArticle/BlogArticle.js:20-33 | two successful clicks restore the card and send opposite requests to the same URL |
| BlogArticle.RenderTags | src/Components/BlogArticle/BlogArticle.js:69-79 | "No tags" exactly for an empty list, chips for a non-empty one, and a render failure for a missing list |
| ArticlePage.IsAuthorIff | src/Components/Article/Article.js:57-61 | the reader is the author exactly when logged in with a user whose username equals the non-empty author name |
| ArticlePage.Render | src/Components/Article/Article.js:32-116 | loading, then the error, then "not found"; a loaded article without a tag list fails to render, because the tag chips map over it; otherwise the article is shown with author controls exactly when the reader is the author |
| ArticlePage.EditRouteExtendsCardLink | src/Components/Article/Article.js:19-21 | the edit route is the list card's link followed by `/edit`, and for a one-segment slug both are paths the router renders |
| ArticlePage.HandleDelete | src/Components/Article/Article.js:23-30 | DELETE `/articles/<slug>` is sent; "/" is opened exactly on success |
| Schema.StringIssue | src/Components/SignUp/SignUp.js:13-26 | a string field passes exactly when it is absent and optional, or present, non-empty when required, and within its bounds |
| Schema.UrlIgnoresCase | src/Components/Profile/Profile.js:24 | a value matches the URL pattern exactly when its lowercased form does |
| Schema.UrlHasScheme | src/Components/Profile/Profile.js:24 | a matching value is at least eight characters long and starts with `http` in some case, so a bare scheme never matches |
| Schema.UrlPatternExamples | src/Components/Profile/Profile.js:24 | concrete cases: an upper-case scheme matches, while a bare `http://` and an `ftp://` URL do not |
| FormErrors.ServerErrorsDomain | src/Components/SignUp/SignUp.js:63-68 | the error names after the forEach are the old ones plus the lowercased server keys |
| FormErrors.ServerErrorsKeep | src/Components/SignUp/SignUp.js:63-68 | a name no server key lowercases to keeps its old error |
| FormErrors.ServerErrorsLastWins | src/Components/SignUp/SignUp.js:63-68 | the last entry naming a key decides its message: the array joined with ", " or the value itself |
| FormErrors.ServerErrorsAreServer | src/Components/SignUp/SignUp.js:63-68 | the server entries only ever add server-type errors |
| FormErrors.ServerKeysLowercase | src/Components/SignUp/SignUp.js:64 | every name the server adds is already in lower case |
| FormErrors.RootMessage | src/Components/SignIn/SignIn.js:70 | the root message is the error's message when truthy, otherwise the fallback |
| FormErrors.Form.SetError | src/Components/SignUp/SignUp.js:64-67 | setError replaces one name's error |
| FormErrors.Form.Validate | src/Components/SignUp/SignUp.js:42-44 | validation replaces the error object by the schema's errors: exactly the failing fields, each with its first issue, and none when the schema passes |
| FormErrors.Form.ApplyServerErrors | src/Components/SignUp/SignUp.js:63-68 | the loop of setError calls ends in the fold of the entries over the old errors |
| FormErrors.Form.Report | src/Components/SignUp/SignUp.js:61-74 | a catch block maps the server entries or sets the root error, and a sign-out sets nothing |
| SignUp.RepeatIssue | src/Components/SignUp/SignUp.js:27-30 | the repeat passes exactly when it is non-empty and equals the password |
| SignUp.AgreeIssue | src/Components/SignUp/SignUp.js:31-33 | the checkbox fails exactly on an explicit false |
| SignUp.SchemaBounds | src/Components/SignUp/SignUp.js:12-34 | username 3 to 20, e-mail present, password 6 to 40, an equal repeat and agreement not refused, field by field and as a whole |
| SignUp.Settle | src/Components/SignUp/SignUp.js:53-75 | a reply with a user registers it; a failure with `errors` maps them; anything else, a reply without user included, sets "Registration failed. Please try again." |
| SignUp.RootErrorOnlyWithoutPayload | src/Components/SignUp/SignUp.js:61-74 | a manual root error appears exactly when the failure has no `errors` payload, and then it is the only error |
| SignUp.HandleSubmit | src/Components/SignUp/SignUp.js:50-76 | an invalid form sends nothing; a registration stores the user with its own token and opens "/"; a failure only fills the error object |
| SignIn.SchemaBounds | src/Components/SignIn/SignIn.js:11-14 | e-mail present and a password of at least 6, field by field and as a whole |
| SignIn.Settle | src/Components/SignIn/SignIn.js:33-72 | a login needs a user with a truthy token, else "Invalid server response"; a 401 signs out; then the `errors` payload; then the message or "Login failed. Please try again." |
| SignIn.LoginPersists | src/Components/SignIn/SignIn.js:39-48 | a login's session holds the user and token, and the extra `user` and `token` keys never change what a reload gives |
| SignIn.HandleSubmit | src/Components/SignIn/SignIn.js:31-74 | an invalid form sends nothing; a login stores credentials, writes both keys and opens "/"; a 401 logs out and opens the login route `/sign-in` with no form error (the code opens `/login`, see Findings); other failures fill the error object |
| SignIn.UnauthorizedRouteAsWrittenUnrouted | src/Components/SignIn/SignIn.js:54-58 | the path the code opens after a 401, `/login`, is not a routed path |
| SignIn.UnauthorizedRouteRouted | src/Components/SignIn/SignIn.js:54-58 | the login route the corrected handler opens, `/sign-in`, is routed |
| Profile.ImageIssue | src/Components/Profile/Profile.js:19-24 | the image passes exactly when it is null or a non-empty string matching the explicit URL pattern |
| Profile.PasswordIssue | src/Components/Profile/Profile.js:14-18 | corrected rule (the code rejects `""`, see Findings): the password passes exactly when it is null, empty or 6 to 40 characters |
| Profile.SchemaBoundsAsWritten | src/Components/Profile/Profile.js:11-25 | the schema as written: username 1 to 20, e-mail present, password null or 6 to 40 (so `""` fails), image null or a matching URL |
| Profile.SchemaBounds | src/Components/Profile/Profile.js:11-25 | corrected schema (the code rejects `""`, see Findings): username 1 to 20, e-mail present, password null, empty or 6 to 40, image null or a matching URL, field by field and as a whole |
| Profile.CorrectionOnlyOnEmptyPassword | src/Components/Profile/Profile.js:14-18 | the schema as written and as used differ only on an empty password, which the written one rejects as too short |
| Profile.ResetFormRejectedAsWritten | src/Components/Profile/Profile.js:52-61 | as written, the form reset from any user fails on its password |
| Profile.ResetFormAccepted | src/Components/Profile/Profile.js:74-81 | with an empty password accepted, a form reset from a well-formed user passes and sends no password |
| Profile.UpdateData | src/Components/Profile/Profile.js:74-81 | username and e-mail are always sent, the password and the image exactly when truthy |
| Profile.Settle | src/Components/Profile/Profile.js:83-107 | a reply updates; an undefined reply throws a TypeError that becomes the root error; a 401 signs out; then the `errors` payload; then the message or "Update failed. Please try again." |
| Profile.UpdateDropsUser | src/Components/Profile/Profile.js:85-90 | a successful update stores no user and the reply's token; with the token unchanged, no revalidation refills the user |
| Profile.HandleSubmit | src/Components/Profile/Profile.js:72-109 | an invalid form sends nothing; otherwise "/" is opened before the outcome; success stores the read credentials; a 401 logs out and opens `/sign-in`; other failures fill the error object |
| Profile.CurrentUserRequest | src/Components/Profile/Profile.js:32-34 | the current-user query runs exactly when the token is truthy |
| Profile.ResetOnLoad | src/Components/Profile/Profile.js:52-61 | the form is reset exactly when a user is loaded, to its reset values |
| Profile.HandleUserError | src/Components/Profile/Profile.js:65-70 | a 401 from the query logs out and opens `/sign-in`; other errors change nothing |
| Profile.Render | src/Components/Profile/Profile.js:111-122 | no token redirects, then the query error, then loading until a user arrives, then the form |
| Routes.ArticleRoutes | src/Components/App/App.js:26-36 | an article's page and editor paths are routed when the slug is one non-empty segment, and `/articles/` alone is not |
| Profile.FormImpliesQueryAndReset | src/Components/Profile/Profile.js:111-122 | the form is shown only while the query runs and once the reset has a user |

## Left out

- JSX markup, CSS modules, icons, spinners, Ant Design widgets, react-markdown and date-fns formatting are left out. Views are modelled only as the choice of which view is shown.
- `Header.js`, `store.js` and `index.js` are not part of this model. They hold presentational markup and store wiring. Of `App.js` only the route table is modelled (`Routes`); its mount-time `checkAuth` dispatch and the private-route redirect are not.
- Routes are matched literally: the router's case-insensitive matching and trailing-slash tolerance are not modelled.
- Network transport is not modelled. Each request's settled result is an input value, and the base URL is implicit in every path.
- Asynchronous scheduling, request deduplication and the ordering of in-flight requests are not modelled. The cache model is state-level only, and it invalidates after every mutation whether it succeeded or failed.
- The cache model assumes one matching rule. A tag with no id matches every id of its type, and `CurrentUser` tags flow even though that type is not declared in `tagTypes`.
- The built-in e-mail and URL validators, and the resolver's mechanics beyond replacing the error object, are library code. Only the required, length, equality, acceptance and explicit-pattern checks are kept.
- The ordering of yup errors inside one field is not modelled; each field reports its first failing check in declaration order.
- JSON serialisation is not modelled. Storage holds decoded values, and a value that fails to parse is `Corrupt`. Null and undefined are both `None`.
- `Object.entries` is taken to return entries in the given sequence order, with no reordering of integer-like keys.
- `JsValues.ToLower`: models `toLowerCase` on ASCII only, because server error keys are field names.
- `Profile.Settle`: the message of the TypeError thrown on an undefined reply is engine-specific, and is modelled as one fixed text.
- String lengths count Dafny characters, not UTF-16 code units.
- `console.error` logging is left out.
- `Profile.PasswordIssue`: the corrected rule accepts `""`, which the code's `min(6)` rejects (see Findings); `Profile.PasswordIssueAsWritten` is the rule as written.
- `Profile.SchemaBounds`: states the corrected schema; `Profile.SchemaBoundsAsWritten` states the schema as written.
- `Profile.HandleSubmit`: validates with the schema that accepts an empty password (see Findings). `Profile.IssuesAsWritten` is the schema as the source states it.
- `SignIn.HandleSubmit`: opens `/sign-in` after a 401, the corrected route (see Findings); `SignIn.LoginRouteAsWritten` is the path as the source states it.
- `AuthSlice.LoadAuthState`: an `auth` text that parses to something other than a session record (a user, a token string) loads the empty session here, whereas the program would take the parsed value as its state. Only the store writes this key, so the case does not arise in the program.
- yup 1.x semantics are assumed, as no package manifest is part of this model: a later `.nullable()` overrides `.required()`, so `Profile.ImageIssue` lets null pass. Under yup 0.32 `required` would reject null.
- `SignUp.AgreeIssue`: an absent checkbox value passes, because yup's `oneOf` skips undefined. The form itself always reports a boolean.

## Findings

| source | as written | input that shows it | evidently intended | confidence | as-written member | corrected member |
|---|---|---|---|---|---|---|
| src/Components/Profile/Profile.js:14-18 | the password's `min(6)` also applies to the empty string, and the reset effect puts exactly that string in the field (line 57) | any loaded user; the reset form has password `""`, which fails as too short | an empty password means "keep the current one": the payload omits a falsy password (line 78), so the check should accept it | not executed; rests on yup checking lengths of every non-null string | Profile.ResetFormRejectedAsWritten | Profile.ResetFormAccepted |
| src/Components/SignIn/SignIn.js:54-58 | a 401 logs out and opens `/login`, a path the route table (src/Components/App/App.js:26-36) does not render | a login answered with status 401 | the login page `/sign-in`, which the profile page opens for a signed-out user (src/Components/Profile/Profile.js:68) | not executed | SignIn.UnauthorizedRouteAsWrittenUnrouted | SignIn.UnauthorizedRouteRouted |
