# Ride-hailing admin dashboard: a verified model of its client-side logic

This project models the client-side logic of a Nuxt admin dashboard for a
ride-hailing back office. It covers:

- the display formatters: relative last-login time, capitalisation, status colours;
- the global UI state: the toast queue and the sidebar flag;
- the route guard that sends signed-out users to the login page and signed-in users away from it;
- the API client: the token slot in browser storage, request headers, error messages;
- the auth store: login, logout, re-loading the current admin;
- the dashboard statistics store;
- the five resource stores (admins, drivers, passengers, rides, feedbacks).

Each operation is one atomic step. The outside world is an input:

- an API call is passed in already finished, as an `Outcome` (`Returned(value)`,
  `ThrewError(message)` or `ThrewNonError`);
- the clock reading is an integer number of milliseconds;
- browser storage is a field of a `TokenStore`;
- router pushes are a list of paths;
- each toast timer the code schedules is a recorded `Timer`.

Modules, one per source file or shared concept:

| file | module | models |
|---|---|---|
| wrappers.dfy | Wrappers | `Option`, for `null`/`undefined` and default parameters |
| decimal.dfy | Decimal | how numbers appear in template literals, and the inverse reading |
| removal.dfy | Removal | `filter((x) => x.id !== id)`, shared by the toast queue and every store |
| last_login.dfy | LastLoginFormatter | `formatLastLogin` |
| capitalize.dfy | CapitalizeFormatter | `capitalize`, `capitalizeWords` |
| status_color.dfy | StatusColorFormatter | `getStatusColor` |
| toast.dfy | Toasts | `useToast` |
| sidebar.dfy | Sidebar | `useSidebar` |
| auth_middleware.dfy | AuthMiddleware | the `auth` route middleware |
| api.dfy | Api | `useApi` |
| auth.dfy | Auth | `useAuth` |
| dashboard.dfy | Dashboard | `useDashboard` |
| entities.dfy | Entities | the record types and the stores' mock lists |
| resource_store.dfy | ResourceStores | `useAdmins`, `useDrivers`, `usePassengers`, `useRides`, `useFeedbacks` |

State the source changes in place is a class whose methods say their whole new state:

- `ToastQueue`, `SidebarState`, `TokenStore`, `DashboardStore`;
- `AuthStore`, whose methods are tied to pure transitions on a `Session` value;
- the generic `ResourceStore<T>`, instantiated five times.

The guarantees that relate several steps are proved as lemmas. These cover removal
by id, the auth transitions, the formatter buckets, and the word and space
structure of capitalised text.

The five resource stores say in comments that an API-backed version will
replace them ("Will Replace with actual API call when ready", e.g.
app/composables/useAdmins.ts:14). The model follows the mock code as written:

- Fetching installs a fixed mock list and deleting filters the list. Neither
  step can fail, so the model has no error path for them.
- Rides and feedbacks have a delete in the code, and the model has it too.

## Model

| member | source | states |
|---|---|---|
| `LastLoginFormatter.Classify` | app/utils/lastLoginFormatter.ts:9-35 | the if-chain on the floored quotients; a minutes count is always 1..59, hours 1..23, days 1..7 |
| `LastLoginFormatter.ClassifyBySpan` | app/utils/lastLoginFormatter.ts:10-35 | the floored chain agrees, for every integer difference, with plain spans: under 1 min, under 1 h, under 1 day, under 8 days, beyond |
| `LastLoginFormatter.JustNowExactly` | app/utils/lastLoginFormatter.ts:15-17 | "Just now" exactly for differences under 60000 ms, future timestamps included |
| `LastLoginFormatter.MinutesExactly` | app/utils/lastLoginFormatter.ts:19-22 | minutes bucket exactly for 1 min <= diff < 60 min, showing floor(diff/60000) |
| `LastLoginFormatter.HoursExactly` | app/utils/lastLoginFormatter.ts:24-27 | hours bucket exactly for 60 min <= diff < 24 h, showing floor(diff/3600000) |
| `LastLoginFormatter.DaysExactly` | app/utils/lastLoginFormatter.ts:29-32 | days bucket exactly for 1 day <= diff < 8 days (7 days inclusive), showing floor(diff/86400000) |
| `LastLoginFormatter.CalendarDateExactly` | app/utils/lastLoginFormatter.ts:34-35 | the calendar date exactly from 8 days on |
| `LastLoginFormatter.ClassifyMonotone` | app/utils/lastLoginFormatter.ts:15-35 | a larger difference never gets a finer unit, and within one unit never a smaller count |
| `LastLoginFormatter.Render` | app/utils/lastLoginFormatter.ts:15-35 | "Just now"; the count's digits, the unit letter m, h or d, then " ago"; or `formatDate(date, false)` for the calendar bucket |
| `LastLoginFormatter.FormatLastLogin` | app/utils/lastLoginFormatter.ts:1-36 | falsy input gives "Never"; otherwise the text of the bucket of now - date read by plain spans (under 1 min, 1 h, 1 day, 8 days, beyond) |
| `LastLoginFormatter.RenderInjective` | app/utils/lastLoginFormatter.ts:19-32 | distinct relative buckets never render to the same text |
| `LastLoginFormatter.WorkedExamples` | app/utils/lastLoginFormatter.ts:4-35 | now gives "Just now", 5 min "5m ago", 3 h "3h ago", 2 days "2d ago", 10 days `formatDate(date, false)`, missing "Never" |
| `Decimal.NatToString` | app/utils/lastLoginFormatter.ts:21 | a number prints as digits only, with no leading zero |
| `Decimal.DigitsValueOfNatToString` | app/utils/lastLoginFormatter.ts:21-31 | reading the printed count back gives the count |
| `CapitalizeFormatter.Trim` | app/utils/capitalizeFormatter.ts:3 | the result neither starts nor ends with whitespace |
| `CapitalizeFormatter.TrimEmptyIff` | app/utils/capitalizeFormatter.ts:3-4 | trimming gives "" exactly for whitespace-only text |
| `CapitalizeFormatter.Capitalize` | app/utils/capitalizeFormatter.ts:1-6 | the result has no whitespace at either end and is never longer than the input |
| `CapitalizeFormatter.UpperFirst` | app/utils/capitalizeFormatter.ts:5 | same length, only the first character upper-cased; trimmed text stays trimmed |
| `CapitalizeFormatter.CapitalizeShape` | app/utils/capitalizeFormatter.ts:1-6 | null/undefined/"" give ""; otherwise the trimmed text, same length, first character upper-cased, rest unchanged |
| `CapitalizeFormatter.CapitalizeAllSpace` | app/utils/capitalizeFormatter.ts:3-4 | whitespace-only text gives "" |
| `CapitalizeFormatter.CapitalizeIdempotent` | app/utils/capitalizeFormatter.ts:3-5 | capitalizing twice equals capitalizing once |
| `CapitalizeFormatter.CapitalizeWord` | app/utils/capitalizeFormatter.ts:14 | on a word, `capitalize` upper-cases its first character and yields a word |
| `CapitalizeFormatter.SplitRuns` | app/utils/capitalizeFormatter.ts:12 | `split(/\s+/)` yields at least one piece and no piece contains whitespace |
| `CapitalizeFormatter.KeepNonEmpty` | app/utils/capitalizeFormatter.ts:13 | keeps only non-empty pieces, each taken from the input, and keeps a list with no empty piece as it is |
| `CapitalizeFormatter.CapitalizeEach` | app/utils/capitalizeFormatter.ts:14 | same length, and each element is `capitalize` of the element at the same position |
| `CapitalizeFormatter.Join` | app/utils/capitalizeFormatter.ts:15 | "" for no words; otherwise the text starts with the first word |
| `CapitalizeFormatter.SplitRunsKeepNonEmpty` | app/utils/capitalizeFormatter.ts:12-13 | split then `filter(Boolean)` yields exactly the maximal non-whitespace runs, in order |
| `CapitalizeFormatter.WordsTrim` | app/utils/capitalizeFormatter.ts:11 | trimming first does not change the words |
| `CapitalizeFormatter.WordsOfJoin` | app/utils/capitalizeFormatter.ts:15 | splitting words joined by " " gives back the same words |
| `CapitalizeFormatter.JoinWellSpaced` | app/utils/capitalizeFormatter.ts:15 | words joined by " " have no outer whitespace and single spaces between words |
| `CapitalizeFormatter.CapitalizeWordsIsJoinOfWords` | app/utils/capitalizeFormatter.ts:8-16 | falsy input gives ""; otherwise the input's words, in order, each capitalized, joined by one space |
| `CapitalizeFormatter.WordsOfCapitalizeWords` | app/utils/capitalizeFormatter.ts:10-15 | the words of the output are exactly the capitalized words of the input |
| `CapitalizeFormatter.CapitalizeWords` | app/utils/capitalizeFormatter.ts:8-16 | the output has no leading or trailing whitespace and separates words by exactly one space |
| `CapitalizeFormatter.CapitalizeWordsIdempotent` | app/utils/capitalizeFormatter.ts:8-16 | applying `capitalizeWords` to its output changes nothing |
| `StatusColorFormatter.GetStatusColor` | app/utils/statusColorFormatter.ts:3-9 | a non-empty entry is returned; a missing key or an empty entry gives the fallback |
| `StatusColorFormatter.StatusColorRange` | app/utils/statusColorFormatter.ts:8 | the result is the fallback or a non-empty map entry, and non-empty when the fallback is |
| `StatusColorFormatter.DefaultStatusColorNonEmpty` | app/utils/statusColorFormatter.ts:6-8 | with the default fallback the result is never empty, and is "text-white" for an unknown key |
| `AuthMiddleware.Redirect` | app/middleware/auth.ts:1-13 | signed out off "/" goes to "/"; signed in on "/" goes to "/dashboard"; otherwise no redirect |
| `AuthMiddleware.PassesIff` | app/middleware/auth.ts:5-12 | a navigation passes exactly when (signed in) equals (target is not "/") |
| `AuthMiddleware.NoSelfRedirect` | app/middleware/auth.ts:5-12 | a redirect target always differs from the requested path |
| `AuthMiddleware.RedirectSettles` | app/middleware/auth.ts:5-12 | the redirect target itself passes the guard, so redirects never chain |
| `Removal.Without` | app/composables/useToast.ts:35 | the result is no longer than the input, holds no element with the id, and holds only input elements |
| `Removal.WithoutAppend` | app/composables/useToast.ts:35 | removing from a concatenation concatenates the removals, so survivors keep their relative order |
| `Removal.WithoutCounts` | app/composables/useAdmins.ts:67-69 | every element with another id survives exactly as often as it occurred; none with the id survives |
| `Removal.WithoutUnchangedIff` | app/composables/useDrivers.ts:94-96 | the list is unchanged exactly when no element carries the id |
| `Removal.WithoutIdempotent` | app/composables/usePassengers.ts:46-48 | removing twice equals removing once |
| `Removal.RemoveAppendedFresh` | app/composables/useToast.ts:21-23 | removing an element just appended under an unused id restores the list |
| `Toasts.TimersFor` | app/composables/useToast.ts:25-29 | an automatic removal is scheduled exactly when the duration is positive, for that toast and delay |
| `Toasts.ToastQueue.constructor` | app/composables/useToast.ts:12 | the queue starts empty |
| `Toasts.ToastQueue.AddToast` | app/composables/useToast.ts:15-32 | appends exactly one toast (type default "info", duration default 3000), returns its id, records its timer |
| `Toasts.ToastQueue.RemoveToast` | app/composables/useToast.ts:34-36 | the queue becomes the removal of that id; timers are untouched |
| `Toasts.ToastQueue.ShowSuccess` | app/composables/useToast.ts:38-40 | adds a toast of type success |
| `Toasts.ToastQueue.ShowError` | app/composables/useToast.ts:42-44 | adds a toast of type error |
| `Toasts.ToastQueue.ShowInfo` | app/composables/useToast.ts:46-48 | adds a toast of type info |
| `Toasts.ToastQueue.ShowWarning` | app/composables/useToast.ts:50-52 | adds a toast of type warning |
| `Toasts.AddThenRemove` | app/composables/useToast.ts:15-36 | adding under an unused id and removing it restores the queue |
| `Toasts.RemoveTwice` | app/composables/useToast.ts:34-36 | removing the same id twice leaves what removing once leaves |
| `Sidebar.SidebarState.constructor` | app/composables/useSidebar.ts:2 | the shared flag starts open |
| `Sidebar.SidebarState.ToggleSidebar` | app/composables/useSidebar.ts:4-6 | negates the flag |
| `Sidebar.SidebarState.CloseSidebar` | app/composables/useSidebar.ts:8-10 | the flag is false afterwards, from any state |
| `Sidebar.SidebarState.OpenSidebar` | app/composables/useSidebar.ts:12-14 | the flag is true afterwards, from any state |
| `Sidebar.ToggleTwice` | app/composables/useSidebar.ts:4-6 | toggling twice restores the flag |
| `Api.BaseUrl` | app/composables/useApi.ts:3 | the configured base, or "http://localhost:5000/api" when it is empty; never empty |
| `Api.ReadToken` | app/composables/useApi.ts:6-11 | a token is read only on the client, and it is the stored entry |
| `Api.StoreToken` | app/composables/useApi.ts:14-18 | on the client the slot then holds exactly the token; off it the slot is untouched |
| `Api.DropToken` | app/composables/useApi.ts:21-25 | on the client the slot is then empty; off it the slot is untouched |
| `Api.TokenStore.constructor` | app/composables/useApi.ts:6-25 | a token slot on or off the client with the given stored entry |
| `Api.ReadAfterStore` | app/composables/useApi.ts:6-18 | on the client the token read after storing t is t; off the client none |
| `Api.ReadAfterDrop` | app/composables/useApi.ts:6-25 | after removal no token is read |
| `Api.OffClientInert` | app/composables/useApi.ts:6-25 | off the client nothing is read and storing or removing changes nothing |
| `Api.TokenStore.GetToken` | app/composables/useApi.ts:6-11 | returns the stored token on the client, null off it |
| `Api.TokenStore.SetToken` | app/composables/useApi.ts:14-18 | stores the token on the client only |
| `Api.TokenStore.RemoveToken` | app/composables/useApi.ts:21-25 | clears the token on the client only |
| `Api.StoreRoundTrip` | app/composables/useApi.ts:6-25 | on the client a stored token is read back; after removal none is |
| `Api.Headers` | app/composables/useApi.ts:34-42 | keys are Content-Type, the caller's, and Authorization when the token is truthy; the caller overrides Content-Type; the bearer token overrides the caller's Authorization; other caller headers pass unchanged |
| `Api.AuthorizationSentIff` | app/composables/useApi.ts:39-42 | Authorization is sent exactly when the token is truthy or the caller supplied one, and the caller's value survives only without a token |
| `Api.BuildRequest` | app/composables/useApi.ts:44-47 | the URL is base then endpoint; method and body pass through; headers are the merged ones |
| `Api.ErrorMessage` | app/composables/useApi.ts:49-55 | unparseable body gives "An error occurred"; a truthy `message` is used; else "HTTP error! status: N"; never empty |
| `Api.StatusRecoverable` | app/composables/useApi.ts:53-55 | the status code can be read back from the fallback message |
| `Api.FetchOutcome` | app/composables/useApi.ts:49-58 | an ok response returns its data; any other throws an `Error` with the selected, non-empty message |
| `Auth.IsAuthenticated` | app/composables/useAuth.ts:67-69 | signed in exactly when, on the client, a non-empty token is stored (the reading at this moment) |
| `Auth.FailureMessage` | app/composables/useAuth.ts:40-53 | the answer's message, the thrown `Error`'s message, or "Login failed" for anything else thrown |
| `Auth.LoginState` | app/composables/useAuth.ts:19-57 | ends not loading; pushes nothing but possibly "/dashboard"; the slot is untouched or holds the answer's token |
| `Auth.LoginResultOf` | app/composables/useAuth.ts:39-53 | success exactly for a success answer, and a message exactly when not successful |
| `Auth.LogoutState` | app/composables/useAuth.ts:60-64 | token slot emptied, no admin; loading and error left as they were |
| `Auth.FetchCurrentAdminState` | app/composables/useAuth.ts:72-86 | loading and error untouched; an answer leaves token and router alone; otherwise the token is dropped |
| `Auth.InitAuthState` | app/composables/useAuth.ts:89-93 | either nothing changes or the step is `fetchCurrentAdmin`; loading and error untouched |
| `Auth.ReadCachedAuthenticated` | app/composables/useAuth.ts:67-69 | as written: the first read evaluates the token and fills the cache; every later read returns the cached value |
| `Auth.InitAuthStateAsWritten` | app/composables/useAuth.ts:89-93 | as written: gated on the cached reading; with an unread cache it is `InitAuthState` |
| `Auth.CachedReadingStaleAfterLogout` | app/composables/useAuth.ts:60-69 | as written: a reading taken after a successful login stays true after logout, though no token is stored |
| `Auth.AuthStore.constructor` | app/composables/useAuth.ts:14-16 | no admin, not loading, no error, no navigation |
| `Auth.AuthStore.Login` | app/composables/useAuth.ts:19-57 | the new state and result are `LoginState` and `LoginResultOf` of the outcome |
| `Auth.AuthStore.Logout` | app/composables/useAuth.ts:60-64 | the new state is `LogoutState` |
| `Auth.AuthStore.FetchCurrentAdmin` | app/composables/useAuth.ts:72-86 | the new state is `FetchCurrentAdminState` of the outcome |
| `Auth.AuthStore.InitAuth` | app/composables/useAuth.ts:89-93 | the new state is `InitAuthState` of the outcome |
| `Auth.LoginSuccessEffects` | app/composables/useAuth.ts:29-39 | success stores the token, sets the admin, pushes "/dashboard", leaves no error or loading, returns success |
| `Auth.LoginAdmitsDashboard` | app/composables/useAuth.ts:30-37 | the token is stored before the push: the guard on that push sees a signed-in session and admits "/dashboard" |
| `Auth.LoginFailureEffects` | app/composables/useAuth.ts:40-53 | failure records the response's or thrown message, or "Login failed"; token, admin and router are untouched |
| `Auth.LoginSettles` | app/composables/useAuth.ts:20-56 | login always ends not loading, with no error exactly when it succeeded |
| `Auth.LogoutSignsOut` | app/composables/useAuth.ts:60-69 | after logout nobody is signed in, no admin is held, and "/" was pushed |
| `Auth.FetchFailureIsLogout` | app/composables/useAuth.ts:81-85 | a thrown `/auth/me` call has exactly the effects of logout |
| `Auth.FetchCurrentAdminAnswered` | app/composables/useAuth.ts:78-80 | an answer sets the admin only when it reports success |
| `Auth.InitAuthIdle` | app/composables/useAuth.ts:89-93 | nothing changes unless the session is signed in without a loaded admin |
| `Auth.LoginThenLogout` | app/composables/useAuth.ts:67-69 | signed in right after a successful login, signed out right after logout |
| `Dashboard.FetchStatsError` | app/composables/useDashboard.ts:41-46 | no error unless the call threw; an `Error`'s message, else "Failed to fetch dashboard statistics" |
| `Dashboard.DashboardStore.constructor` | app/composables/useDashboard.ts:18-28 | all six counters 0, not loading, no error |
| `Dashboard.DashboardStore.FetchStats` | app/composables/useDashboard.ts:31-51 | stats replaced only by a success answer; the error is `FetchStatsError`; not loading afterwards |
| `ResourceStores.ResourceStore.constructor` | app/composables/useAdmins.ts:4-6 | empty list, not loading, no error |
| `ResourceStores.ResourceStore.Fetch` | app/composables/useAdmins.ts:9-60 | the list becomes exactly the mock list; no error; not loading |
| `ResourceStores.ResourceStore.Delete` | app/composables/useAdmins.ts:62-75 | the list becomes its removal by id; returns true; loading and error unchanged |
| `ResourceStores.UseAdmins` | app/composables/useAdmins.ts:3-84 | a fresh store keyed by admin id over the mock admins |
| `ResourceStores.UseDrivers` | app/composables/useDrivers.ts:3-111 | a fresh store keyed by driver id over the mock drivers |
| `ResourceStores.UsePassengers` | app/composables/usePassengers.ts:3-63 | a fresh store keyed by passenger id over the mock passengers |
| `ResourceStores.UseRides` | app/composables/useRides.ts:3-126 | a fresh store keyed by ride id over the mock rides |
| `ResourceStores.UseFeedbacks` | app/composables/useFeedbacks.ts:3-88 | a fresh store keyed by feedback id over the mock feedbacks |
| `ResourceStores.MockAdminIds` | app/composables/useAdmins.ts:19-53 | the mock admins have ids 1, 2, 3 in that order |
| `ResourceStores.MockDriversWellTyped` | app/composables/useDrivers.ts:19-80 | ids 101, 102, 103; every license status and vehicle ownership lies in the declared unions |
| `ResourceStores.MockPassengerIds` | app/composables/usePassengers.ts:19-32 | exactly one mock passenger, id 201 |
| `ResourceStores.MockRideIds` | app/composables/useRides.ts:19-95 | five mock rides with ids 1 to 5 in order |
| `ResourceStores.MockFeedbackIds` | app/composables/useFeedbacks.ts:19-57 | mock feedbacks with ids 301 to 304 in order |
| `ResourceStores.DeleteRideComparesOnlyId` | app/composables/useRides.ts:104-117 | rides 4 and 5 equal ride 3 except for the id, and deleting 3 keeps both |
| `ResourceStores.FetchThenDeleteRide` | app/composables/useRides.ts:9-112 | fetching rides and deleting ride 3 leaves rides 1, 2, 4, 5 |

## Left out

- The network call and JSON parsing are not modelled. Every API call arrives as an `Outcome`. A failed `fetch` (network error) is one of its `ThrewError` cases.
- Api.FetchOutcome: an ok response whose body is not JSON, which makes `response.json()` throw, is not modelled. The browser's message for that case is not known here.
- Api.ErrorMessage: the error body's `message` is modelled as an optional string. A non-string JSON value there is not represented.
- Api.ErrorMessage: a non-ok response whose JSON body is `null` is not represented. Reading `error.message` (useApi.ts:54) then throws a `TypeError` instead of the `Error` the model describes.
- StatusColorFormatter.GetStatusColor: the colour map is a finite map. In JavaScript, `map[value]` also finds names inherited from `Object.prototype` ("toString", "constructor", ...) and returns that member instead of the fallback. The model gives the fallback for them.
- Api.Headers: caller headers are a record of names to values. A `Headers` object or a list of pairs passed as `options.headers` is not represented.
- Auth.AuthStore.Login: the username and password only go into the request body. The request is replaced by its outcome, so they are not parameters.
- localStorage is the `stored` field of `TokenStore`. `useRuntimeConfig` is the `apiBase` parameter of `BaseUrl`. `useState` sharing is one object per store. In the source `currentAdmin` is shared across `useAuth` callers while `isLoading` and `error` belong to each caller. The model has one caller.
- Auth.LoginThenLogout: it reads `isAuthenticated` fresh at each read (`Auth.IsAuthenticated`). Within one `useAuth()` caller the code keeps its first reading (see Findings), so this states the intended behaviour rather than the code's.
- Auth.AuthStore.InitAuth: it is gated on a fresh reading of the token. The code reads the caller's cached `isAuthenticated`, which is `Auth.InitAuthStateAsWritten`. The two agree when the caller has not read it before.
- Auth.InitAuthIdle: it is stated with the fresh reading. With a stale cached reading the code can skip the reload, or attempt it, regardless of the token now stored.
- Router navigation is recorded as the list of pushed paths. The route middleware is not re-run on those pushes; `Auth.LoginAdmitsDashboard` states what it would decide.
- Asynchronous interleaving is not modelled. Each operation is one atomic step, so stale responses overwriting newer state cannot arise.
- Toasts: a timer firing is not modelled as an event. Its callback is `removeToast(id)`, which is `RemoveToast`. Toast ids, drawn from `Date.now()` and `Math.random()`, are inputs.
- Toasts.ToastQueue.AddToast: the duration is an integer number of milliseconds. A fractional JavaScript number (0.5 still schedules a timer) or NaN is not represented.
- LastLoginFormatter: `formatDate` (locale formatting through `Intl`) is a function parameter. Invalid dates (NaN arithmetic) are not modelled. Timestamps are integer milliseconds, and `None` stands for a falsy `dateValue`.
- CapitalizeFormatter: only ASCII whitespace (space and U+0009 to U+000D) and ASCII upper-casing are modelled. Unicode whitespace and case mapping are not.
- `console.error` logging is not modelled.
- ResourceStores.ResourceStore.Fetch: the mock stores' catch branches cannot be reached, because assigning a literal list cannot throw. They are not modelled. This includes useDrivers.ts:82, whose message reads "Failed to fetch rides".
- Entities: the mock data is copied as it is, not reconciled with the declared types. This keeps `register_at` for drivers, admins' `last_login` and role "superadmin", and rides without the name fields. Rides' coordinates and distance are floating point and are not represented. Dates are kept as the text given to `new Date`.
- Fetch-one, create and update do not exist in these stores, so they are not modelled.
- The navigation config, `useSeoTitle`, and the Tailwind and Nuxt config are static data or thin wrappers, so they are not modelled.

## Findings

| source | as written | input that shows it | evidently intended | confidence | as-written member | corrected member |
|---|---|---|---|---|---|---|
| app/composables/useAuth.ts:67-69 | `isAuthenticated` is `computed(() => !!getToken())`. Its getter reads only localStorage and `import.meta.client`, which Vue does not track, so one `useAuth()` caller keeps its first reading. | On the client: log in successfully with a non-empty token, read `isAuthenticated` (true), call `logout()`, read it again: still true, though no token is stored. | The reading follows the stored token at every read. | medium; not executed | `Auth.CachedReadingStaleAfterLogout` | `Auth.LoginThenLogout` |
