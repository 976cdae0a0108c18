# Luncheroo client: authentication, routing, request and notification logic

A Dafny model of the four pieces of the lunch-gifting web client that hold decision logic:

- **Authentication composable** (`Auth`). Two module-level values, `isAuthenticated` and `user`, are mirrored into the browser's key-value store under fixed keys. The operations set, clear, restore and check them. `Auth.AuthModule` is a class with those values, the store (a `map<string, string>`) and a log of `router.push` paths. Each method is specified by the pure `Auth.Step` on a `Session` value. The lemmas cover one operation at a time and every sequence of operations.
- **Navigation guard** (`Router`). The route table, and the `beforeEach` decision that sends a protected target to the route named `login` when `auth_token` is missing or empty.
- **Fetch wrapper** (`Api`, with `Decimal` for the status text). URL resolution, the object-spread merge of options (maps, right-biased union), the choice of the error message, the handling of empty bodies, and the table of `api` helpers. The network and `JSON.parse` are inputs. A reply is `None` when fetch rejects. A body comes with its parse, `Some(view)` or `None` when parsing throws.
- **Notifications composable** (`Notifications`). A banner of three values. `Notifications.Notifier` is a class that also counts auto-clears that were scheduled but have not fired. A timer going off is the explicit `Timeout` event, i.e. the `TimerFires` method.

`App` states how the guard and the composable meet. The guard reads `auth_token`. The composable never writes or removes that key. So nothing done through `setAuth`, `clearAuth` or `logout` changes a routing decision: signing in alone does not open `/dashboard`.

## Model

| member | source | states |
|---|---|---|
| `Api.OrEmpty` | src/composables/useAuth.js:40-42 | `v \|\| ''` on a possibly missing string: the string itself, or `""` when missing |
| `Api.BaseUrl` | src/utils/api.js:2 | the base URL is the build variable when set, else the empty prefix |
| `Api.ResolveUrl` | src/utils/api.js:6 | an endpoint starting with `http` is used as is; any other is appended to the base |
| `Api.ResolveUrlIdempotent` | src/utils/api.js:6 | with an empty or absolute base, resolving an already resolved URL changes nothing |
| `Api.CallerHeaders` | src/utils/api.js:12 | the caller's `headers` record, or nothing when it is absent or not a record |
| `Api.DefaultOptions` | src/utils/api.js:8-14 | the defaults are exactly `credentials: include` and headers holding every caller header, with `Content-Type: application/json` unless the caller set it |
| `Api.MergeOptions` | src/utils/api.js:17 | final options as written: every caller key wins; without caller `headers` the headers are exactly the JSON content type; without caller `credentials` it is `include` |
| `Api.MergeOptionsDropsContentType` | src/utils/api.js:12-17 | a caller passing any headers record without `Content-Type` ends with no `Content-Type` at all |
| `Api.MergeOptionsDropsContentTypeExample` | src/utils/api.js:12-17 | concrete instance: `{headers: {Authorization}}` ends with exactly that header |
| `Api.MergeOptionsIntended` | src/utils/api.js:8-17 | corrected merge: caller keys win except `headers`, which always holds every caller header plus `Content-Type`, defaulting to JSON |
| `Api.MergesAgreeWithoutHeaders` | src/utils/api.js:8-17 | with no caller `headers`, the as-written and corrected merges agree |
| `Decimal.NatToString` | src/utils/api.js:24 | the status rendered in decimal: non-empty, digits only, no leading zero |
| `Decimal.ParseNatToString` | src/utils/api.js:24 | reading the rendered status back gives the status (round trip) |
| `Decimal.NatToStringInjective` | src/utils/api.js:24 | distinct statuses give distinct texts |
| `Api.HttpStatusMessage` | src/utils/api.js:24 | the fallback message is `HTTP ` followed by the decimal status |
| `Api.FirstNonEmpty` | src/utils/api.js:24 | a `\|\|` chain of strings yields the first non-empty one, or the fallback when all are empty |
| `Api.ErrorMessage` | src/utils/api.js:19-28 | never empty; a JSON body gives `error`, else `msg`, else `HTTP <status>`; an unparsable or `null` body gives its text, else `HTTP <status>` |
| `Api.ErrorMessageSource` | src/utils/api.js:22-27 | the message is always the body text, the body's `error` or `msg`, or the status fallback |
| `Api.HandleResponse` | src/utils/api.js:16-37 | fetch rejection, non-ok (thrown message), ok with empty body (`{}`), and ok with a body (its parse, or a parse failure) |
| `Api.SuccessIff` | src/utils/api.js:19-33 | a request resolves exactly for an ok response whose body is empty or parses |
| `Api.FailureMessageNonEmpty` | src/utils/api.js:19-28 | a thrown HTTP error comes only from a non-ok response and has a non-empty message |
| `Api.PrepareRequest` | src/utils/api.js:2-17 | what fetch receives, as written: an `http…` endpoint as is, otherwise `VITE_API_URL \|\| ''` before it; every caller option wins; `credentials` defaults to `include`; without caller `headers` the headers are exactly the JSON content type |
| `Api.EndpointPath` | src/utils/api.js:43-56 | the five helpers' paths, each a relative path under `/api/` (so never taken as absolute) |
| `Api.EndpointOptions` | src/utils/api.js:43-59 | POST exactly for verifyToken, logout and giftLunch; the JSON body exactly for verifyToken and giftLunch; no other option, in particular no `headers` |
| `Api.EndpointRequest` | src/utils/api.js:41-60 | every helper calls the base URL followed by its path, sends `include` and exactly the JSON content type, and passes its own method and body unchanged |
| `Api.EndpointTable` | src/utils/api.js:41-60 | for every call through the `api` table the corrected merge gives the same options as the merge as written |
| `Router.FindRoute` | src/router/index.js:7-19 | the index of the first route whose path (or name) is the key; none exactly when no route has it |
| `Router.RouteByPath` | src/router/index.js:7-19 | a path matches a route exactly when it is in the table |
| `Router.RouteByName` | src/router/index.js:7-19 | a name designates a route exactly when it is in the table |
| `Router.TargetRequiresAuth` | src/router/index.js:17 | a target needs authentication exactly when its route carries `requiresAuth` (unmatched: no) |
| `Router.ProtectedRoutes` | src/router/index.js:7-19 | `/dashboard` is the only protected path; `/` and unmatched paths are open |
| `Router.RouteTableUnique` | src/router/index.js:7-19 | the table has two routes, and paths and names each identify one route |
| `Router.Guard` | src/router/index.js:23-31 | redirect to `login` exactly when the target requires authentication and `auth_token` is missing or empty; otherwise allow |
| `Router.Navigate` | src/router/index.js:23-31 | the landing path is `/` for a guarded target without a token, else the target; the guard allows the landing path |
| `Router.LoginAlwaysAllowed` | src/router/index.js:9-12 | navigating to `/` is allowed for every store |
| `Router.RedirectSettles` | src/router/index.js:26 | the redirect target exists and is allowed, so no second redirect happens |
| `Router.GuardReadsOnlyToken` | src/router/index.js:24 | two stores agreeing on `auth_token` get the same decision |
| `Auth.WithDefaults` | src/composables/useAuth.js:40-42 | each missing user field becomes `""` |
| `Storage.GetItem` | src/composables/useAuth.js:16 | a lookup yields the stored string exactly when the key is present |
| `Auth.StoredUser` | src/composables/useAuth.js:20-24 | the user rebuilt from `user_name`, `user_email`, `picture`, each defaulting to `""` |
| `Auth.SetAuthStore` | src/composables/useAuth.js:39-42 | the store gains exactly the four written keys with `"true"` and the defaulted fields; every other key is unchanged |
| `Auth.ClearAuthStore` | src/composables/useAuth.js:50-54 | exactly the five cleared keys are gone; every other key keeps its value |
| `Auth.Cleared` | src/composables/useAuth.js:46-55 | `clearAuth` leaves a signed-out session with the empty user, the five auth keys gone, every other key kept and no navigation |
| `Auth.Step` | src/composables/useAuth.js:15-87 | one operation: keys outside the cleared set keep their value or absence; only `logout` and a failing `requireAuth` push `/`; `setAuth` authenticates with the given record; `clearAuth`, `logout` and a failed `checkAuth` give the `clearAuth` state; `requireAuth` and a successful `checkAuth` change nothing else; `initAuthState` leaves the store and authenticates exactly for a truthy flag |
| `Auth.Loaded` | src/composables/useAuth.js:7-29 | at module load: authenticated exactly when `is_authenticated` is truthy, then with the user rebuilt from the store, otherwise the empty user; no navigation |
| `Auth.Answer` | src/composables/useAuth.js:58-66 | `checkAuth` answers whether the user-info call succeeded; `requireAuth` answers `isAuthenticated` (lines 81-87) |
| `Auth.InitAuthStateEffect` | src/composables/useAuth.js:15-26 | authenticated exactly when `is_authenticated` is present and non-empty; only then is `user` rebuilt from the store; otherwise it is unchanged |
| `Auth.SetAuthEffect` | src/composables/useAuth.js:35-43 | authenticated; `user` is the given record without defaults; the store holds `"true"` and the defaulted fields |
| `Auth.ClearAuthIdempotent` | src/composables/useAuth.js:46-55 | clearing resets both values, and clearing twice equals clearing once |
| `Auth.CheckAuthEffect` | src/composables/useAuth.js:58-66 | true with nothing changed on success; otherwise the `clearAuth` state and false |
| `Auth.LogoutEffect` | src/composables/useAuth.js:69-78 | `clearAuth` state plus exactly one navigation to `/`, the same whatever the call's outcome |
| `Auth.RequireAuthEffect` | src/composables/useAuth.js:81-87 | answers `isAuthenticated`; navigates to `/` exactly when it is false; changes nothing else |
| `Auth.ReloadAfterSetAuth` | src/composables/useAuth.js:15-29 | round trip: a module load on the store `setAuth` left is authenticated with the defaulted user |
| `Auth.ReloadAfterClearAuth` | src/composables/useAuth.js:15-29 | a module load after `clearAuth` is signed out with the empty user |
| `Auth.LoadedConsistent` | src/composables/useAuth.js:7-29 | at module load the values agree with the store |
| `Auth.StepConsistent` | src/composables/useAuth.js:15-87 | every operation keeps the values in agreement with the store |
| `Auth.RunConsistent` | src/composables/useAuth.js:15-87 | any sequence of operations keeps that agreement |
| `Auth.ReloadRestores` | src/composables/useAuth.js:15-87 | after any operations, a reload restores the same `isAuthenticated` and the user with `""` defaults |
| `Auth.RunKeepsOtherKeys` | src/composables/useAuth.js:39-54 | a key outside the cleared set (e.g. `auth_token`) keeps its value or absence through any operations |
| `Auth.RunPushesOnlyHome` | src/composables/useAuth.js:76-83 | the composable only appends navigations, all to `/` |
| `Auth.AuthModule.constructor` | src/composables/useAuth.js:7-29 | the state at module load: initial values, then `initAuthState` on the store |
| `Auth.AuthModule.InitAuthState` | src/composables/useAuth.js:15-26 | the new state is `Step(old, Init)` |
| `Auth.AuthModule.SetAuth` | src/composables/useAuth.js:35-43 | the new state is `Step(old, Set(userData))` |
| `Auth.AuthModule.ClearAuth` | src/composables/useAuth.js:46-55 | the new state is `Step(old, Clear)` |
| `Auth.AuthModule.CheckAuth` | src/composables/useAuth.js:58-66 | returns whether the user-info call succeeded; the new state is `Step(old, Check(reply))` |
| `Auth.AuthModule.Logout` | src/composables/useAuth.js:69-78 | the new state is `Step(old, LogOut(reply))` |
| `Auth.AuthModule.RequireAuth` | src/composables/useAuth.js:81-87 | returns `isAuthenticated`; the new state is `Step(old, Require)` |
| `App.AuthNeverTouchesToken` | src/router/index.js:24 | `auth_token` is neither written by `setAuth` nor removed by `clearAuth` (useAuth.js:39-54) |
| `App.GuardUnaffectedByAuth` | src/router/index.js:23-31 | no sequence of composable operations changes any guard decision |
| `App.SignInLeavesDashboardGuarded` | src/router/index.js:24 | after `setAuth` the session is authenticated, yet without `auth_token` `/dashboard` lands on `/` |
| `App.SignOutLeavesDashboardOpen` | src/router/index.js:24 | after `logout` the session is signed out, yet with `auth_token` `/dashboard` stays reachable |
| `Notifications.BannerAfter` | src/composables/useNotifications.js:10-42 | a show makes the banner visible with its text and type; a clear or a firing timer gives `('', '', false)` |
| `Notifications.Step` | src/composables/useNotifications.js:10-42 | the banner is what the event leaves; a show with positive duration adds one pending clear, a firing timer removes one |
| `Notifications.ShowEffect` | src/composables/useNotifications.js:10-19 | show sets `message`, type and visibility, and schedules exactly for a positive duration |
| `Notifications.DismissIdempotent` | src/composables/useNotifications.js:38-42 | clearing gives the hidden banner, and clearing twice equals clearing once |
| `Notifications.StaleTimerHidesNewer` | src/composables/useNotifications.js:16-18 | a pending clear also hides a banner shown after it was scheduled, even an error with no timer |
| `Notifications.LastEventDecides` | src/composables/useNotifications.js:10-42 | after any feasible events, the banner is the one the last event leaves |
| `Notifications.PendingCount` | src/composables/useNotifications.js:15-19 | pending clears plus fired ones equal the initial count plus the scheduled ones |
| `Notifications.StaysWithoutTimers` | src/composables/useNotifications.js:28 | with no timer pending and only untimed shows, the banner stays visible and nothing gets scheduled |
| `Notifications.Notifier.constructor` | src/composables/useNotifications.js:4-7 | each instance starts as `('', '', false)` with nothing pending |
| `Notifications.Notifier.ShowNotification` | src/composables/useNotifications.js:10-20 | defaults `info` and 5000; reports scheduling exactly when the duration is positive; the state follows `Step` |
| `Notifications.Notifier.ShowSuccess` | src/composables/useNotifications.js:23-25 | type `success`, default duration 5000 |
| `Notifications.Notifier.ShowError` | src/composables/useNotifications.js:28-30 | type `error`, default duration 0, so nothing is scheduled by default |
| `Notifications.Notifier.ShowInfo` | src/composables/useNotifications.js:33-35 | type `info`, default duration 5000 |
| `Notifications.Notifier.ClearNotification` | src/composables/useNotifications.js:38-42 | the banner becomes `('', '', false)`; pending timers are untouched |
| `Notifications.Notifier.TimerFires` | src/composables/useNotifications.js:16-18 | a firing timer clears unconditionally and is no longer pending |
| `Notifications.HelperDefaults` | src/composables/useNotifications.js:10-35 | with the optional arguments omitted, `showNotification` is `info` and schedules, `showSuccess` and `showInfo` schedule, `showError` schedules nothing, and a timer firing afterwards hides the error |

## Left out

- generate-keyframes.js is not part of this model: it is floating-point trigonometry and decimal formatting, printed to the console.
- src/utils/googleAuth.js is not part of this model: it injects a script and drives the Google sign-in popup, i.e. foreign I/O.
- `fetch`, `await` and `response.text()` are not modelled. The reply, its status and its body are inputs. `JSON.parse` is an input too: a parse result beside the body text. Nothing forces that result to agree with the text.
- A parsed JSON value is seen only as `null` or through its `error` and `msg` properties. The value returned for an ok body is that view. A non-string `error`, `msg` or user field is not modelled.
- Api.MergeOptions: a property explicitly set to `undefined` counts as absent. In JavaScript it would override the default with `undefined`.
- Api.CallerHeaders: a string `headers` spreads nothing here. JavaScript spreads it into its characters (`{0: 'a', 1: 'b'}`). The as-written merge never shows the difference, because a caller `headers` replaces the default headers. `Api.DefaultOptions` and `Api.MergeOptionsIntended` would show it.
- Auth.User: the type rules out `setAuth(null)`. In the source that call throws at src/composables/useAuth.js:40, after lines 36-39 have already set `isAuthenticated`, `user` and `is_authenticated`. That partial update is not modelled.
- Header names are compared exactly. The case-insensitivity of HTTP header names is not modelled.
- `console.error` logging is left out. The catch block in `apiRequest` rethrows the same error, so it changes no outcome.
- Vue reactivity (`ref`), `useRouter` and `createWebHistory` are left out. `router.push` appends a path to a log. The guard's `next` is the guard's return value, so it is called exactly once by construction.
- Router.RouteByPath matches paths exactly. vue-router's case-insensitive matching, optional trailing slash, query and hash are not modelled.
- A router variant that gates on `is_authenticated` is not part of this model. src/router/index.js reads `auth_token`, and the model follows that file.
- Timer durations and their order are not modelled. Every pending auto-clear does the same thing, so only their number matters. A timer firing is an explicit event.
- Store failures (e.g. a full `localStorage` throwing in `setItem`) are not modelled.
- Async operations run atomically: two interleaved `checkAuth`/`logout` calls are not modelled.

## Findings

| source | as written | input that shows it | evidently intended | confidence | as-written member | corrected member |
|---|---|---|---|---|---|---|
| src/utils/api.js:12-17 | `defaultOptions.headers` spreads the caller's headers into the JSON default, but `{ ...defaultOptions, ...options }` then replaces `headers` with the caller's object, so the default is dropped | options `{ headers: { Authorization: 'Bearer t' } }` reach fetch with headers `{ Authorization: 'Bearer t' }` and no `Content-Type` | headers `{ 'Content-Type': 'application/json', Authorization: 'Bearer t' }`, the merge the inner spread was written for | medium, not executed | `Api.MergeOptionsDropsContentTypeExample` | `Api.MergeOptionsIntended` |

`Api.PrepareRequest` follows the code as written and uses `Api.MergeOptions`. `Api.EndpointOptions` shows that no helper in the `api` table passes `headers`. `Api.EndpointTable` proves that both merges give the same options for every call through the `api` table. A direct caller of the exported `apiRequest` that passes `headers` does see the difference.
