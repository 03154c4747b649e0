# Voice-of-Customer client: session, dashboard and settings logic

A Dafny model of the stateful logic underneath the React client of the
Voice-of-Customer web application:

- **Session lifecycle** (`src/App.jsx`, `src/API/authService.js`): the
  `AuthProvider` keeps `isAuthenticated`, `loading` and `error` in memory
  beside the persistent `'token'` entry of `localStorage`. It is initialised
  once from the store. `login` and `signup` store the token a successful
  reply carries, `logout` removes it, and `ProtectedRoute` redirects to
  `/login` when the session is anonymous.
- **Dashboard** (`src/components/Dashboard.jsx`): the notification list with
  its welcome entry, mark-as-read by id, the unread indicator, the
  category/subcategory filter and the header's panel toggles.
- **Settings page** (`src/Pages/Settings.jsx`): the token check before
  fetching, field-by-field normalisation of the fetched record, single-key
  updates, the `userId` guard, the PascalCase save payload and the page
  messages.
- **Settings service** (`src/API/settingsService.js`): the bearer header, the
  three-level error-message fallback of `handleApiError` and the
  return-or-throw shape of every service method.

JavaScript semantics the code depends on are written out in module `Js`:
- values (undefined, null, booleans, numbers, strings, object records);
- truthiness, `||` and `?.`;
- the TypeError thrown when a property of null or undefined is read;
- string coercion as done by template literals, `new Error` and `localStorage.setItem`.

An awaited call ends in a `Completion`: it returns a value or throws one.
An HTTP exchange is an input of type `HttpOutcome`: a response carrying
`data`, or a rejection carrying an error.

Stateful components are classes whose fields are the component's state:
- `Storage.LocalStorage`
- `Session.AuthProvider`
- `Dashboard.DashboardPage`
- `SettingsPage.SettingsView`

`LocalStorage` states its methods directly on its `entries` map. Each of the
three component classes has a `State()` function, and its methods state
their new state as a pure transition function of the old state (`Session.AfterAuth`,
`SettingsPage.AfterFetch`, `SettingsPage.AfterSave`, ...). The lemmas state
the promised properties about those functions.

Files: `js.dfy`, `storage.dfy`, `auth_service.dfy`, `settings_service.dfy`,
`session.dfy`, `dashboard.dfy`, `settings_page.dfy`.

The token is an opaque string. No code decodes its payload or checks an
expiry, and a truthy stored token is all it takes to authenticate.

## Model

| member | source | states |
|---|---|---|
| Js.Read | src/App.jsx:32 | reading a property throws exactly when the value is null or undefined; the thrown value is a TypeError with V8's message, otherwise the property's value is returned |
| Js.OrTruthy | src/API/settingsService.js:16 | `a \|\| b` is one of its operands, and it is truthy iff either operand is |
| Js.NatToDecimal | src/API/authService.js:10 | the decimal notation of a natural number is a non-empty string of digits that denotes exactly that number, with a leading '0' only for zero |
| Js.IntToDecimal | src/API/authService.js:10 | an integer's notation is the digits of its magnitude, preceded by '-' exactly when it is negative |
| Js.ToJsString | src/API/settingsService.js:9 | string coercion keeps a string, writes a number in decimal, gives "null"/"undefined" for those values, and never yields "" for a truthy value |
| Storage.LocalStorage.GetItem | src/API/authService.js:45 | `getItem` yields the stored string iff the key is present, otherwise null |
| Storage.LocalStorage.SetItem | src/API/authService.js:10 | `setItem` stores the string coercion of the value under the key and changes no other entry |
| Storage.LocalStorage.RemoveItem | src/API/authService.js:42 | `removeItem` deletes exactly that key |
| AuthService.Rejection | src/API/authService.js:14-16 | what a catch block throws is always truthy: `error.message?.data` when that is truthy, otherwise `{message: fallback}`, which is what a string `error.message` always gives; a null or undefined error throws the TypeError of reading `message` |
| AuthService.Outcome | src/API/authService.js:6-17 | the token is written iff the reply's `data.token` is truthy, and then `data` is returned; a tokenless reply returns null; a failed request throws exactly what the catch block builds (`Rejection` of the error), and a null body throws `Rejection` of the TypeError, which is truthy; the call returns iff the reply has a non-null body |
| AuthService.Persist | src/API/authService.js:9-10 | the store changes only at 'token', and only when a token is written |
| AuthService.Submit | src/API/authService.js:6-17 | the shared login/signup body returns `Outcome(...).result` and leaves the store as `Persist` says |
| AuthService.Login | src/API/authService.js:6-17 | `login` with the login fallback message: its result and its effect on the store |
| AuthService.Signup | src/API/authService.js:19-30 | `signup` is the same operation with the signup fallback message |
| AuthService.ForgetPassword | src/API/authService.js:32-39 | `forgetPassword` returns the reply body iff the request succeeded; a failure throws exactly `Rejection` of the error with its own fallback, which is the fixed fallback when the error's message is a string; the store is not a parameter |
| AuthService.Logout | src/API/authService.js:41-43 | `logout` removes exactly 'token', after which `getCurrentUser` finds nothing |
| AuthService.GetCurrentUser | src/API/authService.js:44-46 | `getCurrentUser` returns exactly the stored token, or nothing when none is stored |
| AuthService.StringMessageGivesFallback | src/API/authService.js:14-16 | a failed request whose error message is a string throws `{message: fallback}` and writes nothing |
| AuthService.CurrentUserAfterLogin | src/API/authService.js:9-10 | after a login whose reply carries a truthy token, the store holds that token, coerced to a string, under 'token' |
| AuthService.TokenlessReplyKeepsStore | src/API/authService.js:9-13 | a reply without a truthy token leaves the whole store unchanged |
| SettingsService.Request | src/API/settingsService.js:21-70 | `getSettings` sends a GET without body and each update method a PUT of its argument, to the API base URL followed by the method's own path, always with `getHeaders()` |
| SettingsService.RequestUrlsDistinct | src/API/settingsService.js:21-70 | two different service methods never send to the same URL |
| SettingsService.GetHeaders | src/API/settingsService.js:5-13 | the content type is JSON; Authorization is "Bearer " followed by the stored token, or "Bearer null" when none is stored |
| SettingsService.ApiErrorMessage | src/API/settingsService.js:16 | the message is `response.data.message` if truthy, else the error's own `message` if truthy, else "An error occurred"; it is never empty |
| SettingsService.HandleApiError | src/API/settingsService.js:15-18 | `handleApiError` never returns normally; it throws an Error carrying that message, or a TypeError for a null or undefined error |
| SettingsService.Call | src/API/settingsService.js:20-71 | every service method returns `response.data` or throws what `handleApiError` throws, whose message is a non-empty string |
| Session.Initial | src/App.jsx:16-18 | before mounting the provider is anonymous, loading, without error |
| Session.AfterMount | src/App.jsx:20-26 | after the mount effect the session is authenticated iff it already was or a truthy token is stored; loading is false; store and error unchanged |
| Session.Catch | src/App.jsx:37-40 | the catch block writes nothing and always throws; for a non-null error it sets `error` to its `message` and rethrows the same error |
| Session.React | src/App.jsx:31-40 | after the service call: the token is stored iff the result's `token` is truthy, and then the result is returned; a non-null tokenless result returns undefined; a null result throws a TypeError whose message becomes the error; a service failure is rethrown with its message as the error |
| Session.AfterAuth | src/App.jsx:28-41 | `login`/`signup` returns iff the reply carries a token; it then stores that token, authenticates and clears the error; otherwise it throws a non-null value, sets the error to that value's message and leaves store, `isAuthenticated` and `loading` unchanged |
| Session.AfterLogout | src/App.jsx:58-61 | after `logout` the session is anonymous, 'token' is absent and every other entry, `loading` and `error` are unchanged |
| Session.ProtectedRoute | src/App.jsx:79-85 | the guard is a replacing redirect to '/login' exactly when unauthenticated, otherwise it yields its children unchanged |
| Session.AuthProvider.constructor | src/App.jsx:15-18 | a new provider over a store is in `Initial` state |
| Session.AuthProvider.Mount | src/App.jsx:20-26 | the mount effect performs `AfterMount` |
| Session.AuthProvider.Rendered | src/App.jsx:72 | children are rendered iff `loading` is false |
| Session.AuthProvider.CatchFailure | src/App.jsx:37-40 | the catch block updates `error` and completes as `Catch` says; store, `isAuthenticated` and `loading` unchanged |
| Session.AuthProvider.Settle | src/App.jsx:31-40 | the steps after the awaited service call change state and complete as `React` says |
| Session.AuthProvider.Login | src/App.jsx:28-41 | `login` (error cleared first, service call, reaction) performs `AfterAuth` with the login fallback |
| Session.AuthProvider.Signup | src/App.jsx:43-56 | `signup` performs `AfterAuth` with the signup fallback |
| Session.AuthProvider.Logout | src/App.jsx:58-61 | `logout` performs `AfterLogout` |
| Session.MountReflectsStore | src/App.jsx:20-26 | mounting a fresh provider authenticates iff a truthy token is stored, and ends loading |
| Session.TokenlessReplyThrowsTypeError | src/App.jsx:32-40 | a reply body without a truthy token makes the service return null; `login` then throws "Cannot read properties of null (reading 'token')", which becomes the error, and nothing else changes |
| Session.FailedRequestShowsFallback | src/App.jsx:37-40 | a failed request with a string message ends with the operation's fixed fallback thrown and shown as the error |
| Session.NullBodyShowsFallback | src/API/authService.js:9-16 | a reply with a null or undefined body makes the service throw its fixed fallback, which the provider shows as the error and rethrows; nothing else changes |
| Session.SignupMirrorsLogin | src/App.jsx:43-56 | signup and login agree on success, store, `isAuthenticated` and `loading` for every reply, and are identical on success |
| Session.LogoutIdempotent | src/App.jsx:58-61 | logging out twice is the same as logging out once |
| Session.GuardFollowsSession | src/App.jsx:79-85 | after logout the guard redirects; after a login whose reply carries a token it renders its children |
| Dashboard.WelcomeMessage | src/components/Dashboard.jsx:42 | the welcome text is "Welcome to our VOC platform, " followed by the coerced `name` of the profile and "!" |
| Dashboard.WithWelcome | src/components/Dashboard.jsx:39-45 | the transform keeps length, order and every element but the first; with truthy profile data and a non-empty list the first gets the welcome message and `isWelcome: true` over its own fields; without profile data nothing changes |
| Dashboard.MarkRead | src/components/Dashboard.jsx:57-61 | every element with the given id gets `read: true`; all others and the order are unchanged |
| Dashboard.HasUnread | src/components/Dashboard.jsx:153 | the unread dot shows iff some notification has a falsy `read` |
| Dashboard.MarkReadIdempotent | src/components/Dashboard.jsx:57-61 | marking the same id twice equals marking it once |
| Dashboard.UnreadAfterMarkRead | src/components/Dashboard.jsx:153 | after marking an id read, the dot shows iff an unread notification with another id remains |
| Dashboard.Lower | src/components/Dashboard.jsx:264 | `toLowerCase` keeps the length, maps each character, and yields no upper-case letter |
| Dashboard.SubcategorySelect | src/components/Dashboard.jsx:260-267 | the select is disabled with only the placeholder iff no category is chosen; otherwise the placeholder is followed by the category's subcategories valued by their lower-cased text; an unknown category fails to render |
| Dashboard.DashboardPage.constructor | src/components/Dashboard.jsx:8-16 | the initial component state |
| Dashboard.DashboardPage.FetchUserData | src/components/Dashboard.jsx:31-52 | on success the profile and the welcome-transformed list are stored; on failure the error's message is; loading ends false either way |
| Dashboard.DashboardPage.MarkNotificationAsRead | src/components/Dashboard.jsx:54-65 | the list becomes `MarkRead` of itself only when the request succeeds; a failed request changes nothing |
| Dashboard.DashboardPage.ClickNotification | src/components/Dashboard.jsx:171 | a click sends a mark-as-read request iff the notification is not the welcome entry |
| Dashboard.DashboardPage.CategoryChange | src/components/Dashboard.jsx:67-71 | a category change sets the category and always resets the subcategory to '' |
| Dashboard.DashboardPage.SubcategoryChange | src/components/Dashboard.jsx:258 | only the subcategory changes |
| Dashboard.DashboardPage.ToggleNotifications | src/components/Dashboard.jsx:78-81 | flips the notifications panel and closes the profile panel; the panels are never both open |
| Dashboard.DashboardPage.ToggleProfile | src/components/Dashboard.jsx:83-86 | flips the profile panel and closes the notifications panel; the panels are never both open |
| Dashboard.DashboardPage.ToggleSidebar | src/components/Dashboard.jsx:100-102 | only the sidebar flag flips |
| Dashboard.DashboardPage.HandleLogout | src/components/Dashboard.jsx:73-76 | the provider logs out and the page navigates to '/login' |
| SettingsPage.Normalize | src/Pages/Settings.jsx:35-44 | the stored record has exactly the eight settings keys, each the fetched value if truthy and its default otherwise |
| SettingsPage.ZeroVolumeBecomesFifty | src/Pages/Settings.jsx:43 | a fetched volume of 0 is stored as 50 |
| SettingsPage.RenamesArePascalCase | src/Pages/Settings.jsx:96-105 | each payload name is its settings key with the first letter upper-cased, and the renamed keys are exactly the settings keys |
| SettingsPage.Payload | src/Pages/Settings.jsx:96-105 | the payload has exactly eight fields, each PascalCase name holding the matching setting's value unchanged |
| SettingsPage.Toggle | src/Pages/Settings.jsx:62-67 | only the key changes, to the negation of its truthiness |
| SettingsPage.Assign | src/Pages/Settings.jsx:69-81 | only the key changes, to the given value |
| SettingsPage.ToggleTwiceRestores | src/Pages/Settings.jsx:62-67 | flipping a boolean setting twice restores the settings |
| SettingsPage.ToggleThriceIsToggle | src/Pages/Settings.jsx:62-67 | for any key, three flips equal one |
| SettingsPage.AfterFetch | src/Pages/Settings.jsx:24-56 | without a token the page redirects to '/login' and sends no request; otherwise it sends the settings GET, stores the normalised record of a truthy reply, redirects on "User is not authenticated" and shows the load-failure message for any other error; loading ends false |
| SettingsPage.SaveError | src/Pages/Settings.jsx:116 | the save error shown is `err.response.data.message` when that is truthy, and the fixed failure text otherwise; it is always truthy |
| SettingsPage.AfterSave | src/Pages/Settings.jsx:83-121 | messages are cleared first; without a user id the page shows "UserId is required." and sends nothing; otherwise the payload goes out, success shows "Settings saved successfully!" and failure shows `SaveError`; settings unchanged and loading false |
| SettingsPage.SaveAsWrittenNeverSucceeds | src/Pages/Settings.jsx:111 | with the missing service method no save ever succeeds or sends anything; with a user id the generic failure message is shown |
| SettingsPage.SaveSucceedsWhenServiceAccepts | src/Pages/Settings.jsx:111-113 | with an update call that resolves, a save with a user id sends the payload and reports success |
| SettingsPage.SettingsView.constructor | src/Pages/Settings.jsx:9-21 | the initial page state: the default settings, not loading, no messages |
| SettingsPage.SettingsView.FetchSettings | src/Pages/Settings.jsx:24-56 | `fetchSettings` performs `AfterFetch` |
| SettingsPage.SettingsView.HandleNotificationChange | src/Pages/Settings.jsx:62-67 | the settings become `Toggle` of the key |
| SettingsPage.SettingsView.HandlePrivacyChange | src/Pages/Settings.jsx:69-74 | the settings become `Assign` of the key and value |
| SettingsPage.SettingsView.HandleSoundChange | src/Pages/Settings.jsx:76-81 | the settings become `Assign` of the key and value |
| SettingsPage.SettingsView.HandleSave | src/Pages/Settings.jsx:83-121 | `handleSave` performs `AfterSave` |

## Left out

- Numbers are unbounded integers: NaN, fractions and `parseInt` of non-numeric input (Settings.jsx:245) are not modelled.
- Every property of a primitive value reads as undefined. That is right for the reads the code makes: `.data` of a string `error.message` (authService.js:15) and `.name` of a truthy non-object profile (Dashboard.jsx:42). Built-in properties such as a string's `length` are not modelled.
- The TypeError messages for reading a property of null or undefined follow V8's wording ("Cannot read properties of null (reading 'token')"). Other engines word them differently, so `Session.TokenlessReplyThrowsTypeError` states V8's text.
- `===` on object values is compared structurally, not by identity. Notification ids are primitives in practice.
- `toLowerCase` and the PascalCase rename are ASCII-only, which covers every literal involved.
- The URLs and bodies of the authService requests are not modelled; only the reply is an input. The settings service's request is, in `SettingsService.Request`.
- The route table of `App` (App.jsx:87-125) is not modelled. Its lowercase `<protectedRoute>` means the guard is never applied to the dashboard; `ProtectedRoute` is modelled as a function.
- Rendering, styling, date formatting (`toLocaleDateString`) and console logging are left out. Navigation is a recorded target path.
- Asynchrony is left out. Each handler runs to completion against its inputs, so stale closures and interleaved requests are not captured. `handleMarkNotificationAsRead` maps over the list it closed over.
- `Dashboard.DashboardPage.FetchUserData`: a notifications reply that is not an array (whose `map` would throw) is not modelled; the reply is a sequence.
- The navigation-only dashboard handlers `handleUpdateProfile`, `handleChangePassword` and `handleOpenSettings` are left out; each only records a path.
- `userService` is not part of this model; its replies (Dashboard.jsx:35-36, 56) enter the dashboard as inputs. `restaurantService` is used by none of the modelled files.
- Token payload decoding and expiry are not modelled because the code has none.
- The effect that reruns `fetchSettings` when `navigate` changes is not modelled.

## Findings

| source | as written | input that shows it | evidently intended | confidence | as-written member | corrected member |
|---|---|---|---|---|---|---|
| src/Pages/Settings.jsx:111 | `handleSave` calls `settingsService.updateUserSettings`, which the settings service (src/API/settingsService.js:20-71) does not define, so the call throws a TypeError | any save with a truthy `userId`: it ends with "Failed to save settings. Please try again." and sends nothing | a settings-update call that sends the payload and reports "Settings saved successfully!" when it resolves | not executed | SettingsPage.SaveAsWrittenNeverSucceeds | SettingsPage.SaveSucceedsWhenServiceAccepts |
