# Todo app with local authentication — a Dafny model

This project models the client-side state logic of a small React to-do
application that has a token-based login gate. There are four parts:

- **Task list** (`TodoList`, `todo_list.dfy`): the `App` component's state.
  This is the ordered list of `{ id, text, done }` records, the new-task
  input, and a one-slot edit draft (`editId`, `editText`). Its handlers are
  add, delete, toggle, start/save/cancel edit, and the remaining/completed
  counts. The list updates are `filter`/`map` expressions. They are
  functions over `Lists.Filter` and `Lists.Map`, and each handler is a method
  of the class `App` that overwrites the state fields.
- **Credential store** (`Credentials`, `credentials.dfy`): `tokenManager`.
  It keeps the bearer token in browser storage under `auth_token` and the
  JSON-serialized user record under `user_data`. Browser storage is the class
  `BrowserStorage.LocalStorage` (`storage.dfy`), a `map<string, string>`
  updated in place. Reads are functions of the map and writes are methods.
- **Session manager** (`Auth`, `auth.dfy`): `AuthProvider`. It is a class
  with the fields `isAuthenticated`, `user`, `loading` and `error`, driven by
  `initAuth`, `login`, `logout`, `updateUser` and `clearError`. The
  try/catch/finally structure of each handler decides which fields change when
  a storage call throws.
- **Request layer** (`Api`, `api.dfy`): `APIService`. This covers the header
  map, the URL and the `fetch` configuration, the 401 branch that clears the
  stored token, the other failure branches, and `isConfigured`.

Shared pieces:

- `Text` (`text.dfy`) holds JavaScript `trim` and the decimal rendering of the
  status number in error messages.
- `Json` (`json.dfy`) holds JavaScript values, their truthiness, and an
  abstract JSON codec.
- `Wrappers` (`wrappers.dfy`) holds `Option`, `Result` and `Outcome`.

Inputs from the environment that the model takes as parameters:

- **Storage failures.** Whether a `setItem`/`removeItem` call throws is the
  input `throws` of that write. Reads never throw.
- **JSON.** `JSON.stringify` and `JSON.parse` are the two fields of a
  `Json.Codec`. A `None` from `parse` is the `SyntaxError` it throws.
  Properties that need JSON to round-trip assume `Json.Lawful(codec)`: the
  empty text does not parse, and parsing a serialization gives back the value.
- **`fetch`.** It is not modelled. What it produced (a response with status,
  `ok`, status text and body text, or a rejection) is the input `fetched` of
  `APIService.Request`.
- **Task ids.** `Date.now()` is the `id` argument of `App.AddTodo`.
- **Configuration.** The base URL and the API key (`src/config/constants.js`)
  are constructor arguments of `APIService`.

## Behaviour of the code worth knowing

The model follows the code in each of these cases.

- Task text is stored untrimmed. `trim` only guards against blank input
  (src/App.jsx:11-12, 32-34).
- `saveEdit(id)` renames the tasks that carry the argument `id`, not
  `editId`. A blank draft leaves the draft open.
- Nothing keeps `editId` pointing at an existing task. `startEdit` accepts any
  id, and `deleteTodo` does not reset the draft.
- Ids come from `Date.now()`, so they are not necessarily unique. Delete,
  toggle and rename act on every task that carries the id.
- `login` does not reject an empty token. `setToken` skips the write, and the
  session still becomes authenticated (see `Auth.EmptyTokenScenario`). A
  falsy user record is likewise not stored, but the session is authenticated
  with `user` set to that falsy value.
- `login` is not atomic in storage. When the user-data write throws after the
  token write succeeded, the token stays stored. Memory is left unchanged.
- Malformed stored user data makes `getUserData` throw (the error is not
  caught there). `initAuth` catches it, sets
  `error = 'Failed to restore authentication'` and stays unauthenticated. It
  is not treated as "no stored user" without an error.
- A 401 clears only the stored token. The in-memory session is not
  touched (src/services/api.js:103).

## Model

| member | source | states |
|---|---|---|
| `Text.TrimEmptyIffAllSpace` | src/App.jsx:11 | `s.trim() === ''` holds exactly when every character of `s` is one that `trim` removes, in both directions |
| `TodoList.App.constructor` | src/App.jsx:5-8 | the initial state is an empty list, an empty input, no `editId` and an empty `editText` |
| `TodoList.App.SetInput` | src/App.jsx:53 | the input's change handler replaces the input text and nothing else |
| `TodoList.App.SetEditText` | src/App.jsx:68 | the edit field's change handler replaces the draft text and nothing else |
| `TodoList.App.AddTodo` | src/App.jsx:10-14 | a blank input leaves the list and the input unchanged; otherwise exactly `{id, text: input, done: false}` is appended with the untrimmed input, earlier tasks are unchanged and in order, the input becomes `''`, the remaining count rises by one and the completed count stays the same |
| `TodoList.AppendPending` | src/App.jsx:12 | appending a task that is not done raises the remaining count by exactly one and leaves the completed count unchanged |
| `TodoList.Without` | src/App.jsx:17 | the list after a delete contains no task with that id, keeps every other task as often as before, and keeps them in their original order |
| `TodoList.WithoutAbsent` | src/App.jsx:17 | deleting an id that no task carries leaves the list unchanged |
| `TodoList.WithoutIdempotent` | src/App.jsx:17 | deleting the same id twice gives the same list as deleting it once |
| `TodoList.App.DeleteTodo` | src/App.jsx:16-18 | the list becomes `Without(list, id)`; the input and the draft are unchanged |
| `TodoList.Toggled` | src/App.jsx:21-23 | toggling keeps the length, order, ids and texts, and flips `done` exactly on the tasks that carry the id |
| `TodoList.ToggledTwice` | src/App.jsx:21-23 | toggling the same id twice restores the list |
| `TodoList.App.ToggleDone` | src/App.jsx:20-24 | the list becomes `Toggled(list, id)`; the input and the draft are unchanged |
| `TodoList.App.StartEdit` | src/App.jsx:26-29 | the draft becomes `(id, text)` whatever it held before; the list is unchanged |
| `TodoList.Renamed` | src/App.jsx:33-35 | a rename keeps the length, order, ids and `done`, and replaces the text exactly on the tasks that carry the id |
| `TodoList.App.SaveEdit` | src/App.jsx:31-38 | a blank draft changes nothing (list, `editId` and `editText` stay); otherwise the untrimmed draft text is written to the tasks that carry the argument id, and the draft resets to `(null, '')` |
| `TodoList.App.CancelEdit` | src/App.jsx:40-43 | the draft resets to `(null, '')`; the list is unchanged |
| `TodoList.CountsAddUp` | src/App.jsx:95 | the remaining count plus the completed count equals the number of tasks |
| `TodoList.App.Remaining` | src/App.jsx:95 | the remaining figure plus the completed figure of the stats line equals `todos.length`, and the remaining figure is zero exactly when every task is done |
| `TodoList.App.Completed` | src/App.jsx:95 | the completed figure of the stats line is at most `todos.length` and is zero exactly when no task is done |
| `TodoList.AddAndToggleScenario` | src/App.jsx:10-24 | from an empty list, adding "Buy milk" and "Walk dog" and then toggling the first leaves one remaining and one completed |
| `TodoList.EditThenCancelScenario` | src/App.jsx:26-43 | starting an edit, typing, and cancelling leaves the task text as it was and the draft cleared |
| `Credentials.TokenIn` | src/utils/tokenManager.js:11-13 | `getToken` returns the string stored under `auth_token`, or null when the key is absent |
| `Credentials.TokenManager.GetToken` | src/utils/tokenManager.js:11-13 | `getToken()` returns the string stored under `auth_token`, or null exactly when that key is absent |
| `Credentials.TokenManager.HasToken` | src/utils/tokenManager.js:36-38 | `hasToken()` is true exactly when a non-empty string is stored under `auth_token` |
| `Credentials.UserDataIn` | src/utils/tokenManager.js:44-47 | absent or empty user data reads as null; other data reads as its parse, and fails exactly when it does not parse |
| `Credentials.TokenManager.GetUserData` | src/utils/tokenManager.js:44-47 | `getUserData()` returns null when `user_data` is absent or empty; otherwise it returns the parsed value, or throws `SyntaxError` (not caught here) when the text does not parse |
| `Credentials.StoreToken` | src/utils/tokenManager.js:19-23 | an empty token leaves storage unchanged; a non-empty token is then read back by `getToken`; no other key changes |
| `Credentials.TokenManager.SetToken` | src/utils/tokenManager.js:19-23 | a falsy token writes nothing and does not throw; otherwise the write either throws and leaves storage unchanged, or stores the token, which `getToken` then returns |
| `Credentials.TokenManager.ClearToken` | src/utils/tokenManager.js:28-30 | only `auth_token` is removed: `getToken` returns null, and the user data and every other key are unchanged |
| `Credentials.StoreUserData` | src/utils/tokenManager.js:53-57 | a falsy record leaves storage unchanged; a truthy one is stored serialized under `user_data`; no other key changes |
| `Credentials.UserDataRoundTrip` | src/utils/tokenManager.js:44-57 | with a lawful JSON codec, a stored truthy record reads back as itself through `getUserData` |
| `Credentials.StoreTokenKeepsUserData` | src/utils/tokenManager.js:19-23 | storing a token does not change what `getUserData` returns |
| `Credentials.TokenManager.SetUserData` | src/utils/tokenManager.js:53-57 | a falsy record writes nothing; otherwise the write throws and leaves storage unchanged, or it stores the record, which `getUserData` then returns for a lawful codec; the token never changes |
| `Credentials.Cleared` | src/utils/tokenManager.js:62-65 | after `clearAll` neither key is present and every other key is unchanged |
| `Credentials.ClearedIdempotent` | src/utils/tokenManager.js:62-65 | clearing twice gives the same storage as clearing once |
| `Credentials.ClearedReadsNothing` | src/utils/tokenManager.js:62-65 | after `clearAll` both `getToken` and `getUserData` return null |
| `Credentials.TokenManager.ClearAll` | src/utils/tokenManager.js:62-65 | the two removals run in order: if the first throws nothing is removed; if the second throws only the token is removed; otherwise both go and both reads return null |
| `Auth.AuthProvider.constructor` | src/context/AuthContext.jsx:7-10 | the initial state is `isAuthenticated = false`, `user = null`, `loading = true`, `error = null` |
| `Auth.AuthProvider.InitAuth` | src/context/AuthContext.jsx:14-29 | `loading` always ends false; unparsable user data sets `error = 'Failed to restore authentication'` and leaves the session as it was; otherwise the session is authenticated with the stored record exactly when both the stored token and the stored record are truthy; storage is only read |
| `Auth.AuthProvider.Login` | src/context/AuthContext.jsx:34-47 | the token is written, then the record; if neither write throws, the session is authenticated with the record, `error` is null and the result is true; if a write throws, the session is unchanged, `error = 'Failed to log in'`, the result is false, and a token written before the failing record write stays stored |
| `Auth.AuthProvider.Logout` | src/context/AuthContext.jsx:49-61 | on success both keys are removed and the session becomes unauthenticated with no user and no error; on a throwing removal the session is unchanged and `error = 'Failed to log out'` |
| `Auth.AuthProvider.UpdateUser` | src/context/AuthContext.jsx:63-74 | the record is persisted (skipped when falsy) and adopted in memory with `error` cleared; `isAuthenticated`, `loading` and the token never change; on a throwing write the user is unchanged and `error = 'Failed to update user data'` |
| `Auth.AuthProvider.ClearError` | src/context/AuthContext.jsx:76-78 | `error` becomes null and no other field changes |
| `Auth.LoginThenLogout` | src/context/AuthContext.jsx:34-61 | a successful login followed by a successful logout leaves neither key in storage and the session unauthenticated |
| `Auth.LogoutTwice` | src/context/AuthContext.jsx:49-61 | two successful logouts leave the same storage and session as one |
| `Auth.TokenOnlyScenario` | src/context/AuthContext.jsx:16-22 | storage holding only `auth_token = "abc"` restores no session: it stays unauthenticated, loading ends, no error |
| `Auth.RestoreScenario` | src/context/AuthContext.jsx:16-22 | a stored token and a stored truthy record restore an authenticated session with that record |
| `Auth.EmptyTokenScenario` | src/context/AuthContext.jsx:34-41 | logging in with an empty token succeeds and authenticates although no token is stored |
| `Api.APIService.constructor` | src/services/api.js:8-11 | the service keeps the configured base URL and API key |
| `Api.APIService.IsConfigured` | src/services/api.js:122-124 | `isConfigured()` is true exactly when an API key is configured and is a non-empty string |
| `Api.APIService.GetHeaders` | src/services/api.js:17-34 | the headers always hold `Content-Type: application/json`; `x-api-key` is present exactly when the service is configured (`isConfigured`), with the key as value; `Authorization` is present exactly when a non-empty token is stored, with value `"Bearer " + token`; there are no other headers |
| `Api.APIService.BuildConfig` | src/services/api.js:88-96 | the configuration's method and headers are those of `options` when given and the computed ones otherwise; the body is the serialization of `data` when `data` is truthy and otherwise whatever `options` supplied |
| `Api.APIService.Request` | src/services/api.js:86-116 | the URL is `baseURL + endpoint` and the configuration is as `BuildConfig` states; a rejected fetch rejects with its reason; a 401 removes only `auth_token` and rejects with "Authentication failed. Please log in again."; any other non-ok status rejects with `API Error: <status> <statusText>` and leaves storage unchanged; an ok response yields its parsed body, or rejects when the body does not parse |
| `Api.HttpMessageInjective` | src/services/api.js:107-108 | an `API Error` message determines the status and the status text it was built from |
| `Api.APIService.Get` | src/services/api.js:42-44 | a request with method `GET` and no body data |
| `Api.APIService.Post` | src/services/api.js:53-55 | a request with method `POST` and the given data |
| `Api.APIService.Put` | src/services/api.js:64-66 | a request with method `PUT` and the given data |
| `Api.APIService.Delete` | src/services/api.js:74-76 | a request with method `DELETE` and no body data |
| `Api.UnauthorizedGetScenario` | src/services/api.js:42-44 | a `GET` with the default options, a stored token and no API key, answered with 401, sends exactly the content type and `Bearer abc`, has no body, rejects with the authentication error, and leaves only `user_data` in storage |

## Left out

- `fetch`, the network and `async`/`await` suspension: a response or a rejection is an input value.
- The internals of JSON: `JSON.stringify` and `JSON.parse` are abstract, and `parse` is partial. `JSON.stringify` throwing (cyclic values, `BigInt`) is not modelled.
- JavaScript numbers are modelled as unbounded integers, so floating point, `NaN` and `-0` are not modelled. A `Value` covers `null`, booleans, numbers, strings, arrays and objects. `undefined`, functions and symbols are not modelled.
- A token is a string, and the empty string stands for every falsy token (`null`, `undefined`, `''`); all of them skip the write in the same way. A truthy non-string token, which `setItem` would turn into a string, is not modelled.
- `getItem` throwing (storage access denied) is not modelled: reads are total. Only writes (`setItem`, `removeItem`) may throw.
- The message texts of storage exceptions, `JSON.parse` errors and network errors are placeholders. The requests themselves build just two messages, and those are exact.
- `console.error` logging, JSX rendering, `useEffect`/`useCallback` scheduling and the React context plumbing: the `AuthContext` provider value and `useAuth` (src/context/AuthContext.jsx:80-104).
- `initAuth` running exactly once at mount: Dafny does not enforce this. `InitAuth` is stated for any prior state.
- Caller `options` keys other than `method`, `headers` and `body` (for example `signal` or `mode`) are not modelled. They pass through to `fetch` unchanged and the code does not inspect them.
- `src/services/todoService.js` is not part of this model. It is a set of pass-through wrappers over the request layer with fixed paths and `response.data || []`.
- `src/config/constants.js`: the environment reads. The base URL and the API key are constructor arguments. The storage key names are the constants `Credentials.AUTH_TOKEN` and `Credentials.USER_DATA`, with the values of src/config/constants.js:9-12.
- `Date.now()` id generation: ids are arguments, and the code does not make them unique.
- Any coordination between the 401 token removal and the in-memory session: the code has none.
