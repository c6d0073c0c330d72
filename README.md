# AuthService session model

A Dafny model of `AuthService`, the session and authorisation service of the
tournament-management front end. The service keeps the session in a key-value
storage under two configured keys. The token key holds the token string and the
user key holds the cached user record. The service:

- answers "is there a session" with `isAuthenticated` and "does this user hold
  one of these roles" with `hasRole`, both from the stored values alone;
- logs in: one request, then on success two writes, the token first and the user second;
- fetches the profile with a `Bearer` header. It writes nothing to the storage
  itself; a 401 clears the storage through `handleError`;
- logs out: clears the whole storage and navigates to `/auth/login`;
- sends every failed request through `handleError`. Called on the service, the
  handler turns the failure into a `{status, message, errors}` object and shows
  it in a dialog; on a 401 it also logs out. A body it cannot read makes it
  throw. As `login` and `getPerfil` actually pass it, the handler is unbound,
  so every 401 with a readable body throws instead of logging out (see
  Findings).

Files:

- `wrappers.dfy`: `Option`.
- `js_strings.dfy`: the JavaScript built-ins the service relies on
  (`join`, `includes`, and `split` as the inverse of a join).
- `auth_types.dfy`: stored values, payloads, HTTP outcomes, rejections, JS
  truthiness and the `Authorization` header.
- `error_handling.dfy`: the pure decision table of `handleError`.
- `auth_service.dfy`: the `AuthService` class. Its `store` field is the storage
  map, and two ghost logs record the navigations and the error dialogs.
- `scenarios.dfy`: client methods that follow a session through concrete
  exchanges using only the class contracts.

A request is not I/O here. `Login` takes the server as a function from the
credentials to a response. `GetPerfil` takes it as a function from the
`Authorization` header value to a response. The storage keys are constructor
parameters that must differ, standing for the configured environment
constants.

Behaviour of the code that one might expect to be otherwise, kept as written:

- One might expect a failure with no structured payload to fall back to a
  generic message. In the code, the initial `'Ha ocurrido un error inesperado'` is
  overwritten on every path, so it is never observed. A missing body instead
  makes the handler throw a `TypeError`, whether the status is 400 or another
  one. A 400 whose body has no `errors` list also throws. Any other status
  whose body has no `message` gets an undefined message. The model keeps all
  three cases, as `Rejection.TypeError` and `message == None`.
- One might expect a 401 to always end the session. As the handler is called, it
  does not (see Findings). The class models the intended behaviour.
- `hasRole` takes an array and tests it with `includes`, not a set.

## Model

| member | source | states |
|---|---|---|
| `JsStrings.Join` | src/app/core/services/auth.service.ts:81 | `join` of a non-empty array starts with its first element. |
| `JsStrings.JoinEndsWithLast` | src/app/core/services/auth.service.ts:81 | `join` of a non-empty array ends with its last element. |
| `JsStrings.JoinEmptyIff` | src/app/core/services/auth.service.ts:81 | With a non-empty separator, a join is empty exactly when there are no parts or the one part is empty. |
| `JsStrings.SplitJoin` | src/app/core/services/auth.service.ts:81 | Splitting a join of separator-free parts on the separator gives back the same parts in order. |
| `JsStrings.Includes` | src/app/core/services/auth.service.ts:66 | The scan `includes` makes is true exactly when the element is in the array. |
| `AuthTypes.GetItem` | src/app/core/services/auth.service.ts:51 | A storage read is absent exactly when the key is not stored, and otherwise gives the stored value. |
| `AuthTypes.Truthy` | src/app/core/services/auth.service.ts:57 | `!!token` (and `!user` at line 63, negated) holds exactly for a stored value other than the empty string. |
| `AuthTypes.HasRol` | src/app/core/services/auth.service.ts:63 | `user.rol` is truthy only for a user record with a role. Such a value is itself truthy. A missing value or a string never has a role. |
| `AuthTypes.TemplateText` | src/app/core/services/auth.service.ts:40 | Inside a template literal a missing token renders as `null`, a string as itself and a user record as `[object Object]`. The text `null` therefore comes from a missing token or from the stored string `"null"`, nothing else. |
| `AuthTypes.BearerHeader` | src/app/core/services/auth.service.ts:38-41 | The header starts with `Bearer `. After that prefix it holds exactly the stored token string. With no token it is `Bearer null`. |
| `ErrorHandling.MsgText` | src/app/core/services/auth.service.ts:81 | `err.msg` as the join renders it: the message when present, the empty string when missing. |
| `ErrorHandling.MsgTexts` | src/app/core/services/auth.service.ts:81 | The mapped messages keep the list's length and order. A missing `msg` appears as the empty string. |
| `ErrorHandling.ValidationMessage` | src/app/core/services/auth.service.ts:81 | The 400 message is never empty. It is the fallback `Errores de validación` exactly in the cases where the newline join is empty (no errors, or one with an empty message). Otherwise it is the newline join of the messages. |
| `ErrorHandling.ValidationMessageLines` | src/app/core/services/auth.service.ts:81 | When no field message contains a newline, splitting the 400 message on newlines gives back every field message, in order. |
| `ErrorHandling.PassedErrors` | src/app/core/services/auth.service.ts:102 | `error.error?.errors` is the JSON body's `errors` unchanged, and undefined for a null or text body. |
| `ErrorHandling.Handle` | src/app/core/services/auth.service.ts:75-104 | The decision table. A normalised rejection carries the original status and the body's `errors` unchanged. A 400 never logs out: it gives the validation message when there is an `errors` list and a `TypeError` otherwise. Any other status gives the body's `message`, or a `TypeError` when the body is null. A 401 with a readable body logs out exactly when `this` is bound. Nothing else logs out. |
| `ErrorHandling.UnboundHandlerNeverLogsOut` | src/app/core/services/auth.service.ts:90 | Called unbound, as `catchError` calls it, the handler never logs out. A 401 with a readable body is rejected with a `TypeError` where the bound handler would log out. |
| `Auth.AuthService.constructor` | src/app/core/services/auth.service.ts:19-23 | A service over distinct keys starts from whatever the storage already holds, with no navigation and no dialog recorded. |
| `Auth.AuthService.GetToken` | src/app/core/services/auth.service.ts:50-52 | The token is absent exactly when the token key is not stored, and otherwise is the stored value. |
| `Auth.AuthService.IsAuthenticated` | src/app/core/services/auth.service.ts:55-58 | True exactly when a value is stored under the token key and it is not the empty string. |
| `Auth.AuthService.HasRole` | src/app/core/services/auth.service.ts:61-67 | True exactly when the cached value is a user with a role whose name is in `roles`. False for an empty `roles`, and false when there is no user, the value is not a user, or the user has no role. |
| `Auth.AuthService.Logout` | src/app/core/services/auth.service.ts:70-73 | Empties the storage and records one navigation to `/auth/login`. Afterwards nobody is authenticated and `HasRole` is false for every role list. |
| `Auth.AuthService.HandleError` | src/app/core/services/auth.service.ts:75-104 | Returns the table's rejection and records its message as a dialog when it is normalised. A 401 with a readable body clears the storage, so the session is anonymous afterwards. Every other status leaves the storage as it was. |
| `Auth.AuthService.Login` | src/app/core/services/auth.service.ts:25-35 | On success it resolves with the payload and writes the token, then the user. Afterwards `GetToken` is the token, the session is authenticated exactly when the token is non-empty, and `HasRole` follows the user's role. On failure it rejects with the handler's rejection and writes nothing; the storage is cleared only when the handler logs out. |
| `Auth.AuthService.GetPerfil` | src/app/core/services/auth.service.ts:37-47 | The request sees `Bearer <token>` built from the token at call time. Success resolves with the profile and changes no state. Failure rejects with the handler's rejection, and the storage is cleared only when the handler logs out. |
| `Scenarios.LogoutTwice` | src/app/core/services/auth.service.ts:70-73 | A second logout leaves the same (empty) storage as the first. Each call adds one navigation to the login page. |
| `Scenarios.LoginAsAdmin` | src/app/core/services/auth.service.ts:28-32 | After a successful login as an `admin`, the session is authenticated, `["admin"]` is granted and `["viewer"]` is refused. |
| `Scenarios.ExpiredTokenOnProfile` | src/app/core/services/auth.service.ts:88-103 | A profile request answered 401 `token expired` ends a running session. It rejects with `{401, "token expired", undefined}` after exactly one dialog. |
| `Scenarios.ValidationOfTwo` | src/app/core/services/auth.service.ts:81 | Two field messages become one message on two lines. |
| `Scenarios.RejectedLogin` | src/app/core/services/auth.service.ts:80-87 | A login answered 400 with two field errors rejects with both messages on two lines and the errors passed through. The storage stays empty. |
| `Scenarios.FailedLogin` | src/app/core/services/auth.service.ts:88-103 | A login answered 500 rejects with the body's message verbatim. The storage stays empty. |

## Findings

| source | as written | input that shows it | evidently intended | confidence | as-written member | corrected member |
|---|---|---|---|---|---|---|
| src/app/core/services/auth.service.ts:33 | `catchError(this.handleError)` passes the method without binding it, and the same happens at line 45. In strict-mode class code the handler runs with `this` undefined. On a 401 its `this.logout()` at line 90 throws a `TypeError`. | `getPerfil` or `login` answered 401 with body `{message: "token expired"}`: no logout, no dialog, and the caller gets a `TypeError` | The storage is cleared, the user is sent to `/auth/login`, and the caller gets `{status: 401, message, errors}` | high; not executed | `ErrorHandling.UnboundHandlerNeverLogsOut` | `Auth.AuthService.HandleError` |

## Left out

- HTTP transport and RxJS plumbing (`HttpClient`, `HttpHeaders`, `pipe`, `map`, `tap`, `catchError`, `throwError`): a request is a function from its only varying input to a response. The API base URL and endpoint paths are not modelled.
- SweetAlert dialogs: only the dialog text is recorded, in a ghost log. Icon, title and button colour are left out.
- Router navigation: recorded as a ghost log of target paths.
- `console.log`: no observable effect.
- `StorageService`: its file is not part of this model. It is a map, and a value reads back exactly as it was written.
- `environment`: its file is not part of this model. The two keys are constructor parameters required to differ.
- The relative order of the logout and the dialog inside a 401: the two are kept in separate logs.
- Error bodies beyond null, plain text and a JSON object with an optional `message` and an optional `errors` list of objects with an optional `msg`. Not modelled: a non-array `errors`, `null` elements in it, and non-string `message` or `msg` values.
- A success envelope without `data`, `token` or `usuario`: the response types always carry them.
- Concurrency and a crash between the two login writes (the torn state). `Login` performs both writes with nothing in between.
- `LoginComponent`, `HomeComponent`, the route table and its guard: presentation and framework configuration around the service.
