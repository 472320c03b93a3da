# User session store

A Dafny model of the Pinia store `user` in `platformUI/gui/src/stores/user-store.js`.
The store keeps one piece of state, the current `user`. It offers the getter `hasUser`
and three actions: `updateUser`, `logIn` and `logOut`. Each action branches on the
development flag. In development mode no request is made: `logIn` accepts only the
account `"mock"`. In production mode each action issues one request to the identity
API, and its `then`/`catch`/`finally` handlers decide the new `user`, whether to show a
notification, and, for `logIn`, whether to call the `closeDialog` callback.

The model has three modules:

- `UserModel` (`user_model.dfy`) holds the values. These are the identity, the
  JavaScript values that reach `user` (`undefined`, `null` or an identity), notifications,
  requests, and the outcome of a request (a response with status and payload, or a
  transport failure). The `Session` record holds the user, the notification log, the
  count of `closeDialog` calls and the request log. There is one pure transition per
  action, built from the action's promise stages. Each transition's contract gives the
  net effect for every mode and outcome.
- `UserStore` (`user_store.dfy`) is the store as a class. Its mutable `user` field is
  an `Option<Identity>`, so `null` and `undefined` are the same `None`. The `dev` flag is
  immutable and set by the constructor. Notifications, `closeDialog` calls and issued
  requests are logs on the object. Each action method takes its request's outcome, so it
  runs atomically. It is proved to leave exactly the state the matching transition gives,
  and to keep the store invariant `Valid()`.
- `SessionTraces` (`session_traces.dfy`) models runs of actions one after another. Its
  lemmas are proved by induction. They state that the invariant holds on every run, that
  requests are issued one per production action and in order, and that over a run the
  number of notifications plus `closeDialog` calls grows by exactly the number of `logIn`
  calls plus the production `updateUser` transport failures. That each single `logIn`
  ends in exactly one of a notification or a `closeDialog` call is part of `LogInStep`'s
  contract.

A production `logIn` that meets a transport failure does not clear the user: the
`catch` handler (line 64) only logs, so a previous user survives and the `finally`
handler then calls `closeDialog`. The model follows this (`LogInStep`,
`FailedLogInKeepsPreviousUser`).

## Model

| member | source | states |
|---|---|---|
| UserModel.Stored | platformUI/gui/src/stores/user-store.js:59-61 | assigning a JavaScript value to `user` stores no user exactly when the value is loosely `null` (`null` or `undefined`), and stores the identity otherwise |
| UserModel.HasUserExactlyWhenNotNull | platformUI/gui/src/stores/user-store.js:6-13 | the store starts without a user; `hasUser` holds exactly when the assigned value is neither `null` nor `undefined`; both store the same absent value |
| UserModel.UpdateUserStep | platformUI/gui/src/stores/user-store.js:16-39 | in development mode nothing changes. In production GET "/id" is issued. Status 200 stores the payload and any other status clears the user, with no notification. A transport failure keeps the user and adds exactly one "Could not fetch user information" notification. `closeDialog` is never called |
| UserModel.LogInStep | platformUI/gui/src/stores/user-store.js:41-77 | in development, account "mock" stores "Mock User" and calls `closeDialog` once with no notification; any other account keeps the user and adds one "Login failed". In production GET "/login/" + account + "/" + password is issued. Status 200 stores the payload, another status clears the user, a transport failure keeps it. The call then ends with exactly one of: a "Login failed" notification if the resulting user is absent, or one `closeDialog` call |
| UserModel.LogOutStep | platformUI/gui/src/stores/user-store.js:79-93 | development mode always clears the user with no request. Production issues PUT "/logout"; any response, whatever its status, clears the user, and a transport failure keeps it. No notification and no `closeDialog` call in any case |
| UserModel.DevLogInIgnoresPassword | platformUI/gui/src/stores/user-store.js:42-53 | in development mode the result of `logIn` depends on neither the password nor any request outcome |
| UserModel.FailedLogInKeepsPreviousUser | platformUI/gui/src/stores/user-store.js:64-75 | a production login that meets a transport failure while a user is set keeps that user, calls `closeDialog` once and emits no notification |
| UserModel.EmptyPayloadLogInFails | platformUI/gui/src/stores/user-store.js:58-71 | a production login answered with status 200 and a `null` or `undefined` payload leaves no user and emits "Login failed" without calling `closeDialog` |
| UserModel.SuccessfulLogInScenario | platformUI/gui/src/stores/user-store.js:55-75 | from a fresh production store, logging in as "alice"/"pw" with payload `{id: 42}` stores it, calls `closeDialog` once, emits nothing and issues GET "/login/alice/pw" |
| UserModel.LoginPathAmbiguous | platformUI/gui/src/stores/user-store.js:56 | credentials are not escaped, so account "a/b" with password "c" issues the same path as account "a" with password "b/c" |
| UserModel.LoginPathInjective | platformUI/gui/src/stores/user-store.js:56 | when neither account contains a slash, equal login paths mean equal accounts and equal passwords |
| UserModel.InitialConsistent | platformUI/gui/src/stores/user-store.js:6-9 | a fresh store, in either mode, satisfies the store invariant |
| UserStore.Store.HasUser | platformUI/gui/src/stores/user-store.js:11-13 | the store's `hasUser` getter holds exactly when `user` is present, that is neither `null` nor `undefined` |
| UserStore.Store.constructor | platformUI/gui/src/stores/user-store.js:5-9 | a new store has the given mode, no user, no notifications, no `closeDialog` calls and no requests, and satisfies `Valid()` |
| UserStore.Store.UpdateUser | platformUI/gui/src/stores/user-store.js:16-39 | updating the fields in place leaves exactly the state `UpdateUserStep` gives and keeps `Valid()` |
| UserStore.Store.LogIn | platformUI/gui/src/stores/user-store.js:41-77 | the response handler assigns `user` first and the final branch reads the updated field; the new state is exactly what `LogInStep` gives, and `Valid()` is kept |
| UserStore.Store.LogOut | platformUI/gui/src/stores/user-store.js:79-93 | updating the fields in place leaves exactly the state `LogOutStep` gives and keeps `Valid()` |
| SessionTraces.StepKeepsConsistent | platformUI/gui/src/stores/user-store.js:31-71 | any one action keeps the invariant: only negative/top/report_problem notifications with one of the two messages, and in development mode no request and no user other than "Mock User" |
| SessionTraces.RunKeepsConsistent | platformUI/gui/src/stores/user-store.js:15-94 | any run of actions keeps the store invariant |
| SessionTraces.RunFromInitial | platformUI/gui/src/stores/user-store.js:5-94 | every run from a fresh store emits only the store's two notifications; a development store never issues a request and never holds a user other than "Mock User" |
| SessionTraces.RunRequests | platformUI/gui/src/stores/user-store.js:15-94 | a production store issues exactly one request per action, in call order, with each action's verb and path; a development store issues none |
| SessionTraces.RunFeedback | platformUI/gui/src/stores/user-store.js:65-75 | over any run, the number of notifications plus `closeDialog` calls grows by exactly the number of `logIn` calls, plus, in production, the number of `updateUser` calls that met a transport failure |

## Left out

- The axios client `apiUser` and HTTP transport. Each action takes the outcome of its request as a parameter and records the verb and path it would issue. Which statuses reach the `then` handler depends on the client's configuration, which is not part of this model; any status may be given.
- Promise scheduling and overlapping calls. Each action is applied atomically to its outcome, so the model does not capture interleaved, last-writer-wins updates between concurrent actions.
- `console.log` and `error.toJSON()` diagnostics. They only write to the console and do not affect state.
- The Quasar notifier and the Pinia `defineStore` wiring. A notification is a record appended to a log on the store.
- `process.env.DEV`. It becomes the constructor's `dev` argument.
- The `closeDialog` callback. It is passed to each `logIn` call; the model keeps one count of its invocations for the whole store.
- Payloads. They are modelled as an identity value (a string), `null` or `undefined`. Other JavaScript values and the loose comparison `account == "mock"` with non-string accounts are not modelled; accounts and passwords are strings.
- `common/build.gradle.kts`. It is build orchestration (timestamp comparison and a compiler run) and has no logic the store uses.
