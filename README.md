# atom-todo client core in Dafny

This project models the decision logic of the atom-todo Angular client. The client is a task board (todo, in progress, done) backed by a remote task and user API. What is modelled:

- the task card's status picker;
- the board's split of tasks into three columns;
- the edit and delete dialogs;
- the authentication service: session state, sign-in, sign-out, email normalisation and validation, and the error-message table;
- registration in the user service;
- the request interceptor that attaches the bearer token (RFC 6750, section 2.1) and reacts to 401 answers;
- the two route guards;
- the task service's request builder.

Every remote call is modelled as an input value: `Http.Outcome` is either a reply envelope or an `HttpError`. What a component does is recorded as an appended trace of `Effects.Effect` values: gateway calls, emitted events, console logs, sign-outs and navigations. Components whose fields the source updates in place are classes:

- `TaskCard.TaskCardComponent`
- `UpdateTaskModal.UpdateTaskModalComponent`
- `DeleteTaskModal.DeleteTaskModalComponent`
- `Auth.AuthService`

`TaskCard.TaskCardComponent.SelectStatus`, `UpdateTaskModal.UpdateTaskModalComponent.OnUpdateTask`, `DeleteTaskModal.DeleteTaskModalComponent.OnDeleteTask`, `Auth.AuthService.HandleError` and `Auth.AuthService.Login` are proved against a function that states the same step as a value. The simpler methods (`ToggleStatusMenu`, `NgOnInit`, `SetAuthData`, `Logout`) state their new fields directly. The rest is functions and lemmas.

Modules, one per source file (plus shared support):

- `Wrappers`: Option and Result.
- `Strings`: the JavaScript string operations used by the core, namely `trim`, ASCII `toLowerCase`, `includes` and number formatting, plus `LastIndexOf`, a helper the model itself uses to split an email at its last '@' and a status URL at its last '/'.
- `Models`: the interfaces of `core/models`.
- `Http`: request descriptors, HTTP errors and call outcomes.
- `Effects`: the trace.
- `Tasks`: `task.service.ts`.
- `TaskList`: `task.component.ts`.
- `TaskCard`.
- `UpdateTaskModal`.
- `DeleteTaskModal`.
- `Auth`: `auth.service.ts`.
- `Users`: `user.service.ts`.
- `Interceptor`.
- `Guards`.

## Model

| member | source | states |
|---|---|---|
| Strings.Trim | src/app/core/services/auth.service.ts:48 | `trim()` removes exactly the leading and trailing ECMAScript whitespace and line terminators. The result is a contiguous slice of the input whose ends are not whitespace. It is empty iff the input is all whitespace. |
| Strings.TrimOfTrimmed | src/app/core/services/auth.service.ts:48 | Trimming a string with no surrounding whitespace leaves it unchanged. |
| Strings.ToLower | src/app/core/services/auth.service.ts:48 | `toLowerCase()` keeps the length and lowercases each character in place (ASCII letters only). |
| Strings.LowerCharKeepsWhitespace | src/app/core/services/auth.service.ts:48 | Lowercasing never turns a whitespace character into a non-whitespace one, or the reverse. |
| Strings.Contains | src/app/core/interceptors/auth.interceptor.ts:34-36 | `includes(sub)` holds iff `sub` occurs at some index of the string. |
| Strings.NatToString | src/app/core/services/auth.service.ts:170 | A natural number renders as a non-empty string of decimal digits whose value (`DigitsValue`) is the number. Zero renders as `0`, and no longer rendering starts with '0'. |
| Strings.IntToString | src/app/core/services/auth.service.ts:170 | The rendering of the status in `Error ${status}` starts with '-' exactly for negative numbers. The digits that follow (all of it for non-negative numbers) denote the magnitude, with no leading zero. |
| Tasks.Build | src/app/core/services/task.service.ts:17-58 | Every request carries `Content-Type` and `Accept` set to `application/json`, and its URL starts with the API base. |
| Tasks.ParseBuild | src/app/core/services/task.service.ts:17-51 | Parsing a built request (method, URL and body) recovers the operation. For each operation, this pins down the verb, the `/task`, `/task/?userEmail=<email>`, `/task/<id>/<in-progress\|done\|todo>` or `/task/<id>` URL, and the body (input, none, `{}`, full task). |
| Tasks.ParseBuildStatus | src/app/core/services/task.service.ts:29-45 | A status request is a PATCH with body `{}` to `/task/<id>/` plus the endpoint's suffix, and it parses back to that id and endpoint. |
| Tasks.ParseBuildList | src/app/core/services/task.service.ts:23-27 | The list request is a GET with no body to `/task/?userEmail=` followed by the unencoded email, and it parses back to that email. |
| Tasks.ParseBuildUpdate | src/app/core/services/task.service.ts:47-51 | The update request is a PUT of the full task to `/task/<task.id>`, and it parses back to that task. |
| Tasks.ParseStatusPathJoin | src/app/core/services/task.service.ts:29-45 | The id and suffix of a status URL are recovered by cutting at its last '/'. |
| Tasks.BuildInjective | src/app/core/services/task.service.ts:17-51 | Two different operations never produce the same request. |
| Tasks.EndpointOfSuffix | src/app/core/services/task.service.ts:29-45 | A recognised URL suffix names the endpoint whose suffix it is. |
| TaskList.FilterByStatus | src/app/modules/home/task/task.component.ts:42-44 | A column holds exactly the tasks of the list that have its status, and no other. |
| TaskList.FilterKeepsOrder | src/app/modules/home/task/task.component.ts:42-44 | Two tasks of a column keep their original relative order. |
| TaskList.FilterAppend | src/app/modules/home/task/task.component.ts:42-44 | Filtering distributes over concatenation. |
| TaskList.PartitionSizes | src/app/modules/home/task/task.component.ts:42-44 | The three column sizes plus the number of tasks with an unknown status equal the list length. |
| TaskList.UnknownCountZero | src/app/modules/home/task/task.component.ts:42-44 | No task has an unknown status iff every status is one of the three. |
| TaskList.PartitionCovers | src/app/modules/home/task/task.component.ts:42-44 | The column sizes sum to at most the list length, with equality exactly when every status is known. |
| TaskList.PartitionsDisjoint | src/app/modules/home/task/task.component.ts:42-44 | The columns are pairwise disjoint, and a task with an unknown status is in none. |
| TaskList.FilterThree | src/app/modules/home/task/task.component.ts:42-44 | Filtering a three-task list equals filtering each task on its own, in order. |
| TaskList.FilterSingle | src/app/modules/home/task/task.component.ts:42-44 | A one-task list yields that task or nothing, according to its status. |
| TaskList.SeedColumns | src/app/modules/home/task/task.component.ts:15-44 | The seed list yields exactly one task per column, in seed order. |
| TaskList.NewTaskPage | src/app/modules/home/task/task.component.ts:15-44 | A new board holds the three seed tasks, with one in each column. |
| TaskCard.EndpointFor | src/app/modules/home/components/task-card/task-card.component.ts:22-62 | `todo`, `in_progress` and `done` select the move-back-to-todo, in-progress and done endpoints respectively (iff), and any other string selects none. |
| TaskCard.StatusChange | src/app/modules/home/components/task-card/task-card.component.ts:21-62 | An unknown status makes no call, emits nothing and leaves the task unchanged. A known one makes exactly one call, for `task.id`, to its endpoint. Only the status can change, and only on a successful reply, where it becomes the server's status. Exactly then one `statusChanged(id, server status)` is emitted. A log happens iff the call fails. Each branch's whole effect sequence is stated: call then emit; call alone; call then the endpoint's error log. |
| TaskCard.TaskCardComponent.constructor | src/app/modules/home/components/task-card/task-card.component.ts:12-15 | The menu starts closed. |
| TaskCard.TaskCardComponent.ToggleStatusMenu | src/app/modules/home/components/task-card/task-card.component.ts:17-19 | The toggle negates the menu flag and changes nothing else. |
| TaskCard.ToggleTwiceRestores | src/app/modules/home/components/task-card/task-card.component.ts:15-19 | Two toggles restore the menu flag. |
| TaskCard.TaskCardComponent.SelectStatus | src/app/modules/home/components/task-card/task-card.component.ts:21-65 | After any pick and any outcome the menu is closed. The task and the trace change exactly as `StatusChange` states. |
| UpdateTaskModal.Merge | src/app/modules/home/components/update-task-modal/update-task-modal.component.ts:37-42 | The sent task has the form's title and description. Every other field (id, status, owner, timestamps) is the original's. |
| UpdateTaskModal.UneditedMergeIsIdentity | src/app/modules/home/components/update-task-modal/update-task-modal.component.ts:27-42 | Submitting the form exactly as `ngOnInit` filled it sends the task unchanged. |
| UpdateTaskModal.UpdateTargetsOriginalId | src/app/modules/home/components/update-task-modal/update-task-modal.component.ts:37-43 | The update goes to `/task/<original id>` whatever the form holds, and the request carries the merged task. |
| UpdateTaskModal.UpdateEffects | src/app/modules/home/components/update-task-modal/update-task-modal.component.ts:36-54 | A null task only logs "Form is invalid or taskToUpdate is null". Otherwise there is exactly one update call with the merged task. Any reply, whatever its `success`, closes the dialog exactly once with the reply's task, and a task is emitted iff it is that one. An error logs "Error updating task:" with the error. With a task, the whole sequence is stated: the call, then the close event or the error log. |
| UpdateTaskModal.UpdateTaskModalComponent.constructor | src/app/modules/home/components/update-task-modal/update-task-modal.component.ts:20-25 | The form starts with an empty title and description. |
| UpdateTaskModal.UpdateTaskModalComponent.NgOnInit | src/app/modules/home/components/update-task-modal/update-task-modal.component.ts:27-34 | The form takes the task's title and description when there is a task. Otherwise it is unchanged. |
| UpdateTaskModal.UpdateTaskModalComponent.OnUpdateTask | src/app/modules/home/components/update-task-modal/update-task-modal.component.ts:36-54 | The trace grows by `UpdateEffects`. The form is reset exactly when there is a task and a reply arrives. |
| DeleteTaskModal.DeleteEffects | src/app/modules/home/components/delete-task-modal/delete-task-modal.component.ts:16-34 | A null task logs "taskToDelete is null", emits `closeModal(undefined)` once and makes no call. Otherwise there is exactly one delete call with the id as given. The dialog closes with the task iff the reply reports success. With a task, the whole sequence is stated: the call, then the close event (success), the "Failed to delete task:" log of the reply's message (no success), or the "Error deleting task:" log of the error. |
| DeleteTaskModal.RepeatedDeletes | src/app/modules/home/components/delete-task-modal/delete-task-modal.component.ts:16-34 | n confirmations with successful replies make n delete calls and n emissions: nothing guards against repeats. |
| DeleteTaskModal.DeleteTaskModalComponent.constructor | src/app/modules/home/components/delete-task-modal/delete-task-modal.component.ts:13 | The dialog starts with no task to delete (null) and nothing done. |
| DeleteTaskModal.DeleteTaskModalComponent.OnDeleteTask | src/app/modules/home/components/delete-task-modal/delete-task-modal.component.ts:16-34 | The trace grows by `DeleteEffects`, and the target is kept. |
| Auth.NormalizeEmail | src/app/core/services/auth.service.ts:48 | The sent email is the original minus surrounding whitespace, with each remaining character lowercased in place and nothing else changed. It has no surrounding whitespace and no uppercase letter. |
| Auth.NormalizeEmailIdempotent | src/app/core/services/auth.service.ts:48 | Normalising twice equals normalising once. |
| Auth.LoginRequest | src/app/core/services/auth.service.ts:47-52 | Sign-in is a POST to `<api>/auth/login` with JSON headers whose body is the normalised email. |
| Auth.IsValidEmail | src/app/core/services/auth.service.ts:83-86 | `isValidEmail` as four checks: the last '@' is not the first character, no '@' comes before it, there is no whitespace, and the domain has a '.' that is neither its first nor its last character. Its meaning is fixed by `Auth.IsValidEmailIffPattern` and the example lemmas. |
| Auth.IsValidEmailIffPattern | src/app/core/services/auth.service.ts:83-86 | The four-condition check holds iff the email matches `^[^\s@]+@[^\s@]+\.[^\s@]+$`. The conditions are: exactly one '@', a non-empty local part, no whitespace, and an inner '.' in the domain. |
| Auth.ValidEmailMatchesPattern | src/app/core/services/auth.service.ts:83-86 | Every email passing the check matches the regular expression. |
| Auth.PatternIsValidEmail | src/app/core/services/auth.service.ts:83-86 | Every email the regular expression matches passes the check. |
| Auth.AcceptedEmailExamples | src/app/core/services/auth.service.spec.ts:279-291 | `test@example.com` and `user.name@domain.co` are accepted. |
| Auth.AcceptedTaggedEmailExample | src/app/core/services/auth.service.spec.ts:279-291 | `user+tag@example.org` is accepted. |
| Auth.AcceptedHyphenEmailExample | src/app/core/services/auth.service.spec.ts:279-291 | `user123@example-domain.com` is accepted. |
| Auth.AcceptedExample | src/app/core/services/auth.service.ts:83-86 | Any `local@host.tld` made of three non-empty runs without whitespace or '@' is accepted. |
| Auth.RejectedEmailExamples | src/app/core/services/auth.service.spec.ts:293-306 | The listed malformed addresses are rejected: no '@', empty local part, empty domain, leading '.', a space, two '@', and the empty string. |
| Auth.Decide | src/app/core/services/auth.service.ts:147-176 | A client-side error gives "Error: " plus its message. For server errors: 401 gives "No autorizado", 404 "Usuario no encontrado" and 500 "Error interno del servidor"; 400 and any other status prefer a non-empty body message, falling back to "Datos inválidos" or "Error <status>: <statusText>". Sign-out happens iff it is a server 401. |
| Auth.FixedStatusesIgnoreBody | src/app/core/services/auth.service.ts:155-168 | For 401, 404 and 500 the body makes no difference. |
| Auth.UnknownErrorMessage | src/app/core/services/user.service.ts:62-63 | A status-0 "Unknown Error" with no body reads "Error 0: Unknown Error". |
| Auth.StartupState | src/app/core/services/auth.service.ts:19-45 | Start-up is signed in, with the stored user and token, iff a non-empty token and a user are both stored. Otherwise it is the signed-out state. |
| Auth.RestartAfterLogin | src/app/core/services/auth.service.ts:32-45 | Restarting after a sign-in restores it, unless the server's token was empty. In that case the restart is signed out. |
| Auth.AcceptsLogin | src/app/core/services/auth.service.ts:54 | A login reply signs in when it reports success and carries data. |
| Auth.AuthService.constructor | src/app/core/services/auth.service.ts:19-45 | The service starts in `StartupState` of what storage holds, which is consistent: signed out with neither user nor token, or signed in with both. |
| Auth.AuthService.IsAuthenticated | src/app/core/services/auth.service.ts:71-73 | Reports the session flag. In a consistent state, a false flag means the state is the signed-out one. |
| Auth.AuthService.GetCurrentUser | src/app/core/services/auth.service.ts:75-77 | In a consistent state, the user is present exactly while signed in. |
| Auth.AuthService.GetToken | src/app/core/services/auth.service.ts:79-81 | In a consistent state, the token is present exactly while signed in. |
| Auth.AuthService.SetAuthData | src/app/core/services/auth.service.ts:88-99 | Stores the token and user and signs in with them, leaving a consistent state. |
| Auth.AuthService.Logout | src/app/core/services/auth.service.ts:62-81 | Clears storage and signs out. Afterwards `isAuthenticated()` is false and `getCurrentUser()` and `getToken()` are null, and the state is consistent. |
| Auth.AuthService.HandleError | src/app/core/services/auth.service.ts:147-176 | Returns `Decide`'s message. It signs out exactly on a server 401, and otherwise leaves state and storage unchanged. A consistent state stays consistent. |
| Auth.AuthService.Login | src/app/core/services/auth.service.ts:47-60 | Sends `LoginRequest`. A reply with `success` and `data` signs in with the reply's user and token; any other reply changes nothing; every reply is passed on. An error yields `Decide`'s message and signs out only on a server 401. A consistent state stays consistent. |
| Users.RegisterRequest | src/app/core/services/user.service.ts:18-23 | Registration is a POST to `<api>/user` with JSON headers whose body is the normalised email. |
| Users.SameEmailAsLogin | src/app/core/services/user.service.ts:19 | Registration sends the same normalised email as sign-in. |
| Users.Register | src/app/core/services/user.service.ts:18-69 | The success log fires iff `success` is set and the user's email is non-empty, and the reply is passed on. An error yields the decision table's message. Sign-out is requested iff it is a server 401. |
| Users.RegisterWith | src/app/core/services/user.service.ts:52-55 | A server 401 signs the authentication service out. Every other outcome leaves it unchanged. |
| Interceptor.IsAuthEndpoint | src/app/core/interceptors/auth.interceptor.ts:34-36 | A URL is an auth endpoint iff `/auth/login` or `/auth/register` occurs in it at some index. |
| Interceptor.AttachesToken | src/app/core/interceptors/auth.interceptor.ts:12-15 | The token is attached iff it is present and non-empty and neither auth path occurs anywhere in the URL. |
| Interceptor.Intercept | src/app/core/interceptors/auth.interceptor.ts:8-68 | Verb, URL and body are kept. `Authorization: Bearer <token>` is set, with the token verbatim, exactly when the token is non-empty and the URL contains neither `/auth/login` nor `/auth/register`. Otherwise the request is forwarded unchanged. Every other header is kept. |
| Interceptor.OnError | src/app/core/interceptors/auth.interceptor.ts:23-31 | The error is rethrown unchanged. A sign-out and a navigation to `/login` happen, once each, iff the status is 401 and the URL is not an auth endpoint. The sign-out comes first, and nothing else happens. Every other error has no effect at all. |
| Interceptor.ContainsSuffix | src/app/core/interceptors/auth.interceptor.ts:34-36 | A URL ending in a path contains that path. |
| Interceptor.LoginIsNeverDecorated | src/app/core/interceptors/auth.interceptor.ts:8-36 | The sign-in request never gets a token, and a 401 answer to it causes no interceptor sign-out. |
| Interceptor.NonAuthRequestIsDecorated | src/app/core/interceptors/auth.interceptor.ts:12-21 | Any non-auth request with a non-empty token gets exactly the extra `Authorization` header. |
| Guards.AuthGuard | src/app/core/guards/auth.guard.ts:7-28 | The result is `isAuthenticated`. A navigation to `auth/login`, with the URL as `returnUrl`, happens iff signed out. |
| Guards.LoginGuard | src/app/core/guards/auth.guard.ts:30-46 | The result is `!isAuthenticated`. A navigation to `/home` happens iff signed in. |
| Guards.GuardsAreComplementary | src/app/core/guards/auth.guard.ts:7-46 | In any state exactly one guard lets through and exactly one navigates, once. |
| Guards.GuardsReadOnlyTheFlag | src/app/core/guards/auth.guard.ts:17-37 | The guards depend on `isAuthenticated` alone, not on the user or the token. |

## Left out

- The HTTP transport, RxJS observables and the `subscribe` callbacks' asynchrony are not modelled. Each call's reply or error is an input (`Http.Outcome`), and each component handles it at once, in order.
- Console logging is not modelled as output. It appears only as `Logged` trace entries in the components. The services' `console.error('Auth Service Error:', …)` is not recorded.
- Browser storage I/O is not modelled:
  - `localStorage`, `JSON.stringify`/`JSON.parse` and the server-side-rendering `typeof window` checks are left out.
  - Storage is a field holding the stored token and user.
  - The storage-failure throw (src/app/core/services/auth.service.ts:102) and the swallowed read and clear errors are left out.
- `Strings.ToLower`: `toLowerCase` is modelled for ASCII letters only. Other letters are kept as they are. Whitespace for `trim` is the full ECMAScript set.
- `UpdateTaskModal.UpdateTaskModalComponent.OnUpdateTask`: Angular's `reset()` sets both controls to null. The model resets them to the empty strings the form was built with.
- `TaskCard.TaskCardComponent.SelectStatus`: the source mutates the parent's task object through a shared reference. The model updates the card's own copy, so the parent's columns, computed once at construction, are not shown to go stale.
- The delete call's URL is not modelled. `deleteTask` is called by the delete dialog but is not defined in src/app/core/services/task.service.ts, so it appears only as an abstract `DeleteTask(id)` call.
- The board's reactive pipeline that its tests describe (task streams, statistics, creation form, refresh) is not part of this model, because src/app/modules/home/task/task.component.ts contains only the seed list and the three filters. The integration tests' mock component is test scaffolding and is also left out.
- Templates, styles, the login and header components, routes and modules are UI only and are not modelled.
- Timestamps are opaque values.
- The unused `timestamp` fields of the reply envelopes are dropped.
- `success` is a boolean, so JavaScript truthiness of other values is not modelled.
- A null or missing status reaches the status picker as a string that matches none of the three statuses. The model treats it as any unknown status.
- src/app/modules/home/task/task.component.ts imports its `Task` type from a home-module model file that is not part of this model. The core `Task` interface is used instead, since the seed data fits it.
- The API base URL (`environment.apiUrl`) is the parameter `api`.
- `Interceptor.Intercept`: header names are compared case-sensitively. Angular's header store is case-insensitive, so an existing `authorization` header would be replaced by `Authorization`, whereas the model keeps both. No request built in this model carries such a header.
- `undefined` is not distinguished from `null`: both are `None`. The delete dialog tests `!== null` (src/app/modules/home/components/delete-task-modal/delete-task-modal.component.ts:17), so an `undefined` task would take the call branch and fail on `.id`. The model treats it as the null branch.
- The interceptor exists in a functional and a class form with identical decisions. One definition models both.
- `Guards.AuthGuard` and `Guards.LoginGuard` read only the first emitted state (`take(1)`). The model takes that state as the parameter.
