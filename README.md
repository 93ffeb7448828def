# Task synchronisation controller of the TaskFlow home page

The home page of this task-management client (`src/pages/HomePage.jsx`) owns
the page's task collection, the task selected for editing, a loading flag,
an error banner and a notification snackbar. `fetchTasks` loads the whole
collection with one GET. Each mutation handler (`handleAddTask`,
`handleUpdateTask`, `handleDeleteTask`, `handleToggleComplete`) makes one
call to the REST API. Only when that call succeeds does it reload the
collection and show a notification; when it fails, it shows an error and
does not reload. `showSnackbar`, `handleCloseSnackbar` and the edit and
cancel setters change local state only. This project models that controller
as a small deterministic state machine.

- `tasks.dfy` (module `Tasks`): tasks, request bodies, the snackbar, the
  outcomes of remote calls, the page's fixed messages, the snackbar's close
  action, the toggle request and message, and how a server that honours a
  PATCH reflects it.
- `transitions.dfy` (module `Transitions`): one pure function per handler
  (every handler except `showSnackbar`, which the mutations use as a step),
  from the state before it runs and the outcomes of its calls to the state
  after it has settled. Each body follows the handler's own order of
  updates. Each contract states what that order amounts to.
- `home_page.dfy` (module `Controller`): the component as a class `HomePage`
  with the five state variables as fields and one method per handler. Every
  method updates the fields in the source's order. Every handler method is
  proved to end in the state its `Transitions` function gives; `ShowSnackbar`
  states its new state directly. The methods that call the API return the
  requests they issued, each with the loading flag and error banner shown
  while it was in flight.
- `sessions.dfy` (module `Sessions`): sessions, meaning sequences of user
  actions run one handler at a time. The lemmas compare a whole session with
  reference definitions that are written from the actions alone.

Each remote call is a parameter: `Ack` (`Accepted` or `Rejected`) for a POST,
PATCH or DELETE, and `Fetch` (`Loaded(data)` or `LoadFailed`) for the GET.

Behaviour the model pins down:

- `fetchTasks` catches its own failures, so the `await fetchTasks()` inside a
  mutation never throws. A mutation that succeeds on the server therefore
  always raises its success notification, even when the reload after it
  fails. In that case the error banner shows the load-failure message and
  the old collection stays on screen (`ReconciliationFailureStillNotifies`).
- `handleUpdateTask` drops the edit selection only after the PATCH has
  succeeded (lines 102-103). On a failed PATCH the selection is kept
  (`AfterUpdateTask`, `RunSelection`).
- Toggling a task twice restores it only if the reload after the first
  toggle succeeded, so that the list holds the server's updated copy. If
  that reload fails, the list still shows the old copy, and toggling it
  again sends the same `completed` value a second time
  (`ToggleTwiceThroughPage`, `StaleToggleRepeats`).
- The snackbar's close action keeps the message and severity.

## Model

| member | source | states |
|---|---|---|
| `Controller.HomePage.constructor` | src/pages/HomePage.jsx:51-59 | the page starts with no tasks, no selection, not loading, no error, and a closed snackbar with an empty message and severity success |
| `Controller.HomePage.ShowSnackbar` | src/pages/HomePage.jsx:65-67 | opens the snackbar with the given message and severity (success by default) and changes nothing else |
| `Controller.HomePage.HandleCloseSnackbar` | src/pages/HomePage.jsx:69-71 | hides the snackbar and keeps its message and severity; nothing else changes |
| `Controller.HomePage.FetchTasks` | src/pages/HomePage.jsx:73-85 | issues exactly one GET with loading set and the error cleared, and ends in the state `AfterFetch` describes |
| `Controller.HomePage.HandleAddTask` | src/pages/HomePage.jsx:87-97 | POSTs the form's fields with the error cleared; reloads only if the POST succeeded; ends in the state `AfterAddTask` describes |
| `Controller.HomePage.HandleUpdateTask` | src/pages/HomePage.jsx:99-110 | PATCHes the selected task's identifier with the form's fields; reloads only if the PATCH succeeded; ends in the state `AfterUpdateTask` describes |
| `Controller.HomePage.HandleDeleteTask` | src/pages/HomePage.jsx:112-122 | DELETEs the given identifier; reloads only if the DELETE succeeded; ends in the state `AfterDeleteTask` describes |
| `Controller.HomePage.HandleToggleComplete` | src/pages/HomePage.jsx:124-138 | PATCHes only `completed`, set to the opposite of the task's value; reloads only on success; ends in the state `AfterToggleComplete` describes |
| `Controller.HomePage.HandleEditTask` | src/pages/HomePage.jsx:257 | selecting a task in the list makes it the edit selection and changes nothing else |
| `Controller.HomePage.HandleCancelEdit` | src/pages/HomePage.jsx:220 | cancelling the form drops the edit selection and changes nothing else |
| `Tasks.Closed` | src/pages/HomePage.jsx:69-71 | a closed snackbar is hidden and keeps the message and severity it had |
| `Tasks.CloseIdempotent` | src/pages/HomePage.jsx:69-71 | closing the snackbar a second time changes nothing |
| `Tasks.ToggleMessage` | src/pages/HomePage.jsx:131-133 | the toggle notification says "completed" exactly when the task was not completed, and "incomplete" exactly when it was |
| `Tasks.Patched` | src/pages/HomePage.jsx:127-129 | a PATCH reflected by the server never changes the task's identifier, and an empty body changes nothing |
| `Tasks.ToggleTwiceRestores` | src/pages/HomePage.jsx:127-129 | one toggle inverts `completed`; a second toggle of the task as the server returned it after the first PATCH gives back the original task |
| `Transitions.AfterFetch` | src/pages/HomePage.jsx:73-85 | a fetch always ends with loading false and the selection and snackbar untouched; on success the collection is exactly the server's response and there is no error; on failure the collection is kept and the load-failure message is shown |
| `Transitions.AfterAddTask` | src/pages/HomePage.jsx:87-97 | if the POST fails, only the error changes, to the add-failure message; if it succeeds, the page is reloaded and the "Task added successfully!" success notification is open |
| `Transitions.AfterUpdateTask` | src/pages/HomePage.jsx:99-110 | the selection is dropped if and only if the PATCH succeeded; if it fails, only the error changes, to the update-failure message; if it succeeds, the page is reloaded and "Task updated successfully!" is open |
| `Transitions.AfterDeleteTask` | src/pages/HomePage.jsx:112-122 | if the DELETE fails, only the error changes, to the delete-failure message; if it succeeds, the page is reloaded and "Task deleted!" is open with severity info |
| `Transitions.AfterToggleComplete` | src/pages/HomePage.jsx:124-138 | if the PATCH fails, only the error changes, to the status-failure message; if it succeeds, the page is reloaded and an open success notification names the task's new completion value |
| `Transitions.AfterEditTask` | src/pages/HomePage.jsx:257 | the chosen task becomes the selection and no other field changes |
| `Transitions.AfterCancelEdit` | src/pages/HomePage.jsx:220 | the selection is dropped and no other field changes |
| `Transitions.AfterCloseSnackbar` | src/pages/HomePage.jsx:69-71 | the snackbar is hidden, its message and severity are kept, and no other field changes |
| `Sessions.StepTasks` | src/pages/HomePage.jsx:73-138 | the collection changes only through a successful reload, and then becomes exactly the server's response |
| `Sessions.StepSelection` | src/pages/HomePage.jsx:99-110 | the selection changes only by edit, cancel or a successful update |
| `Sessions.StepError` | src/pages/HomePage.jsx:73-138 | each operation leaves its own failure message if its call failed, the load-failure message if only the reload failed, and no error otherwise; edit, cancel and close leave the error alone |
| `Sessions.StepNotice` | src/pages/HomePage.jsx:87-138 | a mutation whose call succeeded raises its own notification whatever the reload did; one whose call failed leaves the snackbar as it was |
| `Sessions.ReconciliationFailureStillNotifies` | src/pages/HomePage.jsx:79-92 | a mutation that succeeded on the server but whose reload failed shows its success notification, the load-failure error and the old collection |
| `Sessions.StepSettles` | src/pages/HomePage.jsx:82-84 | no handler leaves the page loading |
| `Sessions.RunShowsLastReload` | src/pages/HomePage.jsx:73-138 | after any session, the collection is exactly what the last successful reload returned, or the starting collection if none succeeded |
| `Sessions.RunSelection` | src/pages/HomePage.jsx:99-110 | after any session, the selection is the one left by the last edit, cancel or successful update |
| `Sessions.RunSettles` | src/pages/HomePage.jsx:73-85 | between handlers the page is never loading |
| `Sessions.ConsistentAfterReload` | src/pages/HomePage.jsx:73-138 | when the last action of a session ends with a successful reload returning the server's collection, the page shows exactly that collection |
| `Sessions.ToggleTwiceThroughPage` | src/pages/HomePage.jsx:124-133 | after an accepted toggle whose reload returns the server's updated task, the page lists that task, and toggling the listed copy gives back the original |
| `Sessions.StaleToggleRepeats` | src/pages/HomePage.jsx:124-133 | after an accepted toggle whose reload fails, the page still lists the old task, and toggling it again sends the same value, so the server never returns to the original |
| `Sessions.MountScenarios` | src/pages/HomePage.jsx:51-63 | mounting against an empty server gives an empty list with no error; against an unreachable one, an empty list with the load-failure message |

## Left out

- The HTTP client (axios) and the REST service. Each call is modelled only by
  its outcome, which the caller passes in. The server's response is taken as
  it is; its shape is not checked.
- `console.error` logging. It has no effect on the page's state.
- The theme, the JSX layout, the CSS keyframes and the global styles. They
  are presentation only.
- `TaskForm` and `TaskList`. They are not part of this model; they only
  render data and call the handlers.
- The snackbar's auto-hide timer (`autoHideDuration`). Only the explicit close
  action is modelled.
- Concurrency. Each handler runs to completion before the next one starts,
  so overlapping handlers, React's batching of state updates, and
  `handleCloseSnackbar` reading a stale `snackbar` from its closure are not
  modelled.
- The mount effect. It is modelled only as construction followed by one
  fetch (`MountScenarios`), not as a React effect.
- Controller.HomePage.HandleUpdateTask: requires a selected task, because the
  page offers the update form only while a task is selected (lines 216-219).
  With no selection, reading `editingTask._id` would throw inside the `try`
  and show the update-failure message; the model does not cover that case.
- Tasks.Patched: this is how the server is assumed to apply a PATCH. It is not
  code of the page, and it is used only to state the toggle round trip.
