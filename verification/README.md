# Navigation codelab activity: ready gate and callback tables

This project models the one piece of logic in the navigation codelab's
`MainActivity`: the **ready gate** that defers work needing the navigation
engine until the engine has started. It also models the small decision
tables around it: the start-up error callback, the route result listener,
and the permission step at activity creation.

The gate has a handle slot (`navigatorScope`) and a first-in first-out list
of pending actions (`pendingNavActions`).

- `withNavigatorAsync` is `Gate.Submit`. It runs the action at once with
  the stored handle if there is one, and queues it otherwise.
- The start of `onNavigatorReady` is `Gate.MarkReady`. It stores the handle
  first, runs every pending action in order with it, and then empties the
  list.

Actions are opaque identifiers (`ActionId`). A ghost `trace` records which
action ran, with which handle, in which order.

The gate is specified in two layers.

- `Step` and `Run` define the reference behaviour: the gate's value after
  any history of events (submit, ready, start-up error).
- `Gate` is the object whose fields are updated in place. Its invariant
  `Valid()` says that, between calls, the fields equal `Run` of the events
  the object has seen. So every lemma about `Run` holds of every reachable
  `Gate`.

`Step` and `Run` (ready_gate.dfy) have no contract of their own and so no
row in the table below. They render MainActivity.kt:259-266 (a submit),
110-114 (the ready callback) and 136-155 (the error callback, which leaves
the gate alone). Every lemma in the table is stated over them.

The main lemmas are:

- `Conservation`: every submitted action has either run exactly once or is
  still pending, and the ones that ran did so in submission order. This
  holds for actions that do not themselves submit, which is true of every
  action in this activity (see "## Left out").
- `SingleReady`: with one ready callback, every action runs exactly once,
  in order, with that handle.
- `NeverReadyRunsNothing`: if the engine never becomes ready (the error
  path), nothing runs.

In two places the code does less than one would expect of such a gate.
The model follows the code.

- A second ready callback is not expected, but it is not rejected either.
  The code simply assigns the slot again. `MarkReady` therefore has no precondition on readiness and replaces the
  handle.
  `ReadyAgainReplaysNothing` shows that no drained action runs a second
  time.
- A denied permission is expected to end the session before any submit,
  but it does not stop every submit. `onDestroy`
  (MainActivity.kt:304-319) still submits the clean-up action. When the
  engine never became ready, that action is queued and never runs, as the
  doc comment of `withNavigatorAsync` says. `NeverReadyRunsNothing` covers
  this case.

## Model

| member | source | states |
|---|---|---|
| `NavReadyGate.Gate.constructor` | Solution/app/src/main/java/com/example/navsdkcodelab/MainActivity.kt:46-47 | a new gate has no handle, no pending action and has run nothing |
| `NavReadyGate.Gate.Invoke` | Solution/app/src/main/java/com/example/navsdkcodelab/MainActivity.kt:327-329 | running an action with a handle records exactly that (action, handle) pair at the end of the trace |
| `NavReadyGate.Gate.Submit` | Solution/app/src/main/java/com/example/navsdkcodelab/MainActivity.kt:259-266 | if ready, the action runs at once with the stored handle and the pending list is unchanged; if not ready, it is appended to the end of the list and nothing runs; the handle never changes; the gate stays consistent with its history |
| `NavReadyGate.Gate.MarkReady` | Solution/app/src/main/java/com/example/navsdkcodelab/MainActivity.kt:110-114 | the handle is stored, every previously pending action runs once in FIFO order with that handle, and the list ends empty; the loop invariant shows the handle is set and the list unchanged throughout the drain |
| `NavReadyGate.Gate.OnInitError` | Solution/app/src/main/java/com/example/navsdkcodelab/MainActivity.kt:136-155 | the error callback leaves handle, pending list and trace untouched (the gate stays not ready) and yields the notice for the code |
| `NavReadyGate.Conservation` | Solution/app/src/main/java/com/example/navsdkcodelab/MainActivity.kt:259-266 | after any history, the actions that ran followed by the ones still pending are exactly the submitted actions in submission order; nothing runs before the handle is set; nothing is pending after |
| `NavReadyGate.HandleNeverCleared` | Solution/app/src/main/java/com/example/navsdkcodelab/MainActivity.kt:112 | once a history has stored the handle, every longer history still has it: the slot is assigned only by the ready callback and never cleared |
| `NavReadyGate.NeverReadyRunsNothing` | Solution/app/src/main/java/com/example/navsdkcodelab/MainActivity.kt:252-258 | if the ready callback never comes (for example after a start-up error), no action runs and all stay queued in order |
| `NavReadyGate.ReadySubmitsRunAtOnce` | Solution/app/src/main/java/com/example/navsdkcodelab/MainActivity.kt:260-262 | once the handle is set, any further submits run immediately, in order, with the stored handle, and neither the list nor the handle changes |
| `NavReadyGate.SingleReady` | Solution/app/src/main/java/com/example/navsdkcodelab/MainActivity.kt:110-114 | in a session with one ready callback, every action submitted before or after runs exactly once, in submission order, with that handle, and nothing is left pending |
| `NavReadyGate.ReadyAgainReplaysNothing` | Solution/app/src/main/java/com/example/navsdkcodelab/MainActivity.kt:112-114 | a further ready callback after the gate is ready runs no action again and leaves the list empty |
| `NavReadyGate.ScenarioFourActions` | Solution/app/src/main/java/com/example/navsdkcodelab/MainActivity.kt:252-258 | submit A, B, C, become ready with h, submit D: the trace is A, B, C, D, each with h, and nothing is pending |
| `NavReadyGate.RunAppend` | Solution/app/src/main/java/com/example/navsdkcodelab/MainActivity.kt:47 | the gate after a longer history is the later events run from the state the shorter history reached, and the submissions concatenate |
| `NavCallbacks.InitErrorNotice` | Solution/app/src/main/java/com/example/navsdkcodelab/MainActivity.kt:137-154 | not-authorized and terms-not-accepted each get their own notice; every other code gets the generic notice carrying that code; both directions |
| `NavCallbacks.RouteOutcomeFor` | Solution/app/src/main/java/com/example/navsdkcodelab/MainActivity.kt:180-207 | guidance starts iff the status is OK; the cancelled notice iff cancelled; every other status (no route, network error, the rest) gets the error notice carrying the status, and no guidance |
| `NavCallbacks.FailedRouteIsUniform` | Solution/app/src/main/java/com/example/navsdkcodelab/MainActivity.kt:201-206 | the explicit no-route / network-error branch and the fall-through branch give the same kind of outcome, differing only in the status they print |
| `NavPermissions.RequiredPermissions` | Solution/app/src/main/java/com/example/navsdkcodelab/MainActivity.kt:68-73 | fine location is always requested, first; notifications are requested iff the platform version is at least 33; no permission appears twice |
| `NavPermissions.StartStepFor` | Solution/app/src/main/java/com/example/navsdkcodelab/MainActivity.kt:75-95 | the activity starts directly (after the delay) iff every required permission is already granted, and otherwise asks for exactly the required set |
| `NavPermissions.AfterPermissionResults` | Solution/app/src/main/java/com/example/navsdkcodelab/MainActivity.kt:84-90 | navigation is initialised iff fine location is present and granted in the answers; otherwise the activity finishes |
| `NavPermissions.NotificationAnswerIrrelevant` | Solution/app/src/main/java/com/example/navsdkcodelab/MainActivity.kt:85 | granting, denying or omitting the notification permission never changes the decision |

## Left out

- NavReadyGate.Gate.Invoke / NavReadyGate.Gate.MarkReady: every action is assumed to return
  normally. In the code, an action that throws during the drain
  (MainActivity.kt:113) leaves `onNavigatorReady` before the list is
  cleared (114). The handle is already stored (112), so the list still
  holds every action, including those that already ran, and a further
  ready callback would run them again. An action that throws in
  `withNavigatorAsync` (262) passes the exception to the caller of submit.
  On Android such an uncaught exception on the main thread ends the
  process. `Conservation`'s "nothing is pending once the handle is set"
  and `ReadyAgainReplaysNothing` rely on this assumption.
- NavReadyGate.Conservation / NavReadyGate.SingleReady / NavReadyGate.Gate.MarkReady:
  the submission-order claims cover only actions that do not submit from
  inside their own body. The handle is stored (MainActivity.kt:112) before
  the drain (113), so an action that calls `withNavigatorAsync` while it is
  being drained takes the immediate branch (260-262). The nested action
  then runs inside it, before the actions still queued. For example,
  submit A, B, C, then the ready callback, where A submits X: the code runs
  A, X, B, C, while the submission order is A, B, C, X. None of this
  activity's actions submits from inside itself (the blocks at 175-210,
  218-236 and 306-317 never call `withNavigatorAsync`). So every history
  this activity produces is covered.
- Action bodies are not modelled: the navigation engine calls queued at
  MainActivity.kt:176 and 218-236 and the clean-up at 306-317. These are
  closed-source engine calls. An action is an identifier, and running it
  only records it in the trace. A submit made from inside an action during
  the drain is therefore not modelled as an event. What the model shows is
  that the handle is already stored and the list stays fixed throughout
  the drain loop (`Gate.MarkReady`). Such a submit would take the immediate
  branch of `Gate.Submit`.
- The rest of `onNavigatorReady` after the drain is not modelled: the
  task-removed behaviour, assigning `mNavigator`, the debug simulator,
  registering listeners, the map camera and `navigateToPlace`. These are
  engine calls. The two submits they make happen after the handle is set,
  which `ReadySubmitsRunAtOnce` covers.
- `navigateToPlace`'s waypoint construction and its "unsupported place ID"
  notice are not modelled. They are an engine builder call.
- The engine's integer error codes and route-status enumeration values are
  not modelled. The two named codes and four named statuses are
  constructors. Every other value is `OtherCode` / `OtherStatus`.
  `OtherCode` never carries the integer values of not-authorized or
  terms-not-accepted, and `OtherStatus` never stands for one of the four
  named statuses.
- Notices are tags. Their text and the toast display are not modelled.
- The success branch of the route listener is one tag, `BeginGuidance`.
  Its engine calls are not modelled: hiding the toolbar, the audio mode,
  the debug-only simulation at speed multiplier 5 and `startGuidance`.
- The platform permission calls are not modelled; their results are
  parameters. These calls are `checkSelfPermission`, the rationale check
  with its empty branch, `registerForActivityResult`/`launch`, and the
  two-second `postDelayed` start.
- Lifecycle forwarding to the map view is not modelled
  (MainActivity.kt:268-302). Nor are window insets, edge-to-edge and
  keep-screen-on, which are UI plumbing.
- `BuildConfig.DEBUG` branches, the start location and the place-ID
  constants are not modelled. They are build configuration and
  floating-point values.
- Threading is not modelled. All callbacks run on the main thread, so the
  gate is modelled as strictly sequential.
