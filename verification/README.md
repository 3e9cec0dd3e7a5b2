# Search-and-delete workflow: a Dafny model

This project models the core of a small React front end, `front-eliminar`. An operator types a
numeric product identifier and looks the product up. The operator can then delete it after
confirming in a dialog. Three pieces of code cooperate:

- **the shared store** (`DatosContext.jsx`): three state cells shared by the view and the dialog:
  the identifier `idproducto`, the delete signal `btnValueEliminar` and the last delete response
  `resjson`. Each is overwritten through its setter, with no checks.
- **the search view** (`BuscarEliminar.jsx`): its own cells are `spinner`, `btn` (the submit
  button is disabled while `btn` is true), `globalErrorMsg`, `producto` and `modal`. It holds the
  digit filter on input, the lookup, opening and closing of the dialog, and an effect that reacts
  to a new `resjson`.
- **the confirmation dialog** (`Modal.jsx`): its own cells are `open` and `spinner`. It holds the
  close guard and the delete action.

## How the model is built

- Each component is a class whose fields are its state cells: `Context.Store`,
  `Dialog.ConfirmDialog` and `Search.SearchView`. The view and every dialog it mounts hold the
  same `Store` object.
- An `async` handler is cut at each `await`. Every phase is its own method, and the reply of a
  remote call is an input of the phase that follows it. `LookupReply` is `LookupOk(data)` or
  `LookupErr(msg?)`. `DeleteReply` is `DeleteOk(msg?)` or `DeleteErr(msg?)`. Each 1 s and 3 s
  wait is a phase boundary, not a clock.
- The only guard on starting a search is the disabled submit button: `BuscarStart` requires
  `!btn`, and in a run a submit while `btn` is true changes nothing. Beyond that the phases
  carry no guards, because the code has none. A search can be started again while one is
  running, since starting does not touch `btn`. The delete button is never disabled and can be
  pressed twice. The dialog can be cancelled while its DELETE request is in flight, since its
  spinner only covers the 1 s wait. The end of any 3 s wait clears whatever message shows,
  even one set after that wait began (`SearchRuns.AnyWaitClearsDeletionMessage`).
- A run of a handler keeps what its closure and event captured when it started. A search
  keeps the identifier; a deletion (`DeleteTask`) keeps the product id of that render and the
  pressed element's `value`.
- The dialog's props are fields that each render updates: a lookup that succeeds while the
  dialog is mounted passes it the new product (`SearchView.Valid` ties the props to the shown
  product).
- Every state-changing method is specified by a pure transition function on a value of the
  whole state. For the view and store this value is `Search.ViewState`; for the dialog it is
  `Dialog.DialogCells`. The lemmas in `SearchRuns` and `Dialog` are proved about these
  functions, over any sequence of phases.
- The dialog's `onClose` is the view's `handleCloseModal`. The dialog module cannot call the
  view, so `HandleOnClose` returns how many times it called `onClose`, and `EliminarSettled`
  returns the ordered trace of its effects. The view's `CancelDialog` and `DeleteSettled` then
  run `handleCloseModal` for that call.
- The view holds the mounted dialog object while `modal` is true. This is the render at
  `BuscarEliminar.jsx:176`. A dialog whose DELETE request settles after it was removed still
  runs its last phase, which again closes whatever dialog is open.
- The effect on `resjson` runs once at mount, where the delete signal is empty and it does
  nothing. It also runs each time `resjson` is replaced, which only happens when a deletion
  settles. Every replacement is a new object, so the effect fires on every deletion.
- Quirks kept as written:
  - `btn` is set from the typed value even when the filter rejects that value, so a rejected
    non-empty value enables submit with the old identifier kept
    (`SearchRuns.RejectedValueEnablesSubmit`).
  - A successful delete stores `error: true` and a failed lookup stores `error: false`.
  - The delete signal is the pressed element's `value`. That is `"eliminar"` for a press on the
    button. While the spinner shows, the button holds a label, and a press on the label targets
    an element with no value. The signal is then `undefined`, modelled as the empty string
    because its one reader only tests truthiness. Such a deletion settles without blanking the
    product or showing its outcome (`SearchRuns.LabelPressHidesOutcome`).
  - `producto` is `null` (`Null`), the empty string (`Blank`, set by the effect) or the product
    found (`Data`).
  - `globalErrorMsg` is the empty string (`NoBanner`) or an object (`Shown`).
  - The code has no guard against a second search or a second delete while one is in flight.
    It does not check the stored identifier before a lookup, and it does not use a distinct
    token per deletion. None of these is added.

## Model

| member | source | states |
|---|---|---|
| Context.InitialCellsAreQuiet | src/context/DatosContext.jsx:7-9 | the identifier and the delete signal start empty and the initial `{}` response has no message, so no alert shows |
| Context.Store.constructor | src/context/DatosContext.jsx:7-9 | the three cells start as `''`, `''` and `{}` |
| Context.Store.SetIdProducto | src/context/DatosContext.jsx:7 | the identifier becomes exactly the given value with no check; the other cells are unchanged |
| Context.Store.SetBtnValueEliminar | src/context/DatosContext.jsx:8 | the delete signal becomes exactly the given value; the other cells are unchanged |
| Context.Store.SetResjson | src/context/DatosContext.jsx:9 | the response becomes exactly the given value; the other cells are unchanged |
| Replies.MsgOr | src/componentes/Modal.jsx:41 | JavaScript `msg` or-else `fallback`: a present non-empty message is kept; an absent or empty one gives the fallback; the result is never empty when the fallback is not |
| Dialog.CloseGuard | src/componentes/Modal.jsx:56-64 | while the spinner shows, closing changes nothing and calls `onClose` zero times; otherwise `open` becomes false and `onClose` is called exactly once |
| Dialog.CloseIgnoredIffCancelDisabled | src/componentes/Modal.jsx:129 | the Cancel button is disabled exactly when closing is ignored, and a close calls `onClose` at most once |
| Dialog.PressedValue | src/componentes/Modal.jsx:110-121 | the pressed element's `value` is "eliminar" unless the spinner shows and the press lands on the label, where it is empty (`undefined`) |
| Dialog.AfterConfirm | src/componentes/Modal.jsx:33 | starting a deletion shows the spinner and leaves `open` alone |
| Dialog.AfterConfirmDelay | src/componentes/Modal.jsx:34-35 | after the 1 s wait the spinner is hidden before the DELETE request is made |
| Dialog.DeletePayload | src/componentes/Modal.jsx:40-49 | the stored response always has a message: the reply's non-empty `msg`, else "Producto Eliminado" on success or the generic error text on failure; `error` is true exactly on success |
| Dialog.SettleCells | src/componentes/Modal.jsx:40-52 | whatever the outcome, the response is stored and the delete signal becomes the pressed element's value; the identifier is untouched |
| Dialog.SettleEffects | src/componentes/Modal.jsx:37-53 | the response is written first; then `onClose` is called exactly once and the signal (the pressed element's value) is written exactly once, last |
| Dialog.SpinnerIsLatestWrite | src/componentes/Modal.jsx:31-35 | over any sequence of dialog phases, the spinner shows exactly when the latest start-or-end-of-wait phase was a start |
| Dialog.HiddenStaysHidden | src/componentes/Modal.jsx:24 | no dialog phase sets `open` back to true once it is false |
| Dialog.ConfirmDialog.constructor | src/componentes/Modal.jsx:17-25 | a mounted dialog starts with `open` true and `spinner` false, bound to the shared store and the product's id and name |
| Dialog.ConfirmDialog.Rerender | src/views/BuscarEliminar.jsx:176 | a render passes the given product id and name as the dialog's props |
| Dialog.ConfirmDialog.HandleOnClose | src/componentes/Modal.jsx:56-64 | new cells and number of `onClose` calls are those of the close guard |
| Dialog.ConfirmDialog.EliminarStart | src/componentes/Modal.jsx:31-33 | the cells become those after a start; the run keeps the product id of the current props and the pressed element's value |
| Dialog.ConfirmDialog.EliminarDelayOver | src/componentes/Modal.jsx:34-39 | the spinner is hidden, then the DELETE request goes to `/eliminar/` followed by the id the run captured |
| Dialog.ConfirmDialog.EliminarSettled | src/componentes/Modal.jsx:37-53 | the store cells become the settled cells for the run's pressed value, and the returned trace is the ordered effects of the `try`/`catch` and `finally` blocks |
| Search.MatchesDigits | src/views/BuscarEliminar.jsx:51 | `/^\d*$/` accepts a string exactly when every character is a decimal digit; the empty string is accepted |
| Search.AfterIdChange | src/views/BuscarEliminar.jsx:48-55 | the identifier takes the value only if it is all digits, else it keeps its old value; `btn` is "value is empty" either way; nothing else changes |
| Search.AfterSearchStart | src/views/BuscarEliminar.jsx:60-62 | starting a search clears the message and the product and shows the spinner before any request; the store, `btn` and `modal` are unchanged |
| Search.AfterSearchDelay | src/views/BuscarEliminar.jsx:63-64 | after the 1 s wait only the spinner changes, and it is hidden |
| Search.AfterLookup | src/views/BuscarEliminar.jsx:66-78 | success shows the product, clears the identifier and disables submit; failure shows an alert with the error's non-empty `msg`, else the generic text, flagged `error: false`; the spinner, `modal`, signal and response are unchanged |
| Search.AfterMessageWait | src/views/BuscarEliminar.jsx:80-83 | at the end of a 3 s wait the message is `''` and no alert shows; nothing else changes |
| Search.AfterOpenModal | src/views/BuscarEliminar.jsx:86-89 | opening sets `modal` to true and changes nothing else |
| Search.AfterCloseModal | src/views/BuscarEliminar.jsx:91-94 | closing sets `modal` to false and changes nothing else |
| Search.AfterObserve | src/views/BuscarEliminar.jsx:33-46 | with an empty delete signal the effect changes nothing; otherwise the product is blanked and the message becomes `resjson`; nothing else changes |
| Search.AfterDeleteSettled | src/views/BuscarEliminar.jsx:33-46 | after a deletion settles, the response and the signal are stored and the dialog is removed; with a non-empty signal the product is cleared and the response's message shows as an alert, with an empty one the product and message are left as they were |
| Search.LookupUrl | src/views/BuscarEliminar.jsx:67 | the lookup URL is `/consultar/` followed by exactly the captured identifier |
| Search.SearchView.constructor | src/views/BuscarEliminar.jsx:27-39 | the view's cells start as `false`, `true`, `''`, `null`, `false`, then the effect on `resjson` runs once; no dialog is mounted |
| Search.SearchView.HandleIdProductoChange | src/views/BuscarEliminar.jsx:48-55 | the state becomes that after an input change |
| Search.SearchView.BuscarStart | src/views/BuscarEliminar.jsx:57-63 | callable only while the submit button is enabled; the state becomes that after a search start, and the identifier the handler captured is returned |
| Search.SearchView.BuscarDelayOver | src/views/BuscarEliminar.jsx:63-68 | the spinner is hidden, then the lookup goes to the URL of the captured identifier |
| Search.SearchView.BuscarSettled | src/views/BuscarEliminar.jsx:66-78 | the state becomes that after the lookup's reply; a mounted dialog keeps its cells and, on success, receives the new product's id and name as props |
| Search.SearchView.BuscarWaitOver | src/views/BuscarEliminar.jsx:80-83 | the message is cleared |
| Search.SearchView.ObserveResjson | src/views/BuscarEliminar.jsx:33-39 | the state becomes that after the effect |
| Search.SearchView.MsgEliminadoWaitOver | src/views/BuscarEliminar.jsx:44-45 | the message is cleared |
| Search.SearchView.HandleOpenModal | src/views/BuscarEliminar.jsx:86-89 | `modal` becomes true; if no dialog was mounted, a fresh one is mounted with the shown product's id and name |
| Search.SearchView.HandleCloseModal | src/views/BuscarEliminar.jsx:91-94 | `modal` becomes false and the dialog is removed |
| Search.SearchView.CancelDialog | src/views/BuscarEliminar.jsx:176 | while the dialog's spinner shows, cancelling changes nothing; otherwise the dialog is hidden, `handleCloseModal` runs once and the dialog is removed |
| Search.SearchView.DeleteSettled | src/views/BuscarEliminar.jsx:176 | a settled deletion, even one of a dialog already removed, runs `handleCloseModal` for the `onClose` call in the dialog's trace and then the effect, leaving the state that follows a deletion with that run's pressed value, with no dialog mounted |
| SearchRuns.InitialStateIsQuiet | src/views/BuscarEliminar.jsx:27-35 | at the start no alert and no product show, submit is disabled, and the mount-time effect changes nothing |
| SearchRuns.StepKeepsConsistent | src/views/BuscarEliminar.jsx:48-94 | every handler phase keeps the invariant: the identifier is all digits; stored and shown responses carry a message; the signal is set only together with a response |
| SearchRuns.RunKeepsConsistent | src/views/BuscarEliminar.jsx:48-94 | every sequence of handler phases keeps that invariant |
| SearchRuns.ReachableStates | src/views/BuscarEliminar.jsx:142 | in every reachable state the identifier is all digits, and a message object in `globalErrorMsg` is always shown as an alert |
| SearchRuns.ObserverInertWithoutDeletion | src/views/BuscarEliminar.jsx:35 | until a deletion completes, the signal stays `''` and `resjson` stays `{}`, so the effect changes nothing and never blanks the product |
| SearchRuns.SearchSpinnerIsLatestWrite | src/views/BuscarEliminar.jsx:62-64 | over any sequence of phases, the search spinner shows exactly when the latest start (accepted while submit was enabled) or end-of-wait phase was a start |
| SearchRuns.SubmitIgnoredWhileDisabled | src/views/BuscarEliminar.jsx:129 | while `btn` is true a submit changes nothing, so no search starts from the initial state |
| SearchRuns.RejectedValueEnablesSubmit | src/views/BuscarEliminar.jsx:54 | from the start, typing "-1" leaves the identifier empty yet enables the submit button, and the search then started looks up `/consultar/` with an empty identifier |
| SearchRuns.LabelPressHidesOutcome | src/componentes/Modal.jsx:114-118 | a deletion started by a press on the spinner's label settles with an empty signal: the dialog is removed, but the product and message stay as they were |
| SearchRuns.AnyWaitClearsDeletionMessage | src/views/BuscarEliminar.jsx:44-45 | a deletion's message shows as an alert, and the end of any 3 s wait right after it clears it |

## Left out

- The HTTP client `configAxios` and its base URL (`src/config/axios.jsx` is not part of this model). A
  request is represented by its URL, and its outcome by a reply input. A reply `msg` that is not a
  string is not modelled: it is `Some(string)` or absent.
- Real timing of the 1 s and 3 s waits: each is a phase boundary, so nothing says how long a message stays.
- React rendering, update batching and effect scheduling. Each handler phase, each `finally` block
  and the effect run is one atomic step. The effect is run right after the step that replaced `resjson`.
- The headlessui `Dialog` internals. Its own dismissal (Escape, click outside) is the same
  `handleOnClose` as the Cancel button. The open dialog makes the search form unreachable. That is
  not modelled, so no method stops a search from starting while the dialog is mounted. If it did
  start, the render at `BuscarEliminar.jsx:176` would read `producto.nombre` of `null`. That crash is not modelled.
- Search.SearchView.HandleOpenModal: requires that a product is shown. Its trash button is
  rendered only then (`BuscarEliminar.jsx:158-164`).
- The pressed element's `value` for a press on the label is `undefined`, which is stored as the empty string. Both are falsy, and nothing else reads the signal.
- The browser's `type="number"` input, which decides what strings can reach the handler. Every string is accepted as input.
- The empty `useEffect` of `Modal.jsx:27-29`, which does nothing; the JSX markup, styles, icons, the dashboard link, the Alert component and `src/App.jsx`.
