# Chart analyst: the submit-and-outcome controller

The page has two parts. The user picks a chart image and types a trading pair
name and a timeframe. Pressing "Analyze Chart" then encodes the image and sends
it, with the two strings, to a remote analysis service. The page shows the
returned report or an error. This project models the controller behind that
page. The controller is made of seven state slots: `pairName`, `timeframe`,
`chartImage`, `chartImagePreview`, `analysisResult`, `isLoading` and `error`.
On top of them sit three handlers and the predicate that disables the button.

- `wrappers.dfy`: `Option`, which models the component's nullable values.
- `controller.dfy` (module `AnalysisController`): the slots as a value `View`.
  Each handler is a transition function. `IsButtonDisabled` is the button
  predicate. `Event`, `Step` and `Run` model what a user can do on the page.
  The lemmas are about those runs.
- `app.dfy` (module `AppComponent`): `class App`, with one field per slot.
  Each handler is a method that assigns to the slots it touches, and the
  method's frame names only those slots (and, for the click handler, the
  ghost logs). Every method is specified by its transition in
  `AnalysisController`. Ghost fields record the outside calls:
  the files handed to the encoder, the remote calls and their arguments, the
  slot values at each call, and how many times loading was switched on.

The encoder (`fileToBase64`) and the remote service (`analyzeChart`) are
parameters. Each is a total function that returns the settled value of its
promise, `Resolved(value)` or `Rejected(reason)`. A rejection reason is either
`ErrorValue(message)`, a value whose `message` property may be missing, or
`Nullish`, for a rejection with `null` or `undefined`.

Three behaviours of `App.tsx` are worth stating outright, because a reader
of the page might expect otherwise:

- With missing input (App.tsx:34-37), the handler only sets `error` and
  returns. It leaves `isLoading` alone, and it keeps any earlier
  `analysisResult` beside the new error (`GateKeepsStaleResult`).
- When encoding fails (App.tsx:44), the handler makes no remote call at all,
  so a valid click makes at most one remote call, not always one
  (`RemoteCallsOf`).
- When a step rejects with `null` or `undefined`, reading `err.message`
  (App.tsx:48) throws inside the catch block. `error` is then never set. The
  finally block (App.tsx:49-50) still clears `isLoading`, and the handler's
  promise rejects (`CaughtMessage`, `App.FinishAnalysis`).

## Model

| member | source | states |
|---|---|---|
| `AnalysisController.Initial` | App.tsx:11-17 | The mounted page shows no result and no error, is not loading, and its button is disabled |
| `AnalysisController.IsButtonDisabled` | App.tsx:54 | The button is disabled exactly when the validation gate would fire or a submission is loading; so an enabled button never reaches the gate |
| `AnalysisController.CaughtMessage` | App.tsx:47-48 | The catch block stores a truthy message as it is and the fallback "An unexpected error occurred." for a missing or empty one; it stores nothing only for a nullish reason; a stored error is never empty |
| `AnalysisController.AfterClick` | App.tsx:33-52 | The handler never touches the inputs. With a missing image, or an empty pair name or timeframe, it only sets the exact validation message, so a stale result and the loading flag survive. Otherwise loading ends cleared. An encoding failure is reported without consulting the service. The service's reply, asked with (base64, media type, pair name, timeframe) in that order, becomes the result or the error. Never both |
| `AnalysisController.RemoteCallsOf` | App.tsx:34-45 | A click makes at most one remote call. It makes none when the gate fires or encoding fails. Otherwise the one call carries the encoder's base64 and media type and the current pair name and timeframe |
| `AnalysisController.AfterImageChange` | App.tsx:19-30 | Clearing the image clears the image and its preview. Picking a file stores that file. Neither touches the text inputs or any outcome slot |
| `AnalysisController.StepKeepsQuiescent` | App.tsx:33-54 | One event on the page, with presses on a disabled button ignored, keeps the page quiescent: not loading, never a result beside an error, never an empty error |
| `AnalysisController.RunKeepsQuiescent` | App.tsx:74-94 | Every sequence of events keeps a quiescent page quiescent (induction on the events) |
| `AnalysisController.ReachableIsQuiescent` | App.tsx:11-17 | Every page state the user can reach from mounting is quiescent |
| `AnalysisController.FillAndPressRunsHandler` | App.tsx:74-94 | Picking an image, typing "BTC/USD" and "H4" and pressing the button amounts to one full run of the click handler on those inputs |
| `AnalysisController.ScenarioBullishTrend` | App.tsx:43-51 | When the service answers "Bullish trend", the page shows that result with no error and loading off |
| `AnalysisController.ScenarioNoMessage` | App.tsx:47-50 | When the service rejects with an error that has no message, the page shows "An unexpected error occurred.", no result, and loading off |
| `AnalysisController.ScenarioNoImage` | App.tsx:34-37 | Without an image a press on the disabled button changes nothing. The handler called directly sets the validation message and makes no remote call |
| `AnalysisController.GateKeepsStaleResult` | App.tsx:34-41 | After a successful analysis, clearing the image and calling the handler directly leaves the old result beside the validation error. That state is not quiescent |
| `AnalysisController.TruthyInputsPassGate` | App.tsx:34-45 | With an image, every non-empty pair name and timeframe (whitespace-only included) passes the truthiness gate, leaves the button enabled when not loading, and reaches the remote service as the one call's pair name and timeframe |
| `AnalysisController.PairNameTypedIdempotent` | App.tsx:82 | Typing the same pair name twice leaves the same state as typing it once |
| `AppComponent.App.constructor` | App.tsx:11-17 | Every slot starts at its default and no outside call has been made |
| `AppComponent.App.SetPairName` | App.tsx:82 | Only the pair name changes |
| `AppComponent.App.SetTimeframe` | App.tsx:89 | Only the timeframe changes |
| `AppComponent.App.HandleImageChange` | App.tsx:19-30 | Only the image and preview slots are written. `null` clears both, and a file is stored as the image |
| `AppComponent.App.PreviewLoaded` | App.tsx:23-25 | The reader's result, `null` included, becomes the preview. Nothing else changes |
| `AppComponent.App.BeginAnalysis` | App.tsx:39-41 | Loading is switched on (counted once), and the error and the result are cleared. The button is disabled afterwards |
| `AppComponent.App.FinishAnalysis` | App.tsx:43-51 | A result is stored or the caught message is stored, and loading is always cleared. The handler's promise rejects exactly for a nullish reason |
| `AppComponent.App.HandleAnalyzeClick` | App.tsx:33-52 | The new slots are those of `AfterClick`, and the remote-call log grows by `RemoteCallsOf`. The gate makes no outside call and does not start loading. A valid click encodes the picked file once and enters loading once. Every outside call sees loading on and the previous outcome cleared |

## Left out

- Rendering (App.tsx:56-138): the markup and styling. The only logic there is which slots are shown, and the button's `disabled` attribute, which `Step` models.
- The file reader's work (`readAsDataURL`) is not modelled. Only its completion callback is, as `PreviewLoaded`, and the preview it stores is an opaque string.
- `fileToBase64` and `analyzeChart` are not part of this model. They are taken as function parameters that return settled promises.
- React scheduling: `useCallback` memoisation, batching of setter calls and re-renders. The handlers are sequential assignments whose final slots match the source.
- Interleaving at the two `await` points: a click runs to completion in one step. Typing, picking an image or a late reader callback during a submission are not modelled. The disabled button is the source's only guard against a second submission, and `IsButtonDisabled` and `BeginAnalysis` state it.
- `CaughtMessage`: a `message` property that is truthy but not a string is not modelled. Messages are `Option<string>`.
- `App.FinishAnalysis`: after a nullish rejection, the `TypeError` that escapes the handler is modelled only as `fulfilled == false`.
