# Car sales assistant: session workflow model

This project models the session workflow of the car sales assistant's `App`
component. A user supplies photos and vehicle details. An external AI service
analyses them. The user reviews the analysis, and the same service then
writes advertisements for six sales channels. The controller moves between
five states (IDLE, ANALYZING, REVIEW, GENERATING_ADS, DONE). It saves an
image-less snapshot of the session to the history store after each
successful analysis and generation. It also releases the `blob:` display
URLs of images that are no longer shown.

Modules:

- `Types` (types.ts): the datatypes `AdContent`, `AnalysisResult` (with its
  four fixed `InspectionDetails`), `CarDetails` (six required texts, two
  optional ones), `HistoryItem` (analysis required, ads nullable) and
  `AppState` (exactly five states). The documented 1..100 range of a score
  is the predicate `ScoreInRange`; the controller never checks it.
- `Cleanup` (App.tsx:105-113): the cleanup effect's `forEach` loop as a
  method, specified by the function `BlobUrls`.
- `Workflow`: the controller as a pure state machine. A `World` is the
  controller's fields, plus the requests of the handler calls still in
  flight, the log of items handed to `saveHistoryItem` and the list of URLs
  handed to `URL.revokeObjectURL`. `Step` applies one
  event and `Run` applies a trace of events. Each async handler is split
  at its `await` into a starting event and a settling event. The settling
  event carries the external outcome and the values the handler captured
  when it started.
- `Controller`: the class `App`. Its fields are the component's state and
  its methods assign them the way the handlers call the setters. Every
  handler method ensures that the new state is `Step` of the old state and
  the matching event, and that an offered event keeps `Valid()`.

External inputs become parameters:
- `Date.now()` becomes `freshId` and `timestamp`.
- The URLs from `URL.createObjectURL` become `displayUrls`.
- The encoded files and the analyser's answer arrive in an `AnalysisOutcome`.
- The generator's answer arrives in a `GenerationOutcome`.

JavaScript truthiness is kept. A session id of `""` counts as absent in
`currentSessionId || Date.now().toString()` and in `if (currentSessionId)`.

Two behaviours of the code are worth knowing:
- A late answer that arrives after a reset is still applied; nothing
  discards it (`LateGenerationFailureAfterReset`).
- A restore sets the images to the stored item's `images`.

## Model

| member | source | states |
|---|---|---|
| `Cleanup.RevokeBlobUrls` | App.tsx:105-113 | the loop revokes exactly the `BlobUrls` of the replaced list, in list order |
| `Cleanup.BlobUrlsCount` | App.tsx:107-111 | a `blob:` URL is revoked as often as it occurs in the old list; any other URL is never revoked |
| `Cleanup.BlobUrlsMembership` | App.tsx:107-109 | a URL is revoked if and only if it was displayed and starts with `blob:` |
| `Workflow.Step` | App.tsx:115-209 | every handler phase or UI transition only appends to the history log, at most one item per step, and only appends to the revoked URLs |
| `Workflow.Run` | App.tsx:115-209 | along any trace the history log and the revoked URLs only grow |
| `Workflow.StartKeepsSessionId` | App.tsx:116-120 | starting enters ANALYZING, issues a request and stores the request's id: the held id when it is truthy, otherwise the fresh one |
| `Workflow.RetryReusesSessionId` | App.tsx:119-153 | after a failed analysis the state is IDLE, nothing was saved, and a retry uses the same session id |
| `Workflow.StartNeverReachesDone` | App.tsx:115-154 | an analysis settles in REVIEW if and only if it succeeded and in IDLE if and only if it failed; never in DONE |
| `Workflow.AnalysisSuccess` | App.tsx:124-147 | success gives REVIEW, images and payloads of the file count, the request's details and the result; exactly one item is saved, with the session id, null ads and no images |
| `Workflow.AnalysisFailure` | App.tsx:149-153 | failure changes only the state (to IDLE) and ends the call; images, payloads, details, analysis, ads, log and revocations are untouched |
| `Workflow.GenerateGuard` | App.tsx:156-160 | without an analysis, generation changes nothing and sends no request; with one it enters GENERATING_ADS whatever the images and issues the request built from the session |
| `Workflow.GenerationSuccess` | App.tsx:162-180 | success gives DONE with the new ads and unchanged details and analysis; a snapshot with the captured id, details, analysis, new ads and no images is saved if and only if the id is truthy |
| `Workflow.GenerationFailure` | App.tsx:181-185 | failure changes only the state (to REVIEW), so previous ads stay; nothing is saved |
| `Workflow.ResetReleasesHandles` | App.tsx:188-198 | reset yields the blank session, saves nothing, and revokes every `blob:` URL of the old images exactly once |
| `Workflow.RestoreCopiesItem` | App.tsx:200-209 | restore takes the item's id, details, analysis and ads, sets images and payloads both to the item's images, index 0, and state DONE if and only if the item has ads, else REVIEW |
| `Workflow.NewHandlesSurviveCleanup` | App.tsx:127-129 | when the created URLs are new, none of the URLs displayed after a successful analysis is revoked by it |
| `Workflow.SessionIdChanges` | App.tsx:119-206 | only starting, resetting and restoring change the session id |
| `Workflow.AnalyzeThenGenerate` | App.tsx:115-186 | analysis then generation from a fresh session save two snapshots with the same id, details and analysis, the first with null ads and the second with the ads |
| `Workflow.CoherentShowsPanel` | App.tsx:240-273 | in a coherent state one of the main panels renders |
| `Workflow.StepKeepsCoherent` | App.tsx:115-272 | every offered event keeps the controller coherent: parallel image lists, an in-range image index, no images, analysis or ads in IDLE and ANALYZING, an id once started, an analysis in REVIEW, GENERATING_ADS and DONE, ads in DONE |
| `Workflow.StepKeepsAgreement` | App.tsx:119-162 | every offered event keeps in-flight requests in agreement with the session: in ANALYZING the request carries the stored id, in GENERATING_ADS the request is what the session would issue now |
| `Workflow.RunKeepsAgreement` | App.tsx:115-198 | every trace of offered events keeps in-flight requests in agreement with the session |
| `Workflow.RunKeepsCoherent` | App.tsx:85-272 | every trace of offered events, with answers arriving while their phase is pending, keeps the controller coherent |
| `Workflow.LateGenerationFailureAfterReset` | App.tsx:181-198 | the genuine in-flight generation request survives a reset, and its failure then leaves REVIEW without an analysis, where no panel renders |
| `Workflow.SavedItemsImageless` | App.tsx:139-179 | in any order of events, every item handed to the history store has no images |
| `Workflow.SavedItemsRecorded` | App.tsx:139-179 | every saved item is the snapshot of a successful analysis or generation in the trace; along offered events, that settlement carried the request its start phase issued, matching the session, and the item's id is the session id held at that moment |
| `Workflow.SavedAdsFollowGeneration` | App.tsx:170-179 | a saved item with ads comes from a successful generation of those ads under that non-empty id; along offered events, that generation settled the request "generate" issued, in GENERATING_ADS, and the item's id, details and analysis are the session's |
| `Workflow.RunKeepsScores` | types.ts:10-22 | the controller holds and saves only analyses it was given, so scores documented in 1..100 stay in range |
| `Workflow.OfferedRunKeepsScores` | App.tsx:124-178 | along offered events only the analyser's results and restored items need in-range scores: a generation request carries the session's own analysis, so every held and saved score stays in range |
| `Controller.App.constructor` | App.tsx:85-98 | the object starts as `Workflow.Initial`: IDLE, no images or payloads, blank details, no analysis, ads or session id, index 0, no call in flight, nothing saved or revoked; it is `Valid()` |
| `Controller.App.SetImages` | App.tsx:105-113 | the images become the new list and exactly the old list's `blob:` URLs are appended to the revoked URLs; no other field changes |
| `Controller.App.StartAnalysis` | App.tsx:115-121 | the new state is `Step` of the start event (ANALYZING, index 0, held-or-fresh session id stored, request in flight) and the returned request carries that same id, the details and the file count; an offered start keeps `Valid()` |
| `Controller.App.SettleAnalysis` | App.tsx:122-153 | the new state is `Step` of the settled analysis, so the properties of `AnalysisSuccess` and `AnalysisFailure` hold of the object; an offered settlement keeps `Valid()` |
| `Controller.App.GenerateAds` | App.tsx:156-160 | the new state is `Step` of the generate event; the returned request is absent exactly when there is no analysis, else it captures analysis, payloads, details and session id; an offered generate keeps `Valid()` |
| `Controller.App.SettleGeneration` | App.tsx:161-185 | the new state is `Step` of the settled generation, so the properties of `GenerationSuccess` and `GenerationFailure` hold of the object; an offered settlement keeps `Valid()` |
| `Controller.App.HardReset` | App.tsx:188-198 | the new state is `Step` of reset: the blank session, with every old `blob:` URL revoked once (`ResetReleasesHandles`); it keeps `Valid()` |
| `Controller.App.RestoreSession` | App.tsx:200-209 | the new state is `Step` of restoring the item, so `RestoreCopiesItem` holds of the object; a restore from IDLE keeps `Valid()` |
| `Controller.App.ViewExisting` | App.tsx:268 | only the state changes, to DONE; offered only with ads, it keeps `Valid()` |
| `Controller.App.Back` | App.tsx:272 | only the state changes, to REVIEW; from DONE it keeps `Valid()` |
| `Controller.App.SelectImage` | App.tsx:61 | only the image index changes, to the clicked one; an index within the images keeps `Valid()` |

## Left out

- The rendering, styling, background and layout (App.tsx:22-82, 211-282) are left out. Only the panel conditions at App.tsx:240-273 are used, in `PanelShown`.
- `fileToBase64` is FileReader I/O. The encoded strings arrive in the analysis outcome, and a failed encoding is an `AnalysisFailed` outcome.
- `analyzeCarImage` and `generateAds` call an external service that is not part of this model. Their results are the outcome parameters.
- The history list (`historyItems`) is left out, because the storage service is not part of this model. That covers `getHistory` at App.tsx:101, the list returned by `saveHistoryItem`, and deletion with `confirm` at App.tsx:247. Only the items passed to `saveHistoryItem` are recorded, so upsert order and quota handling are not modelled.
- `saveHistoryItem` is assumed to return normally. Both calls sit inside the handlers' `try` blocks (App.tsx:147, 179). If one threw, the `catch` would run after the success setters. An analysis would then end in IDLE with its images, payloads, details and analysis set. A generation would end in REVIEW with the new ads set. No item would be recorded in either case. Such states lie outside `Coherent`.
- Toast notifications and their messages are left out. A failure keeps its message in the outcome, but nothing shows it.
- `Date.now()` and `URL.createObjectURL` are parameters. Distinct created URLs are assumed only where a lemma says so (`NewHandlesSurviveCleanup`).
- Controller.App.SetImages: revokes on every reassignment. React skips the cleanup when the new array is the very same object. That differs only when `RestoreSession` is called twice in a row on the object with the same item, which the interface does not offer: a restore is offered in IDLE only, and from REVIEW or DONE the way back to IDLE is the reset, which assigns a fresh empty list. The cleanup on unmount is not modelled.
- Controller.App.RestoreSession: uses `item.images` without the `|| []` fallback, because the type declares `images` as required.
- React batching, effect timing and interleaving are not modelled. Each handler phase is one atomic step.
- `Enabled` holds the assumptions about which actions the interface offers, and it requires an answer to settle the request that its own call issued while that call's phase is still current. The components that offer them are not part of this model. In particular, "view existing" is assumed to appear only when ads exist, as `hasExistingAds` suggests.
- `score` and `timestamp` are unbounded integers. JavaScript's floating-point numbers are not modelled.
- Stale answers are not discarded, because the code has no such check. `LateGenerationFailureAfterReset` shows one consequence.
