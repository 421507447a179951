# Farmer capture workflow of the herbchain dashboard

This project models the farmer capture workflow of the herbchain front end
(`src/components/FarmerDashboard.tsx`). A farmer fills in a harvest batch
(herb type, quantity, notes), attaches a photo, and submits it together with
a geolocation fix. The component keeps a history list fetched from the
server and shows the QR image returned on creation. Voice commands in
English or Hindi focus the form, scroll to the history, or look up the QR
of the latest batch.

The model has six modules:

- `Domain`: `Option`, the `Batch` record, and JavaScript truthiness and `||` on strings.
- `Text`: `String.prototype.includes` as a left-to-right scan (`Includes`), proved equal to a declarative substring relation (`Occurs`). It also has `toLowerCase` (`Lower`) and the proof that matching lowered text is case-insensitive matching on the original.
- `Voice`: the priority-ordered keyword classifier (`Classify`), the dispatch of an intent against the batch list (`Dispatch`), and the `onresult` handler (`HandleTranscript`).
- `Capture`: the GPS capture with its null fallback, and the outcomes of a photo selection.
- `Dashboard`: the class `FarmerDashboard`. It holds the component's state (`form`, `photoDataUrl`, `batches`, `qrImage`, `listening`) and the handlers that update it in place. `Valid()` states the invariant the handlers keep. `listening` is shown only while a recognition session runs, but a session can outlive it: `stop()` only asks the recognizer to stop, and the session ends when the recognizer reports its end. There is no session without a recognizer, and a stored QR image is a non-empty string.
- `Scenarios`: short sessions that use only the handlers' contracts.

The outcomes of I/O are parameters:

- the geolocation result (`Geolocation`);
- the `FileReader` result (`PhotoSelection`);
- the add-batch post (`PostResponse`);
- the history and per-batch GETs (`BatchesResponse`);
- whether the browser offers a speech recognizer (the constructor argument).

Alerts are returned as notices. `Number(form.quantityKg)` is the parameter `toNumber`. The history fetch issued on mount and after a successful submission is counted in `historyRequests`. The fetch's response is applied separately with `FetchHistory`.

Three consequences of the code are worth stating plainly:

- `submitBatch` posts `Number(form.quantityKg)` with no validation (FarmerDashboard.tsx:115), and so does `SubmitBatch`.
- A successful post without a truthy `qrDataUrl` keeps the earlier QR (:123). `Scenarios.SubmitWithoutLocation` shows this.
- The position request sets no `timeout` (:105), so a request the browser never answers leaves the submission waiting: nothing is posted and no notice appears. `Scenarios.SubmitWhileLocationPending` shows this.

## Model

| member | source | states |
|---|---|---|
| `Text.Includes` | src/components/FarmerDashboard.tsx:77-83 | the left-to-right `includes` scan is true exactly when the needle occurs at some index of the text |
| `Text.Lower` | src/components/FarmerDashboard.tsx:57 | lower-casing keeps the length and maps each character through `LowerChar` (A-Z to a-z, everything else unchanged) |
| `Text.LowerIdempotent` | src/components/FarmerDashboard.tsx:57 | lower-casing twice is the same as lower-casing once |
| `Text.LowerOccurs` | src/components/FarmerDashboard.tsx:57-58 | a keyword occurs in the lowered transcript exactly when some slice of the original transcript lowers to it (case-insensitive match) |
| `Voice.Classify` | src/components/FarmerDashboard.tsx:76-88 | exactly one intent per transcript: add-batch if either add-batch keyword occurs; history if a history keyword occurs and no add-batch keyword does; QR if only a QR keyword occurs; otherwise unrecognized |
| `Voice.Dispatch` | src/components/FarmerDashboard.tsx:76-88 | the QR intent acts only on a non-empty batch list and then targets `batches[0].batchId`; an unrecognized transcript or the QR intent on an empty list is no action |
| `Voice.KeywordIsLowerCase` | src/components/FarmerDashboard.tsx:77-83 | each of the six keywords is its own lower case, so lowering the transcript cannot hide one |
| `Voice.HandleTranscript` | src/components/FarmerDashboard.tsx:56-88 | for the whole `onresult` handler: each action fires exactly when its keyword occurs in any letter case and no higher-priority keyword does; QR targets the first batch and fires only on a non-empty list |
| `Voice.HandleTranscriptOfLowered` | src/components/FarmerDashboard.tsx:57 | the handler gives the same action on a transcript and on its lower-cased form |
| `Voice.AddBatchWins` | src/components/FarmerDashboard.tsx:77-78 | a transcript holding "add batch" or "नई बैच" focuses the herb input whatever other keywords it holds |
| `Voice.AddBatchNowScenario` | src/components/FarmerDashboard.tsx:77-78 | "Add Batch now" focuses the herb input |
| `Voice.HindiAddBatchScenario` | src/components/FarmerDashboard.tsx:77-78 | "नई बैच" focuses the herb input |
| `Voice.GenerateQrScenario` | src/components/FarmerDashboard.tsx:83-84 | "generate QR" is no action on an empty list and targets the first batch otherwise |
| `Domain.OrElse` | src/components/FarmerDashboard.tsx:129 | JavaScript's `v or fallback` on a possibly absent string yields `v` when it is a non-empty string, else the fallback |
| `Capture.CaptureGps` | src/components/FarmerDashboard.tsx:98-107 | stays pending exactly when the browser never calls back and resolves otherwise; latitude and longitude are both present or both null; they are present exactly when the device reported a position, and then equal it |
| `Dashboard.QrLookupNotice` | src/components/FarmerDashboard.tsx:142-157 | the QR lookup only yields a notice: "found" exactly for a non-empty list, the failure notice exactly on error, none otherwise |
| `Dashboard.FarmerDashboard.constructor` | src/components/FarmerDashboard.tsx:41-62 | initial state: empty form and photo, no batches, no QR, not listening, one history fetch issued, recognizer present as the browser offers |
| `Dashboard.FarmerDashboard.VoiceStart` | src/components/FarmerDashboard.tsx:64-68 | without a recognizer: the "Voice not supported" notice and `listening` stays false; with one: `listening` becomes true |
| `Dashboard.FarmerDashboard.VoiceStop` | src/components/FarmerDashboard.tsx:70-74 | without a recognizer nothing changes; with one `listening` becomes false at once, while the session runs on until the recognizer reports its end |
| `Dashboard.FarmerDashboard.SessionEnded` | src/components/FarmerDashboard.tsx:60 | the recognizer's end event ends the session and resets `listening` to false |
| `Dashboard.FarmerDashboard.UpdateField` | src/components/FarmerDashboard.tsx:207-258 | a form edit sets one field and keeps the other two |
| `Dashboard.FarmerDashboard.IngestPhoto` | src/components/FarmerDashboard.tsx:90-96 | no file (or a read that never loads) leaves the photo unchanged; a load sets it to the result, or "" for a null result |
| `Dashboard.FarmerDashboard.SubmitBatch` | src/components/FarmerDashboard.tsx:109-131 | while the position request is unanswered: no payload, no notice, nothing changes. Otherwise the payload is the form, the photo and exactly the captured GPS value. Success: "Batch created", form and photo cleared, QR replaced only by a truthy `qrDataUrl`, exactly one more history fetch. Failure: state unchanged, notice is the server message or "Create batch failed" |
| `Dashboard.FarmerDashboard.RefreshHistory` | src/components/FarmerDashboard.tsx:182-187 | the "Refresh History" button issues exactly one more history fetch |
| `Dashboard.FarmerDashboard.FetchHistory` | src/components/FarmerDashboard.tsx:133-140 | success replaces `batches` entirely with the response list, or [] when absent; failure keeps `batches` |
| `Scenarios.SubmitAshwagandha` | src/components/FarmerDashboard.tsx:109-131 | a successful post clears the form and shows the returned QR with the reported position sent; a post rejected with "duplicate batch" keeps the form and shows that message |
| `Scenarios.SubmitWithoutLocation` | src/components/FarmerDashboard.tsx:98-131 | with location denied the payload carries null coordinates; a success without a QR keeps the earlier QR; each success adds one history fetch |
| `Scenarios.SubmitWhileLocationPending` | src/components/FarmerDashboard.tsx:98-112 | an unanswered position request posts nothing, raises no notice, keeps the typed form and issues no fetch |
| `Scenarios.RefreshTwice` | src/components/FarmerDashboard.tsx:182-187 | two refresh clicks after mount make three history fetches |
| `Scenarios.HistoryWithoutList` | src/components/FarmerDashboard.tsx:133-140 | a response without `batches` empties the list and a failed fetch keeps it |
| `Scenarios.VoiceSession` | src/components/FarmerDashboard.tsx:60-74 | start then end leaves `listening` true and then false; start then stop leaves it false; without a recognizer start only raises the notice |

## Left out

- Text.Lower: covers `toLowerCase` on ASCII letters only. Unicode case mapping of other scripts, including mappings that change the length, is not modelled. The six keywords contain no upper-case letters in any script.
- Rendering and DOM effects are not modelled: the JSX, `focus()`, `scrollIntoView`, `alert` and `console.error`. Intents and notices are returned as values.
- The browser APIs are not modelled: `SpeechRecognition` (and its `lang`), `FileReader`, `navigator.geolocation` with its accuracy and cache options, and the mock HTTP client. Their outcomes are parameters. A data URL is an opaque string.
- Dashboard.FarmerDashboard.SubmitBatch: `Number(form.quantityKg)` is the parameter `toNumber`, not JavaScript's float parsing. The browser's `required` and `type="number"` form checks are not modelled either, so no validation step is modelled.
- Concurrency is not modelled. Overlapping submissions race, the last response wins, and `fetchHistory()` is not awaited. A submission applies its outcome at once, and a history response is applied by a separate `FetchHistory` call.
- Voice.HandleTranscript takes the batch list as an argument. In the component the handler is bound once at mount, so it sees the initial empty list. The model claims nothing about which list the live component passes.
- The recognizer's own errors are not modelled, for example `start()` on a session that already runs. `sessionLive` models only the start and end transitions.
- A result that arrives between `stop()` and the recognizer's end is still dispatched by `onresult` while `listening` is false. `HandleTranscript` takes no listening state, so it covers that case too, but no method ties results to the session.
- A successful post whose response has a null `data` is not modelled. The code alerts "Batch created" (:121), then throws at `res.data.qrDataUrl` (:123) and alerts "Create batch failed" with nothing cleared and no fetch issued. `PostResponse` cannot express this response.
- The "Capture GPS" button (:272-281) only alerts the captured coordinates. Its capture is `CaptureGps`; the alert text is not modelled.
- `LandingPage.tsx` is not modelled. It is presentational markup without control flow.
