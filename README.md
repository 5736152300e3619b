# Try-on mirror: session controller and service shaping in Dafny

This project models the core of a browser "magic mirror" for trying on hairstyles.

The **session controller** is the `App` component. It is a five-phase state machine: IDLE, ANALYZING, SHOPPING, GENERATING_TRYON and RESULT. It holds the user's snapshot, the face analysis, the selected style, the generated image, a transient error message, the uploaded styles and the catalog rows from the database. Its handlers take a photo through analysis, style selection and image generation, and recover from failures. The model covers:

- the built-in catalog fallback of the mount-time catalog fetch;
- the letterbox arithmetic used to standardise uploaded photos.

The **image service helpers** shape requests to and responses from the remote generative model:

- strip the data-URL prefix;
- check the API key;
- build the analysis request and the 2-part or 3-part try-on prompt;
- extract the first inline image from a response and re-prefix it.

Modules:

- `Wrappers`: `Option`, and `Outcome` (`Success(v) | Failure`). `Outcome` is how the controller sees an awaited remote call: a value, or an exception caught by its `try`/`catch`.
- `Types`: the `AppState` phases, `FaceAnalysis`, `HairstyleItem` and the six-item `HairstyleCatalog`. It also has JavaScript truthiness for optional strings, where `undefined` and `""` are falsy.
- `GeminiService`: the service helpers.
  - A service call's result is an `Attempt` (`Done(v) | Threw(e)`). A call also records the `Request` it sent, or `None` when it sent none.
  - The network reply is a parameter.
  - What `JSON.parse` makes of the analysis text is part of that reply.
- `Letterbox`: the scale and offsets of `standardizeImage`, over `real`.
- `Session`: the component's state as a value, with one function per handler.
  - `Event`s, the `Enabled` relation and `Run` describe a whole session. `Enabled` is the set of controls the UI renders in each phase.
  - Invariants are proved over every run the UI allows.
- `AppController`: class `App`, with the nine state fields and one method per handler. Each method does the handler's assignments in source order. Its `ensures` ties the new state to the matching `Session` function.

`handleError` reads the `appState` captured by the closure that calls it. It is modelled as taking that observed phase as a parameter. `processUserImage` and `handleTryOn` pass it the phase they were started in.

Four behaviours of the code that the model keeps, though a reader might expect otherwise:

- A failed analysis keeps `userSnapshot`; nothing on that path clears it.
- The "Gallery" button keeps `generatedImage`.
- The error message is cleared only by its timer, not by the next successful transition.
- A failed try-on returns to IDLE, not SHOPPING (see Findings).

## Model

| member | source | states |
|---|---|---|
| `Letterbox.FitIsContained` | App.tsx:92-96 | The scale is the smaller of the two ratios. The drawn image fits inside 1080 x 1920 and fills one of the two axes. It keeps the source aspect ratio: the drawn width and height are the image's own times the scale. It has non-negative offsets and is centred on both axes. |
| `GeminiService.StripDataUrlPrefix` | services/geminiService.ts:21 | The result is a suffix of the input. It equals the input exactly when no png/jpeg/webp data-URL prefix is present; otherwise exactly one accepted prefix is removed. |
| `GeminiService.StripAfterPrefix` | services/geminiService.ts:78 | For each of the three accepted prefixes, stripping `prefix + payload` gives back `payload`. |
| `GeminiService.GetAiClient` | services/geminiService.ts:8-14 | The client is built exactly when the key is present and non-empty. Otherwise the call throws "API Key is missing.". |
| `GeminiService.StylePrompt` | services/geminiService.ts:108-111 | The text prompt starts with the fixed head and carries the description verbatim right after it. |
| `GeminiService.StylePromptInjective` | services/geminiService.ts:108 | Distinct descriptions give distinct text prompts, so the description can be read back from the prompt. |
| `GeminiService.TryOnParts` | services/geminiService.ts:81-113 | The first part is always the cleaned person image. A non-empty reference gives three parts: person, cleaned reference, fixed instruction. An absent or empty reference gives two parts: person, then the description prompt. |
| `GeminiService.ReferenceIgnoresDescription` | services/geminiService.ts:91-104 | With a non-empty reference image, the parts do not depend on the description. |
| `GeminiService.TextPromptDistinguishesDescriptions` | services/geminiService.ts:105-112 | Without a reference image, equal parts imply equal descriptions. |
| `GeminiService.BuildTryOnParts` | services/geminiService.ts:81-113 | The `push` sequence builds exactly `TryOnParts`. |
| `GeminiService.AnalyzeFaceImage` | services/geminiService.ts:19-66 | A missing or empty key throws before any request is sent. Otherwise one request goes out, with the cleaned image and the fixed prompt. The result is the parse exactly when the reply has non-empty text that parses; a reply of `null` yields no analysis. Missing or empty text fails with "No response from AI". |
| `GeminiService.ExtractImage` | services/geminiService.ts:123-132 | Settles as `ExtractionSettles` says. A missing candidate 0 or a missing content is a TypeError. Missing parts, or no part with non-empty inline data, fail with "No image generated.". Otherwise the result is `data:image/png;base64,` plus the data of the first such part; later parts are ignored. |
| `GeminiService.ExtractionIsDetermined` | services/geminiService.ts:123-132 | Each response settles in exactly one way, so `ExtractionSettles` pins down the extraction's outcome. |
| `GeminiService.GenerateTryOnImage` | services/geminiService.ts:72-138 | A missing key throws before any request is sent. Otherwise the request carries `TryOnParts`. A rejected call fails. An answered call settles exactly as the extraction settles for the reply (`ExtractionSettles`): the same TypeError, the same "No image generated." and the same image. A successful result needs a key and an answer. |
| `GeminiService.GeneratedImageStripsToPayload` | services/geminiService.ts:127 | Stripping a generated image's data URL recovers the raw payload. |
| `Session.CatalogChoice` | App.tsx:32-58 | The fetched rows are kept only with a configured client, no error, and at least one row. A missing client, an error, an empty or missing result, or an exception all give exactly the built-in catalog. |
| `Session.FetchCatalog` | App.tsx:28-61 | Stores the chosen list, ends with the loading flag false, and changes nothing else. |
| `Session.HandleError` | App.tsx:106-117 | Sets the fixed error message. Moves to SHOPPING when the observed phase is GENERATING_TRYON and to IDLE otherwise. All other fields are unchanged. |
| `Session.ProcessUserImage` | App.tsx:144-154 | Always stores the snapshot. On success it stores the analysis (none for a `null` reply) and moves to SHOPPING. On failure it recovers by the phase it was started in, keeping the snapshot and the earlier analysis. Selection, result, uploads and catalog are unchanged. |
| `Session.UploadedItem` | App.tsx:161-168 | The new item is custom, in category "Uploaded", and its image is the uploaded data URL. |
| `Session.HandleStyleUpload` | App.tsx:156-174 | With no file, nothing changes. With a file, the new item is prepended and selected, earlier uploads follow it in order, and nothing else changes. |
| `Session.UploadPrependsToCatalog` | App.tsx:218 | After an upload, the full catalog is the new item followed by the previous full catalog. |
| `Session.SelectHairstyle` | App.tsx:347 | A card click selects that item and changes nothing else. |
| `Session.TryOnRequest` | App.tsx:177-188 | A call is made exactly when a style is selected and the snapshot is non-empty. It sends the snapshot and always the description. It sends the item's image exactly when `isCustom` is true. |
| `Session.HandleTryOn` | App.tsx:176-195 | When the guard fails, no field changes. On success it stores the image and moves to RESULT. On failure it sets the error message and recovers by the observed phase. Snapshot, selection, analysis, uploads and catalog are unchanged. |
| `Session.ShowGallery` | App.tsx:409 | Moves to SHOPPING; the result and everything else are kept. |
| `Session.ResetProcess` | App.tsx:208-215 | The result is the initial state except for the error message, the database rows and the loading flag, which are kept. |
| `Session.ClearError` | App.tsx:116 | Clears the error message only. |
| `Session.ResetIdempotent` | App.tsx:208-215 | A second reset changes nothing. |
| `Session.Enabled` | App.tsx:325-423 | The controls the UI offers, phase by phase: each listed event is offered exactly in the condition given, and no phase offers any other. IDLE: "Upload Photo" and "Scan Face" (App.tsx:365-381), both a `Capture`; with a snapshot held the camera is unmounted (App.tsx:229-233), so "Scan Face" does nothing (App.tsx:120-126) and only "Upload Photo" captures. SHOPPING: the upload card (App.tsx:328-334), the catalog cards once loading is done (App.tsx:344-347), and "Style Hair" only with a selection (App.tsx:385-388). RESULT: "Gallery" and "Close" (App.tsx:398-423). ANALYZING and GENERATING_TRYON offer no control. The error timer and the catalog fetch can fire in every phase. |
| `Session.InitialIsConsistent` | App.tsx:11-19 | The initial state satisfies both session invariants. |
| `Session.StepKeepsConsistent` | App.tsx:106-218 | Every action the UI enables keeps the invariant, whichever phase a failed try-on observes. The invariant: not ANALYZING or GENERATING_TRYON and the catalog is not loading, which holds because each event is one atomic step; an analysis implies some snapshot; a result implies a snapshot and a selection; RESULT holds a result; every phase but IDLE holds a snapshot. |
| `Session.RunKeepsConsistent` | App.tsx:106-218 | Every session the UI allows keeps that invariant. |
| `Session.LiveStepKeepsIdleClean` | App.tsx:110-114 | With the intended recovery, every enabled step keeps IDLE free of selection, result, analysis and uploads. |
| `Session.LivePhaseRunsStayClean` | App.tsx:106-117 | With the intended recovery, every allowed session keeps both invariants. |
| `Session.TryOnFailureRecovery` | App.tsx:110-114 | As written, a try-on from SHOPPING that fails lands in IDLE with the selection kept. With the intended recovery it returns to SHOPPING. |
| `Session.CapturedPhaseLeavesStaleIdle` | App.tsx:176-195 | A concrete allowed session (capture, upload a style, failed try-on) ends in IDLE still holding a selection. |
| `Session.CapturedPhaseKeepsStaleAnalysis` | App.tsx:144-153 | A concrete allowed session (capture, upload, failed try-on, then a second capture whose analysis fails) ends in IDLE showing the second snapshot with the first capture's analysis. |
| `Session.ScenarioCaptureSelectGenerateReset` | App.tsx:144-215 | Capture with an "Oval" analysis reaches SHOPPING. A try-on with nothing selected changes nothing. Select then generate reaches RESULT with the image. Reset returns to the initial state. |
| `AppController.App.FullCatalog` | App.tsx:218 | The rendered catalog has the uploads as its prefix and the database rows as the rest. |
| `AppController.App.constructor` | App.tsx:11-19 | The fields start at the `useState` initial values. |
| `AppController.App.FetchCatalog` | App.tsx:28-61 | The new state is `Session.FetchCatalog` of the old one. |
| `AppController.App.HandleError` | App.tsx:106-117 | The new state is `Session.HandleError` of the old one with the observed phase. |
| `AppController.App.ProcessUserImage` | App.tsx:144-154 | The new state is `Session.ProcessUserImage` of the old one. |
| `AppController.App.HandleStyleUpload` | App.tsx:156-174 | The new state is `Session.HandleStyleUpload` of the old one. |
| `AppController.App.SelectHairstyle` | App.tsx:347 | The new state is `Session.SelectHairstyle` of the old one. |
| `AppController.App.HandleTryOn` | App.tsx:176-195 | Returns the call `Session.TryOnRequest` describes. The new state is `Session.HandleTryOn` with the captured phase, as written. |
| `AppController.App.ShowGallery` | App.tsx:409 | The new state is `Session.ShowGallery` of the old one. |
| `AppController.App.ResetProcess` | App.tsx:208-215 | The new state is `Session.ResetProcess` of the old one. |
| `AppController.App.ClearError` | App.tsx:116 | The new state is `Session.ClearError` of the old one. |
| `AppController.UploadedStyleIsSentAsReference` | App.tsx:182-188 | An uploaded style with a non-empty image is sent as three parts, with the upload's cleaned image second. |
| `AppController.CatalogStyleIsSentAsText` | App.tsx:182-188 | A built-in style is sent as two parts, the second being the prompt carrying its description. |

## Findings

| source | as written | input that shows it | evidently intended | confidence | as-written member | corrected member |
|---|---|---|---|---|---|---|
| App.tsx:110 | `handleTryOn` is only rendered in SHOPPING. The `handleError` it calls tests the `appState` of that render, so the GENERATING_TRYON branch never fires. A failed try-on goes to IDLE and keeps the snapshot, analysis, selection and uploads. | Capture with a successful analysis, upload a style, then a try-on whose call fails | Return to SHOPPING with the snapshot and selection kept; this is the branch `handleError` tests for | high, not executed | `Session.CapturedPhaseLeavesStaleIdle` | `Session.LivePhaseRunsStayClean` |
| App.tsx:110, App.tsx:144-153 | The same stale test, reached next from IDLE: a new capture whose analysis fails keeps the earlier analysis, which `processUserImage` never clears. IDLE then shows the new snapshot beside the previous face's analysis. | Capture with a successful analysis, upload a style, a try-on whose call fails, then a capture whose analysis fails | The try-on failure returns to SHOPPING, so IDLE never holds an analysis | high, not executed | `Session.CapturedPhaseKeepsStaleAnalysis` | `Session.LivePhaseRunsStayClean` |

`Session.HandleTryOn` takes the recovery as a parameter: `CapturedPhase` is the code as written, and `LivePhase` passes GENERATING_TRYON as intended. The class method `AppController.App.HandleTryOn` performs the code as written.

## Left out

- `components/CameraFeed.tsx` and `handleScanFace`: device access, frame capture and the 600 ms pose delay are browser I/O. The handler only forwards a captured frame to `processUserImage`.
- `handleFileUpload`: it reads the file and forwards the standardised image to `processUserImage`, which is modelled.
- `standardizeImage` canvas work: drawing, JPEG encoding and the fallback to the input when no 2D context exists are browser I/O. Only the scale and offsets are modelled.
- `Letterbox.FitIsContained`: it requires a positive image width and height, as any decoded image has. It works over exact reals, so floating-point rounding is not modelled.
- `handleDownload` and all JSX rendering: these are DOM output.
- The `generateContent` calls, the client library and `JSON.parse`: these are foreign calls. Their effect enters as a reply parameter. The response schema in the analysis request is not modelled, and neither the code nor the model validates the parsed fields.
- The database client (services/supabaseClient.ts is not part of this model): whether it exists is the `configured` flag, and the query outcome is a parameter. Fetched rows are taken as well-formed items, as the code's cast assumes.
- Timers and clocks: the 5 s error clear is the explicit `ClearError` event, and `Date.now()` in upload ids is the `stamp` parameter.
- Asynchronous interleaving: each handler runs to completion in one step, so ANALYZING and GENERATING_TRYON are passed through within a handler. Completions that arrive after a reset are not modelled.
- `Session.Consistent`: its "no call in flight" part comes from that atomic-step abstraction, not from the code. The code can start two analyses: click "Scan Face", then click "Upload Photo" within the 600 ms delay of `handleScanFace` (App.tsx:119-128), and pick the file only after the timer has started the first analysis. A file that arrives before the timer fires sets the snapshot first, which unmounts the camera (App.tsx:229-233), so the timer returns without capturing (App.tsx:125-126). The phase is still IDLE, so both buttons are rendered (App.tsx:365-380). The hidden file input is always mounted (App.tsx:224). Neither `handleFileUpload` nor `processUserImage` checks the phase, so the second analysis starts while the first is in flight.
- `GeminiService.AnalyzeFaceImage`: of the values `JSON.parse` can return, only a thrown error, `null` and a record are modelled. Numbers, strings and arrays are not, and a parse that is not `null` is taken to be a well-formed record.
- Console logging, including the distinction between a missing table and other database errors, which only chooses the log line.
