# Gemini-API-Test scan screen, modelled in Dafny

The app lets a user take or pick a photo, sends it with a fixed prompt to a
hosted generative model, and shows the text that comes back. This project
models the sequential logic inside that Android glue:

- **`UiState`** (`uistate.dfy`, module `UiStates`): the sealed hierarchy
  `Initial | Captured(uri) | Loading | Success(text) | Error(message)`.
- **`MainViewModel`** (`viewmodel.dfy`, module `ScanViewModel`): the state
  holder and its two operations. `onImageTaken` publishes `Captured`, then
  `Loading`, then one resting state. `onRetakeScan` publishes `Initial`. The
  compression, decoding and model calls are external, so one scan's external
  work is an `Outcome`. Either the response carries optional text, or one call
  threw an exception whose message may be null. Each operation is a pure
  function from its outcome to the list of states it publishes. A sequence of
  operations gives a trace (`Trace`, `Run`, `RunSession`).
- **`Extension.kt`** (`extension.dfy`, module `Extension`): `View.gone()` and
  `View.show()` on the three-valued visibility `Visible | Invisible | Gone`.
- **`MainActivity.updateUI`** (`screen.dfy`, module `Screen`): a function from
  a state and a record of widget visibilities, enabled flag, preview and
  result text to the updated record.
- **`MainActivity` decisions** (`permissions.dfy`, module `Permissions`, and
  `activity_result.dfy`, module `ActivityResults`): the required-permission
  list by API level, the fold over a permission request's result, the EXIF
  orientation → rotation mapping, and `onActivityResult` routing.
- `options.dfy` (Kotlin nullability as `Option`) and `media.dfy` (URIs and
  opaque bitmaps) are shared helpers.

In several places the code departs from the intended design of the scan screen. The model
follows the code:

- A response whose text is the empty string ends in `Success("")`, not
  `Error` (`ScanViewModel.TerminalStateLaws`).
- `onImageTaken` does not look at the current state before it publishes
  `Captured`; nothing in the view model refuses a second scan
  (`ScanViewModel.Step`). The model runs each scan to completion before the
  next operation, so overlapping scans are outside it (see "## Left out").
- After `Success` or `Error`, `updateUI` hides the scan button and no later
  `Success`, `Error` or `Loading` render shows it again. Only an `Initial`
  render shows it, and then disabled (`Screen.UpdateUI`,
  `Screen.ScanRenderedFromInitial`).
- No byte-size bound is enforced by this code. The compression limits are
  arguments handed to a library, so nothing about sizes is stated.

Rendering `Loading` in `updateUI` leaves the image (acquisition) button as
it was (`Screen.ScanRenderedFromInitial`). In the app's flow it is already
hidden by then. The image handlers call `imageButton.gone()` right after
starting a scan (`MainActivity.kt` lines 226 and 244). Those handlers are
not part of this model.

## Model

| member | source | states |
|---|---|---|
| UiStates.Make | app/src/main/java/com/swancodes/geminiapitest/UiState.kt:8-33 | a state is built from a variant and a payload exactly when that variant's constructor takes a payload of that shape (none for `Initial`/`Loading`, a URI for `Captured`, a string for `Success`/`Error`), and the built state has that variant and payload |
| UiStates.ClosedHierarchy | app/src/main/java/com/swancodes/geminiapitest/UiState.kt:8-33 | every state is one of the five variants with a payload its constructor accepts, and is rebuilt exactly from its variant and payload |
| UiStates.EqualityIsStructural | app/src/main/java/com/swancodes/geminiapitest/UiState.kt:18-32 | two states are equal iff they are the same variant with equal payloads (data-class structural equality on the URI, output text and error message) |
| UiStates.PayloadFreeVariants | app/src/main/java/com/swancodes/geminiapitest/UiState.kt:13-23 | `Initial` and `Loading` are exactly the payload-free variants, so each has a single value |
| Extension.ApplyGone | app/src/main/java/com/swancodes/geminiapitest/Extension.kt:5-9 | after `gone` a view is never VISIBLE; VISIBLE becomes GONE; INVISIBLE and GONE are left unchanged |
| Extension.ApplyShow | app/src/main/java/com/swancodes/geminiapitest/Extension.kt:11-13 | `show` yields VISIBLE from any value |
| Extension.GoneShowLaws | app/src/main/java/com/swancodes/geminiapitest/Extension.kt:5-13 | `gone` leaves a value unchanged exactly when it is not VISIBLE; `gone` and `show` are idempotent; `show` after `gone` is VISIBLE; `gone` after `show` is GONE |
| ScanViewModel.TerminalState | app/src/main/java/com/swancodes/geminiapitest/MainViewModel.kt:64-70 | a run always ends in `Success` or `Error`; `Success` iff the response text is non-null, with exactly that text; null text gives `Error("Failed to generate content")`; an exception gives `Error` with its message, or `Error("Unknown error")` when the message is null |
| ScanViewModel.TerminalStateLaws | app/src/main/java/com/swancodes/geminiapitest/MainViewModel.kt:44-70 | which of compress, decode or generate threw does not affect the result; an empty response text is accepted as `Success("")`; an exception whose message is "Failed to generate content" ends in the same state as a response without text |
| ScanViewModel.OnImageTaken | app/src/main/java/com/swancodes/geminiapitest/MainViewModel.kt:35-73 | exactly three states are published: `Captured` with the path's URI, then `Loading`, then the resting state the outcome determines |
| ScanViewModel.Publish | app/src/main/java/com/swancodes/geminiapitest/MainViewModel.kt:35-77 | every operation publishes at least one state; `onRetakeScan` publishes just `Initial`; `onImageTaken` publishes its three states |
| ScanViewModel.Step | app/src/main/java/com/swancodes/geminiapitest/MainViewModel.kt:35-77 | the holder's new value is the last state the operation published: `Initial` after a retake, the outcome's resting state after a scan, whatever the previous state |
| ScanViewModel.TraceBracketsLoading | app/src/main/java/com/swancodes/geminiapitest/MainViewModel.kt:39-71 | in any run of operations, each run to completion, every published `Loading` comes right after a `Captured` and right before a `Success` or `Error` |
| ScanViewModel.TraceEndsInCurrentState | app/src/main/java/com/swancodes/geminiapitest/MainViewModel.kt:27-77 | starting from the initial holder, the last state published is the holder's current value |
| ScanViewModel.TraceLength | app/src/main/java/com/swancodes/geminiapitest/MainViewModel.kt:35-77 | a run publishes exactly one state per operation plus two per scan, hence between n and 3n states for n operations |
| ScanViewModel.RetakeRestoresInitial | app/src/main/java/com/swancodes/geminiapitest/MainViewModel.kt:27-77 | `onRetakeScan` sets `Initial` from any state and is idempotent; a completed scan followed by a retake restores exactly the holder's initial value |
| ScanViewModel.RunSession | app/src/main/java/com/swancodes/geminiapitest/MainViewModel.kt:27-77 | driving the holder with operations one at a time yields exactly the trace of published states and the final value that the functional model (`Trace`, `Run`) defines |
| Screen.UpdateUI | app/src/main/java/com/swancodes/geminiapitest/MainActivity.kt:69-107 | per state, which widgets become visible, which are hidden by `gone` (VISIBLE becomes GONE, INVISIBLE and GONE are kept), the result text, and that image button, enabled flag and preview are untouched for `Loading`, `Success` and `Error`; `Initial` also disables scan and clears the preview |
| Screen.VisibleAfterUpdate | app/src/main/java/com/swancodes/geminiapitest/MainActivity.kt:69-107 | the visible widgets after rendering are exactly {scan, image} for `Initial`, {progress} for `Loading`, {retake, done} for `Success`/`Error`, plus, for `Loading`, `Success` and `Error`, the image button when it was already visible |
| Screen.UpdateUIIdempotent | app/src/main/java/com/swancodes/geminiapitest/MainActivity.kt:69-107 | rendering the same state twice gives the same widgets as rendering it once |
| Screen.ScanRenderedFromInitial | app/src/main/java/com/swancodes/geminiapitest/MainActivity.kt:71-103 | rendering `Initial`, `Loading` and then a resting state keeps the image button visible and the scan button hidden while loading, and ends with exactly retake, done and image visible and scan disabled |
| Permissions.RequiredPermissions | app/src/main/java/com/swancodes/geminiapitest/MainActivity.kt:255-262 | CAMERA comes first and is always required; READ_EXTERNAL_STORAGE is required iff the API level is at most 28 (Android 9); nothing else is required, and there are no duplicates |
| Permissions.FoldGranted | app/src/main/java/com/swancodes/geminiapitest/MainActivity.kt:115-119 | folding the result's entries keeps the flag set iff it was set and no entry for a required permission is false |
| Permissions.PermissionGranted | app/src/main/java/com/swancodes/geminiapitest/MainActivity.kt:115-119 | the callback's loop reports granted iff no entry whose key is required has value false; required permissions absent from the result count as granted |
| Permissions.OnPermissionsResult | app/src/main/java/com/swancodes/geminiapitest/MainActivity.kt:113-126 | the callback opens the camera iff no required permission was refused, and otherwise shows the denial |
| Permissions.PermissionResultLaws | app/src/main/java/com/swancodes/geminiapitest/MainActivity.kt:115-126 | the decision ignores entry order; an empty result opens the camera; refusing storage on API levels above 28 is ignored; refusing CAMERA always shows the denial |
| ActivityResults.RotationDegrees | app/src/main/java/com/swancodes/geminiapitest/MainActivity.kt:215-220 | the rotation is always 0, 90, 180 or 270, and it is 90, 180 or 270 exactly for the tags ROTATE_90, ROTATE_180 and ROTATE_270 respectively |
| ActivityResults.RotationOfStoredTag | app/src/main/java/com/swancodes/geminiapitest/MainActivity.kt:211-220 | a missing tag reads as NORMAL and gives 0; the rotation is 0 iff the tag is none of the three rotations |
| ActivityResults.RouteAsWritten | app/src/main/java/com/swancodes/geminiapitest/MainActivity.kt:194-204 | as written: request 100 with RESULT_OK and a data URI goes to gallery handling with that URI; request 200 with RESULT_OK throws exactly when the intent holds no bitmap under "data" |
| ActivityResults.CameraResultWithoutBitmapThrows | app/src/main/java/com/swancodes/geminiapitest/MainActivity.kt:200-202 | a camera result with RESULT_OK and a null intent, or an intent without the "data" extra, makes the as-written routing throw |
| ActivityResults.RouteResult | app/src/main/java/com/swancodes/geminiapitest/MainActivity.kt:196-203 | never throws; gallery handling iff request 100, RESULT_OK and a URI; camera handling iff request 200, RESULT_OK and a bitmap extra, with that bitmap; any other result code does nothing |
| ActivityResults.RoutingAgreesUnlessCastFails | app/src/main/java/com/swancodes/geminiapitest/MainActivity.kt:196-203 | the corrected routing gives the same handler as the as-written one wherever that does not throw, and does nothing where it throws |

## Left out

- Compressor, ImageDecoder and GenerativeModel calls (`MainViewModel.kt`
  lines 30-33 and 46-63) are external. Their combined effect is the
  `ScanViewModel.Outcome` parameter. The 1280×720, quality 30, PNG and 2 MiB
  arguments are not enforced by this code, so no byte bound is stated.
- The prompt argument of `onImageTaken` only reaches the model call, so it
  is folded into the outcome.
- `path.toUri()` is modelled as a URI that keeps the path string. URI
  parsing is not modelled.
- Concurrency is not modelled: the `Dispatchers.IO` coroutine and the
  `StateFlow` collection. `Captured` is assigned on the caller's thread and
  the rest inside a launched coroutine (`MainViewModel.kt` lines 39-70).
  The model assumes each scan runs to completion before the next operation.
  So two quick scans interleaving (`Captured, Captured, Loading, Loading`)
  is not modelled. Neither is a retake during a scan being overwritten by
  the scan's late resting state.
- Only `Exception` is caught (`MainViewModel.kt` line 69). An `Error`
  thrown by compress, decode or generate, such as `OutOfMemoryError`,
  escapes the coroutine and assigns no resting state. `ScanViewModel.Outcome`
  covers only exceptions.
- "Published" in `ScanViewModel.Publish` and `ScanViewModel.Trace` means
  "assigned to the state holder". `MutableStateFlow` does not emit a value
  equal to its current one, so a retake from `Initial` emits nothing to
  collectors. Collectors that miss conflated intermediate values are not
  modelled either.
- `updateUI` has no branch for `Captured`, so `Screen.UpdateUI` excludes
  that state by precondition. What the collector does on receiving it is
  not modelled. Neither is the fact that `updateUI` is subscribed only
  after the scan button is first clicked (`MainActivity.kt` lines 50-56).
- The error toast in `updateUI` and the toasts, dialogs, intents,
  permission requests, window insets and `finish()` elsewhere in
  `MainActivity.kt` are platform side effects.
- `allPermissionsGranted` and the image-selection dialog are also left out
  (`MainActivity.kt` lines 133-174). They are dialog and intent plumbing.
- `handleSelectedImage` and `handleCapturedImage` are not modelled beyond
  the EXIF mapping. Their bitmap loading, the uncaught null input stream,
  the call to `viewModel.sendPrompt` and their widget updates are left out.
  `sendPrompt` is not defined by `MainViewModel`, so this wiring cannot be
  followed.
- `rotateBitmap` uses `Matrix` and float graphics. Only the angle it is
  given is modelled (`ActivityResults.RotationDegrees`).
- `MainViewModelFactory` is a reflection-based class check.
- String resources (`scan_result`, `analyzing`) are named placeholders
  (`Screen.Text`). Their contents live in resources outside this model.

## Findings

| source | as written | input that shows it | evidently intended | confidence | as-written member | corrected member |
|---|---|---|---|---|---|---|
| app/src/main/java/com/swancodes/geminiapitest/MainActivity.kt:200-202 | `data?.extras?.get("data") as Bitmap` is an unchecked cast after a null-safe chain, so it throws when the intent, its extras or the "data" entry is null, or the entry is not a bitmap | `onActivityResult(200, RESULT_OK, null)` | read the extra with a safe cast and ignore a camera result without a bitmap, as the `?.` chain and the gallery branch's `?.let` do | medium, not executed | ActivityResults.RouteAsWritten (exhibited by ActivityResults.CameraResultWithoutBitmapThrows) | ActivityResults.RouteResult (related by ActivityResults.RoutingAgreesUnlessCastFails) |
