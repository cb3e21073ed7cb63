# Blur chain: a Dafny model

This project models the core of a small Android sample app that blurs a
picked image with a chain of background jobs run by the platform's job
scheduler (WorkManager). It covers two pieces:

- **The view model** (`BlurViewModel`) remembers the picked image and the
  saved output as optional locators. It builds the unique chain
  *cleanup → blur × N → save* and enqueues it under the name
  `IMAGE_MANIPULATION_WORK_NAME` with policy `REPLACE`. It cancels the chain
  by the same name.
- **The blur worker** (`BlurWorker.doWork`) reads `KEY_IMAGE_URI` from its
  input data. A missing or empty locator fails. Any throw from the image work
  fails. Otherwise it succeeds with output data holding one entry.

The scheduler is a library whose code is not part of this model. It is seen
only through the calls the view model makes into it. The class records these
calls in order, as `Enqueue(chain)` or `CancelUniqueWork(name)`. Requests,
chains, policies, constraints, backoff and tags are plain data.

Modules:

- `Wrappers`: `Option`, for Kotlin's nullable references.
- `Work`: the library vocabulary as data, plus the app's constants.
- `ViewModel`: `UriOrNull`, the input data, the chain as a function
  (`BlurChain`), and the class `BlurViewModel` with its setters, `ApplyBlur`
  (the loop) and `CancelWork`.
- `Workers`: `DoWork` as written, and `DoWorkIntended` (see Findings).
- `Handoff`: runs a chain's blur steps under the hand-off the view model
  relies on. A blur with explicit input reads that input. Every other blur
  reads its predecessor's output. This module holds the end-to-end lemmas.

When `blurLevel <= 0` no request receives the image locator, and the save step starts from the cleanup step's output only (`Handoff.ChainHandsOriginalUriToSave`).

## Model

| member | source | states |
|---|---|---|
| `ViewModel.UriOrNull` | app/src/main/java/com/example/background/BlurViewModel.kt:136-142 | absent exactly when the argument is null or empty; otherwise a locator whose text is the argument |
| `ViewModel.InputData` | app/src/main/java/com/example/background/BlurViewModel.kt:60-62 | the data holds `KEY_IMAGE_URI` exactly when an image is set, with the locator's text as value, and holds no other key |
| `ViewModel.BlurRequests` | app/src/main/java/com/example/background/BlurViewModel.kt:95-106 | `max(blurLevel, 0)` blur requests; only index 0 has explicit input (the chain's input data); none has constraints, backoff or tags |
| `ViewModel.BlurChain` | app/src/main/java/com/example/background/BlurViewModel.kt:85-130 | named `IMAGE_MANIPULATION_WORK_NAME` with `REPLACE`; `max(blurLevel, 0) + 2` requests; a plain cleanup first, then blurs where only the first has input, then the save request last |
| `ViewModel.ChainKindCounts` | app/src/main/java/com/example/background/BlurViewModel.kt:89-106 | exactly one cleanup, one save and `max(blurLevel, 0)` blurs: the standalone blur request is never added |
| `ViewModel.ExplicitInputOnlyOnFirstBlur` | app/src/main/java/com/example/background/BlurViewModel.kt:98-103 | a request has explicit input if and only if it is the first blur and `blurLevel >= 1` |
| `ViewModel.SaveIsOnlyOutputRequest` | app/src/main/java/com/example/background/BlurViewModel.kt:125-130 | a request needs charging, sets a backoff or carries `TAG_OUTPUT` if and only if it is the last one (the save) |
| `ViewModel.BlurViewModel.constructor` | app/src/main/java/com/example/background/BlurViewModel.kt:31-44 | no image, no output, no calls made; the save gate requires charging |
| `ViewModel.BlurViewModel.SetImageUri` | app/src/main/java/com/example/background/BlurViewModel.kt:147-149 | `imageUri` becomes `uriOrNull` of the argument; null and "" both clear it; the invariant (no empty locator stored) is kept |
| `ViewModel.BlurViewModel.SetOutputUri` | app/src/main/java/com/example/background/BlurViewModel.kt:151-153 | as `SetImageUri`, for `outputUri` |
| `ViewModel.BlurViewModel.ApplyBlur` | app/src/main/java/com/example/background/BlurViewModel.kt:50-134 | the loop enqueues exactly one call, `Enqueue(BlurChain(blurLevel, imageUri))`; nothing else changes |
| `ViewModel.BlurViewModel.CancelWork` | app/src/main/java/com/example/background/BlurViewModel.kt:161-163 | exactly one call is appended: cancel unique work `IMAGE_MANIPULATION_WORK_NAME` |
| `ViewModel.ApplyThenCancel` | app/src/main/java/com/example/background/BlurViewModel.kt:161-163 | after `ApplyBlur` then `CancelWork` on a view model, the last call cancels unique work under exactly the name of the chain enqueued just before it |
| `Workers.DoWork` | app/src/main/java/com/example/background/workers/BlurWorker.kt:18-54 | never retry; success if and only if the input has a non-empty `KEY_IMAGE_URI` and the image work does not throw; failure carries empty data; success data has exactly the key `KEY_IMAGE_URI`, holding the input locator |
| `Workers.OutputIgnoresWrittenFile` | app/src/main/java/com/example/background/workers/BlurWorker.kt:44-46 | the result does not depend on which file the blur wrote |
| `Workers.SuccessOutputIsFixedPoint` | app/src/main/java/com/example/background/workers/BlurWorker.kt:27-47 | a success's output, given to a blur that does not throw, yields the same success |
| `Workers.AsWrittenReportsInputNotBlurredFile` | app/src/main/java/com/example/background/workers/BlurWorker.kt:44-46 | a concrete run where the reported locator is the input's and differs from the written file's |
| `Workers.DoWorkIntended` | app/src/main/java/com/example/background/workers/BlurWorker.kt:44-46 | the same checks as `doWork`, but success data holds the written file's locator |
| `Handoff.RunFromPredecessor` | app/src/main/java/com/example/background/BlurViewModel.kt:98-100 | blurs fed by predecessors from data `d` all succeed if and only if `d` has a non-empty locator and nothing throws, and then hand on `d`'s locator; otherwise the run fails with empty data |
| `Handoff.ChainHandsOriginalUriToSave` | app/src/main/java/com/example/background/workers/BlurWorker.kt:27-53 | end to end: with no blurs, save gets the cleanup output; otherwise save gets the original image locator unchanged if an image is set and no blur throws, and the chain fails in every other case |
| `Handoff.RunIntendedFromPredecessor` | app/src/main/java/com/example/background/workers/BlurWorker.kt:44-46 | with the intended worker, blurs fed by predecessors from data `d` all succeed if and only if `d` has a non-empty locator, nothing throws and every file handed on has a non-empty locator, and then hand on the last written file's locator; otherwise the run fails with empty data |
| `Handoff.ChainHandsLastBlurredFileToSave` | app/src/main/java/com/example/background/BlurViewModel.kt:95-106 | end to end with the intended worker: with no blurs, save gets the cleanup output; otherwise save gets the file written by the last blur if an image is set, nothing throws and every file handed on has a non-empty locator, and the chain fails in every other case |

## Left out

- Scheduler runtime: how `REPLACE`, `KEEP` and `APPEND` act, when constraints hold, backoff delays, retries and cancellation. This lives in the library, which is not part of this model. The policy and the name are only recorded.
- Input merging: the library merges a request's own input with its parents' outputs. `Handoff` instead uses the stated hand-off: explicit input if set, else the predecessor's output.
- `outputWorkInfos` and `getWorkInfosByTagLiveData` (BlurViewModel.kt:36-40): UI observation plumbing.
- Image I/O: bitmap decoding, `blurBitmap`, `writeBitmapToFile`, the content resolver, the notification, `sleep()` and logging. The decode, blur and write steps are one parameter, `BlurIo`: the written file's locator, or a throw. A throw from the notification or `sleep()` happens outside the `try` and is not modelled.
- `Uri.parse` and `Uri.toString`: a locator is modelled as the text it was parsed from.
- `CleanupWorker` and `SaveImageToFileWorker`: not part of this model. They are opaque request kinds, and the cleanup step's output is a parameter.
- Constants.kt is not part of this model. `KEY_IMAGE_URI`, `IMAGE_MANIPULATION_WORK_NAME` and `TAG_OUTPUT` take stand-in values. No property depends on those values beyond their being non-empty.
- Job data holds string values only. The app never puts anything else in it, so `getString`'s null result for a non-string value is not modelled.
- Kotlin's 32-bit `Int` for `blurLevel`: the loop counts up to `blurLevel` and never overflows, so unbounded integers are used.

## Findings

| source | as written | input that shows it | evidently intended | confidence | as-written member | corrected member |
|---|---|---|---|---|---|---|
| app/src/main/java/com/example/background/workers/BlurWorker.kt:44-46 | the blurred bitmap is written to `outputuri`, but the output data holds `outputUri`, which is the input locator read at line 27 | input `{KEY_IMAGE_URI: "content://media/1"}` with the blur writing `file:///blur-output-1.png`: the output reports `content://media/1`. Every blur re-blurs the original, and save receives the unblurred original | report the written file's locator, so that each blur takes its predecessor's result and save stores the last one (the commented-out line 26 once assigned the written file to `outputUri`, and lines 45-46 were written against that name; the unused `outputuri` at line 44 is what the rename left behind) | medium; not executed | `Workers.DoWork`, `Workers.AsWrittenReportsInputNotBlurredFile`, `Handoff.ChainHandsOriginalUriToSave` | `Workers.DoWorkIntended`, `Handoff.ChainHandsLastBlurredFileToSave` |
