# ImageUploadPreview in Dafny

A model of the `ImageUploadPreview` browser widget (`imageuploadpreview.js`).
The widget binds to a file input. On every `change` it tries to show a
preview of the selected image in an `img` element it created next to the
input.

The model has five modules, one per part of the widget:

- `Scaling` (`scaling.dfy`) is the display decision of `showImage_`. The
  natural size is shrunk along the dominant axis only, so that axis fits its
  bound and the aspect ratio is kept. Each axis then becomes `round(x)px`, or
  `auto` when it is negative or NaN. This module also has the bound
  normalisation of `setMaxImageSize`. Arithmetic is exact, on reals, and
  `Math.round` is floor(x + 1/2).
- `DataUri` (`datauri.dfy`) is `BASE64_IMG_URL_PATTERN`. Characters are
  compared after ASCII upper-casing. JavaScript's `/i` matcher without the `u`
  flag also upper-cases non-ASCII letters. It never maps a non-ASCII
  character to an ASCII one, though, so the two agree on every comparison
  this all-ASCII pattern makes. The recogniser is proved
  equal to a reference description: the string starts, ignoring ASCII case,
  with `data:image/<png|gif|jpg|jpeg|bmp>;base64` (the `data:` URL scheme of
  RFC 2397 with its `;base64` marker).
- `Fallback` (`fallback.dfy`) is the `preview`/`tryLoad` driver as a pure
  function of the queue and of what the strategies reported. A closed form,
  the fall-through order and "blank image exactly once" are proved about it.
- `Probe` (`probe.dfy`) is `checkComplete`, the completion check of the
  local-path strategy. It classifies one event, and its one-shot latch is
  modelled over any sequence of events.
- `Preview` (`preview.dfy`) is the imperative widget:
  - `ImageUploadPreview` holds `input_`, `onChangeHandler_`, `image_` and the
    bounds, with `construct`, `dispose`, `setMaxImageSize`, `showImage_`,
    `showEmptyImage_`, `preview` and both strategies.
  - `PreviewRun` is one call of `preview`. It holds the `loadMethods` queue
    that `tryLoad` shifts, plus its pending callbacks.
  - `LocalPathProbe` is the probe image with its closure state: the poll timer
    and the handler slots. Its `dispose` clears them.

  `PreviewRun` carries the ghost proof state `reports` and `steps`. Its
  invariant `Valid` ties the imperative driver to `Fallback.Steps`, and the
  probe to `Probe.Terminals`.

Timers and image decoding are inputs. The 10 ms size timer of the data-URI
strategy is the pending `PreviewRun.sizeTimer`, which the host fires with
`SizeTimerFires` and the natural size. A host event that reaches the probe
image is delivered with `LocalPathProbe.Fire`. It carries the signal (the
50 ms poll, `load` or `error`, as `window.event.type` reports it) and the
probe's `complete`, `width` and `height` at that moment. The host's
`getAsDataURL` result is part of the input's `file`. `'naturalWidth' in img`
is the image's `hasNaturalSize`.

`showImage_` is modelled for the arguments its four call sites pass: a
natural size (both values at least 0) or the sentinel (-1, -1). With these
arguments the only division by zero is 0 * maxHeight / 0, which happens when
the height bound is negative. JavaScript makes that NaN, and the style then
says `auto` (`Extent.NaN`).

## Model

| member | source | states |
|---|---|---|
| Scaling.NormalizeBoundIdempotent | imageuploadpreview.js:163-166 | Normalising a stored bound again changes nothing. A bound is 10000 exactly for a NaN argument, or for the argument 10000 itself. |
| Preview.ImageUploadPreview.SetMaxImageSize | imageuploadpreview.js:163-166 | Each bound becomes its own argument normalised (NaN gives 10000), independently per axis. Nothing else changes, so a second call with the same arguments gives the same state. |
| Scaling.LandscapeScaling | imageuploadpreview.js:235-239 | A landscape image wider than maxWidth gets width exactly maxWidth and height h * maxWidth / w, so height * w == h * maxWidth. |
| Scaling.PortraitScaling | imageuploadpreview.js:240-244 | A portrait or square image higher than maxHeight gets height exactly maxHeight and width w * maxHeight / h, so width * h == w * maxHeight. |
| Scaling.DominantAxisOnly | imageuploadpreview.js:235-245 | A landscape result does not depend on maxHeight, and a portrait or square result does not depend on maxWidth. |
| Scaling.DominantAxisExample | imageuploadpreview.js:235-245 | A 300 x 250 image in a 400 x 100 box keeps its natural size although it is higher than the box. |
| Scaling.ScaledFits | imageuploadpreview.js:235-245 | With non-negative bounds and size, the result is finite and never larger than the natural size on either axis. It keeps the aspect ratio (w' * h == h' * w), and its dominant axis is within its bound. |
| Scaling.ScaledIdempotent | imageuploadpreview.js:235-245 | Scaling an already scaled size again (non-negative bounds) gives the same size. |
| Scaling.NormalizeBound | imageuploadpreview.js:164-165 | `isNaN(x) ? 10000 : x` for one bound. Its properties are stated by `Scaling.NormalizeBoundIdempotent`. |
| Scaling.Scaled | imageuploadpreview.js:235-245 | The computed height is always a number. The width is NaN exactly for a 0 x 0 image with a negative height bound. A landscape result is at most maxWidth wide, and any other result at most maxHeight high. |
| Scaling.CssLength | imageuploadpreview.js:253-254 | One axis of the style is always written. It is a pixel length exactly when the computed extent is a non-negative number, and `auto` otherwise. |
| Scaling.SurfaceStyle | imageuploadpreview.js:250-254 | All four style properties are written. The max-size lengths are the two bounds. |
| Scaling.Round | imageuploadpreview.js:253-254 | `Math.round(x)` is the integer n with n - 1/2 <= x < n + 1/2. |
| Scaling.CssLengthNearest | imageuploadpreview.js:253-254 | A non-negative length is written as whole pixels, within half a pixel of the exact value. A length is written as `auto` exactly when it is negative. |
| Scaling.UnspecifiedIsAuto | imageuploadpreview.js:251-254 | The sentinel (-1, -1), passed at line 287, is shown as `auto` x `auto`, with the max-size lengths equal to the bounds, whatever the bounds are. |
| Scaling.EmptySizeStyle | imageuploadpreview.js:222-224 | The size 0 x 0 is shown at 0px x 0px exactly when maxHeight >= 0, and as `auto` x `auto` exactly when maxHeight < 0. The max-size lengths are the bounds. |
| Preview.ImageUploadPreview.ShowImage | imageuploadpreview.js:233-255 | The image's src becomes `src`. Its style becomes the bounds as max-size lengths plus the CSS lengths of the scaled size. Nothing else of the image changes. |
| Preview.ImageUploadPreview.ShowEmptyImage | imageuploadpreview.js:222-224 | The image shows `BLANK_IMAGE_SRC` with the style of the size 0 x 0, that is 0px x 0px when the height bound is non-negative. |
| DataUri.CanonicalIsCaseFolding | imageuploadpreview.js:28-29 | ASCII upper-casing, the model's canonical form, identifies the same pairs of characters as ASCII lower-casing. |
| DataUri.AgreesWithEngineOnAscii | imageuploadpreview.js:28-29 | Take any canonicalisation that upper-cases ASCII as the model does and never maps a non-ASCII character into ASCII, as the `/i` flag without `u` does. Whenever one side of a comparison is ASCII, it reaches the same decision as the model. Every comparison the pattern makes is of this kind. |
| DataUri.IsEmbeddedImageUri | imageuploadpreview.js:28-29 | `BASE64_IMG_URL_PATTERN.test(s)`: the anchored, case-insensitive prefix `data:image/`, then the alternation in order, then `;base64`. Its meaning is stated by `DataUri.RecogniserMeetsReference`. |
| DataUri.StartsWithMeansLowerPrefix | imageuploadpreview.js:28-29 | The matcher's character-by-character, case-insensitive prefix test holds exactly when the first \|p\| characters of s equal p after lower-casing. |
| DataUri.MatchesOneOfMeansSome | imageuploadpreview.js:28-29 | The alternation (png\|gif\|jpg\|jpeg\|bmp) followed by `;base64` matches exactly when some alternative matches. |
| DataUri.RecogniserMeetsReference | imageuploadpreview.js:28-29 | `BASE64_IMG_URL_PATTERN.test(s)` holds iff s starts, ignoring ASCII case, with `data:image/` + one of the five formats + `;base64`. Both directions are proved. |
| DataUri.AcceptsPng | imageuploadpreview.js:28-29 | A PNG data URL is accepted, whatever follows `;base64`. |
| DataUri.AcceptsUpperCaseJpeg | imageuploadpreview.js:28-29 | `data:image/JPEG;base64,...` is accepted: case is ignored, and the alternation reaches `jpeg` past `jpg`. |
| DataUri.AcceptsAllUpperCase | imageuploadpreview.js:28-29 | `DATA:IMAGE/GIF;BASE64` is accepted. |
| DataUri.RejectsTextAndUnanchored | imageuploadpreview.js:28-29 | `data:text/plain;base64,...`, a prefix preceded by a space, and the empty string are rejected. |
| DataUri.RejectsTiff | imageuploadpreview.js:28-29 | An image type outside the five (`tiff`) is rejected. |
| DataUri.RejectsMissingBase64 | imageuploadpreview.js:28-29 | An image data URL without `;base64` is rejected. |
| Preview.DataUriOf | imageuploadpreview.js:268-273 | The URL the embedded-data strategy shows, if any: the file offers `getAsDataURL`, the result is non-empty and the pattern accepts it. Its meaning is stated by `Preview.DataUriOfMeetsReference`. |
| Preview.DataUriOfMeetsReference | imageuploadpreview.js:268-273 | The embedded-data strategy takes a file exactly when it offers `getAsDataURL` and the URL has an accepted image prefix. It then uses that very URL. |
| Preview.ImageUploadPreview.MaybeShowImageWithDataUri | imageuploadpreview.js:265-299 | On an accepted URL, the image shows it: at once at `auto` size without `naturalWidth`, or with the size timer pending otherwise. Success is reported and the chain stops. On any other input, failure is reported, the image's src and style are untouched and the local-path probe starts. |
| Preview.ImageUploadPreview.MaybeShowImageByLocalPath | imageuploadpreview.js:308-362 | A fresh probe loads the input's path, with both handlers and the poll timer set and no event handled yet. |
| Preview.PreviewRun.SizeTimerFires | imageuploadpreview.js:281-283 | The pending size timer shows its URL with the style of the natural size, and is then no longer pending. The run stays valid. |
| Preview.ImageUploadPreview.Preview | imageuploadpreview.js:110-137 | A fresh run starts from the full queue and is valid afterwards, so its actions are `Fallback.Steps` of what was reported. The state after the embedded-data strategy matches its two outcomes. |
| Preview.ImageUploadPreview.HandleOnchange | imageuploadpreview.js:214-216 | A change of the input starts a new valid preview run. |
| Preview.PreviewRun.TryLoad | imageuploadpreview.js:128-135 | The result is false exactly on an empty queue, and then nothing changes. Otherwise the first strategy is shifted off the queue, recorded as started, and run. |
| Preview.PreviewRun.OnLoad | imageuploadpreview.js:113-115 | A success does nothing, and the driver's actions stay those of `Fallback.Steps`. |
| Preview.PreviewRun.OnError | imageuploadpreview.js:117-121 | A failure starts the next strategy when one is queued. With the queue empty the blank image is recorded as the driver's last step, and shown if the controller still has its image. |
| Fallback.Steps | imageuploadpreview.js:110-137 | What `preview` does for a queue and a sequence of reports: start the first strategy, start the next one after each failure, and show the blank image when a failure finds the queue empty. Its properties follow in the rows below. |
| Fallback.StepsClosedForm | imageuploadpreview.js:110-137 | The driver starts a prefix of the queue in queue order, each strategy once. It then shows the blank image exactly when every strategy failed. |
| Fallback.NextOnlyAfterFailure | imageuploadpreview.js:117-136 | The first strategy always starts. Strategy i + 1 starts iff strategy i reported a failure. |
| Fallback.ShowEmptyExactlyOnce | imageuploadpreview.js:117-121 | `showEmptyImage_` occurs exactly once, and last, when all strategies failed, and never otherwise. |
| Fallback.SuccessStops | imageuploadpreview.js:113-115 | A success is the last report. No strategy starts after it, and the blank image is never shown. |
| Fallback.StepsOnFailure | imageuploadpreview.js:117-134 | One more failure appends exactly the next strategy's start, or the blank image when the queue is exhausted. |
| Fallback.StepsOnSuccess | imageuploadpreview.js:113-115 | One more success appends nothing. |
| Fallback.LoadMethodsRuns | imageuploadpreview.js:123-126 | With the queue [data URI, local path]: the five possible report sequences give the expected actions. |
| Probe.Classify | imageuploadpreview.js:345-357 | An event is pending iff it is a poll tick on an incomplete image. It succeeds iff it is not an `error`, it is a `load` or the image is complete, and both dimensions are non-zero. It then carries those dimensions. Everything else fails. |
| Probe.Terminals | imageuploadpreview.js:315-357 | The terminal handlings a sequence of events causes: the verdict of the first non-pending event, after which the probe no longer listens. Its properties follow in the rows below. |
| Probe.TerminalsAtMostOnce | imageuploadpreview.js:315-357 | Over any sequence of events, terminal handling runs at most once and never for a pending event. |
| Probe.TerminalsIsFirstVerdict | imageuploadpreview.js:345-357 | Terminal handling never runs iff every event was pending. Otherwise it runs with the verdict of the first non-pending event. |
| Probe.TerminalsExtend | imageuploadpreview.js:315-328 | A further event changes the handling only while none has happened, and then as that event alone would. |
| Probe.TerminalsStable | imageuploadpreview.js:315-328 | After the terminal handling, no sequence of later events changes anything. |
| Probe.ProbeExamples | imageuploadpreview.js:345-357 | A complete image of width 0 fails. Ticks before completion are ignored, and an `error` after a success is ignored. |
| Preview.LocalPathProbe.Fire | imageuploadpreview.js:345-362 | Once handled, an event changes nothing: no timer, no report, no image write. A pending event changes nothing either. On failure, both strategies' failures are reported, and the blank image is shown if the controller still has its image. On success, the probe's source is shown at its size (again only with an image) and the chain ends. Either way the probe stops listening, even after the controller's `dispose`. The run stays valid and at most one terminal handling happens. This is the corrected order of the finding below. |
| Preview.LocalPathProbe.FireAsWrittenAfterControllerDispose | imageuploadpreview.js:330-357 | As written, after the controller's `dispose`: the handling fails exactly on a non-pending event, and the poll and both handlers stay registered. |
| Preview.ProbeAfterDisposeAsWritten | imageuploadpreview.js:330-343 | Concretely: a preview without `getAsDataURL`, then the controller's `dispose`, then the probe's `load` at 30 x 40. The handling fails and the poll is still scheduled. |
| Preview.ProbeAfterDisposeCorrected | imageuploadpreview.js:330-343 | The same sequence with the corrected handling, followed by a poll tick: the poll is cleared. |
| Preview.LocalPathProbe.HandleError | imageuploadpreview.js:330-335 | The probe is disposed, and the driver hears a failure. The queue is empty, so the blank image is shown if the controller still has its image. |
| Preview.LocalPathProbe.HandleComplete | imageuploadpreview.js:337-343 | The probe is disposed. The probe's source is shown at the probe's size if the controller still has its image, and the driver hears a success. |
| Preview.LocalPathProbe.Dispose | imageuploadpreview.js:315-328 | The poll timer and both handlers are cleared. |
| Preview.ImageUploadPreview.constructor | imageuploadpreview.js:78-86 | The input is kept and exactly one fresh change listener is added to it. A fresh image shows `BLANK_IMAGE_SRC` with width and height attributes 0. The bounds are the prototype defaults 200 x 200 (lines 64 and 71), and the image attributes are those set at lines 176-178. |
| Preview.ImageUploadPreview.Dispose | imageuploadpreview.js:92-105 | Exactly this controller's listener is removed from the input, and the input, listener and image fields become null. |

## Left out

- Element lookup by id (`construct` with a string) and the DOM insertion in `createImage_` are host-document plumbing. The constructor takes the input object, and the image is a fresh object.
- `bindEvents_`'s `addEventListener`/`attachEvent` choice and the `window.event`/`srcElement` shims are browser differences. A change event is a call to `HandleOnchange`.
- `getImageElement` and `getInputElement` are plain reads of the `image` and `input` fields.
- The field `isCompatible_` is declared but never used.
- Real timers and image decoding are not modelled. The 10 ms timeout and the 50 ms interval are host-fired inputs (`SizeTimerFires`, `Fire` with a `Tick`).
- `Scaling.Scaled`: omits IEEE-754 details of the division and of `Math.round`. Arithmetic is exact, and `Math.round` is floor(x + 1/2).
- `Scaling.NormalizeBound`: does not model JavaScript's `isNaN` coercion of non-numbers. Arguments arrive already converted, as a number or NaN (`NumArg`). Infinity behaves as an ordinary large bound.
- The number-to-string conversion in `this.maxHeight_ + 'px'` is not modelled. The style keeps the number itself, and a negative bound yields a `Px` value that a browser would reject.
- `Preview.LocalPathProbe.Fire`: models the corrected handling of the finding below. The failing path as written is `FireAsWrittenAfterControllerDispose`, and the exception itself is its result `threw`.
- `Preview.PreviewRun.OnError`: carries the corrected guard of the finding below. With the queue empty, it writes the blank image only while the controller still has its image. As written, `showEmptyImage_` throws at line 248 once the controller's `dispose` has nulled `image_`. That failing path is modelled only through `Preview.LocalPathProbe.FireAsWrittenAfterControllerDispose`.
- `Preview.LocalPathProbe.HandleError`: carries the corrected order of the finding below. It disposes the probe before calling `onError`. As written, `onError` runs first (line 332), and after the controller's `dispose` it throws before the probe's `dispose()` at line 334.
- `Preview.LocalPathProbe.HandleComplete`: carries the corrected order and guard of the finding below. It disposes the probe first and calls `showImage_` only while the controller has its image. As written, `showImage_` runs first (line 338) and throws at line 248 after the controller's `dispose`, so line 342 is never reached.
- `Preview.PreviewRun.SizeTimerFires`: requires the controller to be bound. If the controller is disposed before the 10 ms timer fires, `showImage_` throws at line 248. That exception ends only the timer callback, and nothing else is affected.
- `Preview.ImageUploadPreview.Preview`: requires a bound controller. After `dispose`, the source throws at `el.files` (line 268), because `el` is the null `input_`.
- `Preview.ImageUploadPreview.Dispose`: requires a bound controller. A second `dispose` throws at line 96, which reads `addEventListener` of the null `input_`.
- The probe's `img.src` is the input's value as a string. The browser's URL resolution of `img.src` is not modelled.
- On hosts without `window.event`, every call of `checkComplete` looks like a poll tick. The host then delivers `Tick` observations, and this is not a separate case in the model.
- The cross-run race is not modelled: a slow probe of an earlier `preview` can overwrite the image after a later run (last writer wins). Each run is a separate `PreviewRun` writing the same `image`, and no interleaving order is proved.

## Findings

| source | as written | input that shows it | evidently intended | confidence | as-written member | corrected member |
|---|---|---|---|---|---|---|
| imageuploadpreview.js:330-343 | `handleError` (through `onError` and `showEmptyImage_`) and `handleComplete` call `showImage_` before the probe's `dispose()`. After the controller's `dispose` (line 104), `showImage_` throws at `img.src = src` (line 248). The probe's `dispose()` never runs, and the interval of line 361 calls `checkComplete` again every 50 ms. It throws again each time. | A file input whose file offers no `getAsDataURL`. Call `preview()`, then `dispose()` on the controller, then let the probe image load at 30 x 40. | The probe disposes itself on every terminal event, and nothing is written once the controller has no image. | medium; not executed | Preview.LocalPathProbe.FireAsWrittenAfterControllerDispose | Preview.LocalPathProbe.Fire |
