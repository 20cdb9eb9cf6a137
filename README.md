# useCropper, modelled in Dafny

A model of the `useCropper` composable of nuxt-croppers and of the preset
types it uses. A user picks an image file. The composable checks the file's
size and reads it into a data URL. The stencil widget then reports the live
crop region. When the user crops, the file's MIME type is taken from the
displayed image's data URL and the rendered canvas is encoded in that type.
Three named presets (`default`, `avatar`, `cover`) fix the crop constraints.

Files and modules:

- `wrappers.dfy` (`Wrappers`): `Option`, standing for `undefined`/`null`.
- `cropper_types.dfy` (`CropperTypes`): the preset-name union (`ConfigTag`) and the `CropperConfig` record, with optional fields as `Option`s.
- `presets.dfy` (`Presets`): the three preset constants and the lookup from tag to configuration.
- `data_url.dfy` (`DataUrl`): the regular expression `^data:(.+);base64,` as a character-level parser, with the `image/jpeg` default.
- `cropper_session.dfy` (`Cropper`): the composable's state as the class `CropperSession`. Its fields are `errorMessage`, `image`, `croppedImage`, `result`, `activeConfig`, and counters of modal toggles and file reads. Its methods are `fileSizeOk`, `handleFileChange`, `crop` and `onChange`. Two client methods at the end show what callers can rely on when they chain those calls.

Modelling decisions:

- A selected file is given its size and the outcome the browser's file reader would deliver (`Loaded(url)` or `ReadFailed`). The read happens only when `ReadFileAsDataUrl` is called, and the `fileReads` counter records that call. So a contract can say that an oversized file is never read.
- The page's `toggleModalOpen` callback is recorded as the `modalToggles` counter.
- `canvas.toDataURL` is the browser's encoder. It is modelled as an uninterpreted function value carried by the `Canvas` datatype.
- The regex is modelled as JavaScript runs it: `.` matches anything except `\n`, `\r`, U+2028 and U+2029. The greedy `.+` first runs to the first line terminator (`DotRun`), then backtracks until `;base64,` follows (`Backtrack`). The resulting capture is characterised independently by `IsCapture`: it is the longest string `m` such that the source starts with `data:` + `m` + `;base64,`, `m` is non-empty, and `m` contains no line terminator.
- `onChange` overwrites `result.coordinates` and `result.image` unconditionally, even with absent values (`None`); it does not skip an update whose coordinates or image are missing.
- The page's `toggleModalOpen` callback is given as an outcome (`Returned` or `Threw`). It runs inside the same `try` as the file read, so a throwing callback is caught there.
- `activeConfig` is set only at construction, because the composable never exposes or reassigns it.

## Model

| member | source | states |
|---|---|---|
| `CropperTypes.ParseTag` | types/cropper.ts:1 | a string names a preset exactly when it is `"avatar"`, `"cover"` or `"default"`, and the tag it gives has that literal |
| `CropperTypes.TagName` | types/cropper.ts:1 | every preset literal is non-empty, hence truthy, so the fallback to `"default"` at construction never replaces a given tag |
| `CropperTypes.TagNameRoundTrip` | types/cropper.ts:1 | every tag's literal parses back to that tag, so the union has exactly the three tags |
| `CropperTypes.TagNameInjective` | types/cropper.ts:1 | distinct tags have distinct literals |
| `Presets.Config` | composables/useCropper.ts:26-76 | the lookup is total over the tags; every preset has positive minimums that fit its canvas and its fixed stencil, a positive aspect ratio when it has one, is movable and sets no maximum size |
| `Presets.PresetConstants` | composables/useCropper.ts:27-75 | the exact minimum, canvas, stencil size, `resizable` and `aspectRatio` values of `default`, `avatar` and `cover` |
| `Presets.ConfigInjective` | composables/useCropper.ts:26-76 | two tags give the same configuration only if they are the same tag |
| `DataUrl.DotRun` | composables/useCropper.ts:129 | the greedy `.+` first consumes the longest prefix free of line terminators and stops at the first terminator |
| `DataUrl.Backtrack` | composables/useCropper.ts:129 | backtracking finds the largest offset in `1..k` where `;base64,` starts, or reports that there is none |
| `DataUrl.CaptureShape` | composables/useCropper.ts:129 | any capture lies within the terminator-free run after `data:`, and `;base64,` follows it |
| `DataUrl.CaptureFromMarker` | composables/useCropper.ts:129 | any marker position within that run yields a capture |
| `DataUrl.CaptureByLength` | composables/useCropper.ts:129 | two captures of the same source with the same length are equal |
| `DataUrl.Capture` | composables/useCropper.ts:129-131 | when the pattern matches, the group is a capture and no capture is longer (greedy); the pattern fails exactly when no capture exists |
| `DataUrl.MimeType` | composables/useCropper.ts:128-133 | the MIME type is `image/jpeg` when nothing matches; otherwise it is the longest capture |
| `DataUrl.EncodeCapture` | composables/useCropper.ts:128-133 | a non-empty type without line terminators is a capture of the data URL built from it |
| `DataUrl.NoLaterMarker` | composables/useCropper.ts:129 | after the type, `;base64,` does not occur again in a data URL with base64 text |
| `DataUrl.CaptureOfEncodeBounded` | composables/useCropper.ts:129 | no capture of such a data URL is longer than the type it was built with |
| `DataUrl.MimeTypeOfEncode` | composables/useCropper.ts:128-133 | round trip: the MIME type read from `data:<mime>;base64,<base64>` is `mime` |
| `DataUrl.PngExample` | composables/useCropper.ts:128-133 | `data:image/png;base64,AAAA` gives `image/png` |
| `DataUrl.NotADataUrlExample` | composables/useCropper.ts:128-133 | `not-a-data-url` gives `image/jpeg` |
| `DataUrl.GreedyExample` | composables/useCropper.ts:129-132 | with two markers, the type runs to the last one |
| `DataUrl.TerminatorBeforeMarker` | composables/useCropper.ts:128-133 | a line terminator before the first `;` after `data:` makes the result `image/jpeg` |
| `DataUrl.LineTerminatorExample` | composables/useCropper.ts:128-133 | `data:image/png\n;base64,` gives `image/jpeg` |
| `Cropper.CropperSession.constructor` | composables/useCropper.ts:6-25 | the initial state: empty message and image, no cropped image, result with null image and blob and zero coordinates; the preset is the given one or `default` |
| `Cropper.CropperSession.Config` | composables/useCropper.ts:146-148 | the exposed configuration is the active preset's, and it is always defined and well formed |
| `Cropper.CropperSession.FileSizeOk` | composables/useCropper.ts:93-100 | passes exactly when the size is at most 5,242,880 bytes; a rejection sets the too-large message; a pass leaves the message unchanged |
| `Cropper.CropperSession.ReadFileAsDataUrl` | composables/useCropper.ts:79-91 | one read is started, and its outcome is the file's |
| `Cropper.CropperSession.HandleFileChange` | composables/useCropper.ts:102-118 | no file: nothing changes and the message is not cleared. Oversized file: it is not read, the image is kept, the modal is not toggled and the too-large message is set. Successful read: the image is the data URL and the callback is called once; the message is empty, or the read-error message when the callback throws. Failed read: the image is kept, the read-error message is set and the callback is not called. Any selected file leaves the message one of the three known values; with no file a known message stays known |
| `Cropper.CropperSession.Crop` | composables/useCropper.ts:121-137 | with no cropper, the cropped image is unchanged; otherwise it is the canvas encoded at the MIME type read from the displayed image |
| `Cropper.CropperSession.OnChange` | composables/useCropper.ts:139-143 | coordinates and image are replaced by the given values; the blob is kept and the canvas is ignored; nothing outside `result` changes |
| `Cropper.FailedReselectionKeepsImage` | composables/useCropper.ts:102-118 | after a good read, an oversized file and then an unreadable file both keep the earlier image, each with its own message |
| `Cropper.IngestThenCrop` | composables/useCropper.ts:102-135 | a file of exactly 5 MiB is accepted and toggles the modal once; cropping its image asks the canvas for the file's own MIME type |

## Left out

- The browser's `FileReader` and the input event (composables/useCropper.ts:79-91, 103) are not modelled. Each selected file carries the outcome of its read. The redundant first `onerror` handler does not matter, because the caught error is replaced by a fixed message.
- The widget's `getResult()` and `canvas.toDataURL` (lines 126, 135) are external. Their result is a parameter, and the encoder is an uninterpreted function.
- Cropper.CropperSession.Crop: assumes `getResult()` always yields a canvas and an image. A null canvas (line 135) or a null image (`image.src` at line 129) throws in the code and leaves `croppedImage` unchanged; the model has no such exceptional path.
- Vue reactivity (`ref`, `reactive`, `computed`) is not modelled. The refs are plain fields, and `config` is a function of `activeConfig`.
- `console.log` and `console.error` are not modelled, because they are output only.
- Overlapping asynchronous calls, such as a new file pick while a read is pending, are not modelled. Each `handleFileChange` runs to completion as one step, because the code has no guard against interleaving.
- WebP capability probing, quality-1.0 encoding and object-URL revocation do not appear in composables/useCropper.ts. There, `crop` reuses the source image's MIME type.
- JavaScript strings are UTF-16 code units; here they are sequences of Unicode scalar values. This makes no difference to the regex, because all four line terminators are single code units.
- `File.size` is a `nat`, and the `handlers` record's `any` values are booleans.
