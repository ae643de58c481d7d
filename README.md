# WaveformBuilder, modelled in Dafny

This project models the decision logic of Peaks.js's `WaveformBuilder`
(`src/waveform-builder.js`). The builder obtains waveform data in one of three
ways: from a remote URL (`dataUri`), from data held in memory (`waveformData`),
or by decoding audio with the Web Audio API (`webAudio`, or the deprecated
`audioContext` option). The model covers:

- how `init` refuses conflicting sources and picks the strategy;
- the `Content-Range` check that lets an HTTP 206 count as a full response;
- the rule the two XHR load handlers use to accept a load;
- the choice of remote response format and of local payload;
- the channel and bit-depth check on a created waveform;
- how the decode scale is forced to the first zoom level;
- the single in-flight request slot `_xhr` and `abort`.

Modules, leaf first:

- `Wrappers`: `Option`, `Result`.
- `Digits`: digit strings. This is what `parseInt(s, 10)` reads and what number-to-string writes.
- `ContentRange`: the anchored match of `^bytes (\d+)-(\d+)\/(\d+)$` and `hasValidContentRangeHeader`. The header is a `byte-content-range` of section 4.2 of RFC 7233 (`bytes` followed by a `byte-range-resp`) whose `byte-range-resp` has a complete length.
- `Waveforms`: every error with its exact message; the opaque payloads and waveforms; the mono/stereo and 8-bit check.
- `Loading`: the load-event verdict shared by both `onload` handlers.
- `Selection`: the `.some` loop over `['ArrayBuffer', 'JSON']` as a `while` loop; the local payload choice; the whole local-data strategy.
- `Builder`: the option objects the builder mutates (`InitOptions`, `WebAudioOptions`), the XHR object (`Request`) and the builder itself (`WaveformBuilder`, with its `xhr` field).

Every builder operation returns an `Effect`, which is what its caller can observe:

- `Nothing`: it returned silently.
- `Callback(result)`: the callback ran with an error or a waveform.
- `Sent(request)`: a request became `_xhr` and was sent.
- `AwaitCanPlay`: the work waits for the `player.canplay` event.
- `DecodeFromBuffer`, `DecodeFromBytes`: the options handed to `WaveformData.createFromAudio`.
- `Raised(reason)`: a codec exception escaped the load handler.

Load, error and abort events are inputs to the handler methods. Browser probes are parameters:

- `capabilities` is the set of formats whose global constructor exists.
- `mediaSourceUrl` is the media element's `currentSrc`.
- `ContextValue.isAudioContext` is the result of the `instanceof` test.
- `create` stands for `WaveformData.create`.

How JavaScript values are represented:

- A configuration slot is `Slot<T>`: `Unset` (falsy), `NotAnObject` (truthy, but `isObject` fails) or `Given(value)`.
- A missing URL is the empty string.

Behaviour of the code worth noting, modelled as written:

- The code clears `_xhr` only after a load that passes the status check. It does not clear it on a rejected status, on an XHR error or on an abort.
- With no source, `init` reports its own "You must pass …" error, not the "only one source" error.
- On the remote path, an exception from `WaveformData.create` is not caught. It leaves the load handler, and no callback runs (`Effect.Raised`). Only the local path catches it.
- A deprecated `audioContext` given together with `webAudio` is not refused. It replaces the `webAudio` object and so drops its `audioBuffer`, `scale` and `multiChannel`.

## Model

| member | source | states |
|---|---|---|
| `Digits.Value` | src/waveform-builder.js:135-137 | `parseInt` of a digit string, leading zeros allowed; it is 0 exactly when every digit is '0' |
| `Digits.Decimal` | src/waveform-builder.js:210 | the status is written as a non-empty digit string with no leading zero (except for 0) |
| `Digits.ValueOfDecimal` | src/waveform-builder.js:135-137 | reading back a written number (as `parseInt` does) gives the number |
| `Digits.DecimalInjective` | src/waveform-builder.js:210 | different numbers are written differently |
| `ContentRange.SpanDigits` | src/waveform-builder.js:132 | greedy `\d*`: the split reassembles the input, the prefix is digits, and the rest does not start with a digit |
| `ContentRange.SpanDigitsUnique` | src/waveform-builder.js:132 | digits followed by a non-digit (or nothing) split only one way, so the regular expression has no other match |
| `ContentRange.Match` | src/waveform-builder.js:132-134 | a match yields three non-empty digit groups whose `bytes a-b/c` rendering is exactly the header |
| `ContentRange.MatchRender` | src/waveform-builder.js:132-134 | every `bytes a-b/c` with non-empty digit groups is matched, with exactly those groups (completeness) |
| `ContentRange.HasValidContentRange` | src/waveform-builder.js:125-147 | true iff the header is present and is a well-formed range with first = 0 and last + 1 = length; absent, empty and non-matching headers give false |
| `ContentRange.AcceptsWholeResource` | src/waveform-builder.js:139-141 | `bytes 0-(n-1)/n` is accepted for every n > 0 |
| `ContentRange.RejectsPartialRange` | src/waveform-builder.js:139-143 | any range with first ≠ 0 or last + 1 ≠ length is rejected |
| `ContentRange.WholeResourceExample` | src/waveform-builder.js:139-141 | `bytes 0-999/1000` is accepted |
| `ContentRange.OffsetRangeExample` | src/waveform-builder.js:143 | `bytes 100-999/1000` is rejected |
| `ContentRange.MalformedExamples` | src/waveform-builder.js:128-146 | a missing header, an empty header, `bytes */1000` and `bytes=0-999/1000` are rejected |
| `Waveforms.Message` | src/waveform-builder.js:92-319 | the message text of each error (lines 92, 121, 181, 196, 210, 221, 225, 232, 235, 267, 279, 319); the status message starts with its fixed prefix |
| `Waveforms.MessagesDistinct` | src/waveform-builder.js:92-319 | any two errors other than a codec exception have different messages, so for example the "only one source" and "must pass" errors can be told apart |
| `Waveforms.StatusInMessage` | src/waveform-builder.js:209-211 | the HTTP-status error message is the fixed prefix followed by the decimal status, and the status can be read back from it |
| `Waveforms.StatusMessagesDistinct` | src/waveform-builder.js:209-211 | two status errors have the same message only when their statuses are equal |
| `Waveforms.CheckWaveform` | src/waveform-builder.js:220-229 | the waveform passes iff it has 1 or 2 channels and 8 bits, and then it is returned unchanged; otherwise the channel error comes first, then the 16-bit error (same check at 286-295) |
| `Loading.Classify` | src/waveform-builder.js:201-214 | pending iff readyState ≠ 4; accepted iff done and status 200, or status 206 with a whole-resource range; a rejection carries the event's status (same rule at 393-406) |
| `Loading.RejectedLoadReportsStatus` | src/waveform-builder.js:207-211 | for every rejected load, the status read back from the reported message is the load's own status |
| `Loading.WholePartialAccepted` | src/waveform-builder.js:207-208 | a 206 whose range is `bytes 0-(n-1)/n` is accepted like a 200 |
| `Loading.TruePartialRejected` | src/waveform-builder.js:207-211 | a 206 for any other range is rejected with an error whose message ends in 206 |
| `Selection.UrlFor` | src/waveform-builder.js:188 | `dataUri[requestType]`: the URL stored under the format's response-type name |
| `Selection.FirstUsable` | src/waveform-builder.js:185-192 | the format the loop settles on; any format it returns is in the list and usable |
| `Selection.FirstUsableIsFirst` | src/waveform-builder.js:185-192 | the chosen format is usable (constructor present, URL set) and no earlier format is; nothing is chosen iff no format is usable |
| `Selection.FirstUsableSnoc` | src/waveform-builder.js:185-192 | trying one more format keeps an earlier choice, or else takes the new format if it is usable |
| `Selection.SelectRemoteFormat` | src/waveform-builder.js:185-192 | the loop ends with a set URL iff some format is usable; the request type is then the first usable format and the URL is its URL |
| `Selection.RemoteFormatPriority` | src/waveform-builder.js:185-192 | ArrayBuffer is chosen iff it is usable; JSON only when ArrayBuffer is not usable and JSON is |
| `Selection.RemoteRequest` | src/waveform-builder.js:177-198 | a non-object dataUri gives the TypeError; otherwise no usable format gives the compatibility error; a request uses the first usable format, which is capable, with its non-empty URL |
| `Selection.SelectPayload` | src/waveform-builder.js:263-281 | a non-object waveformData is refused; a valid json is chosen even when arraybuffer is also valid; arraybuffer is chosen only without json; with neither, the compatibility error |
| `Selection.BuildFromLocal` | src/waveform-builder.js:259-300 | a selection failure is reported without consulting the codec; a codec exception becomes the callback's error; a created waveform gets exactly `CheckWaveform`'s outcome (mono/stereo error, else 16-bit error, else success with that waveform) |
| `Builder.InitOptions.GivenSources` | src/waveform-builder.js:88-111 | the truthiness tests `init` makes on dataUri, waveformData, webAudio, audioContext and webAudio.audioBuffer |
| `Builder.Route` | src/waveform-builder.js:87-123 | two or more sources give the "only one source" error; none gives the "must pass" error; exactly one selects its path; a deprecated audioContext always takes the fetch-and-decode path |
| `Builder.RemoteLoadEffect` | src/waveform-builder.js:218-229 | after an accepted remote load, a created waveform goes through the channel/bit check, and a codec exception escapes uncaught |
| `Builder.WebAudioOptions.FromContext` | src/waveform-builder.js:100-102 | the webAudio object built from the deprecated option holds only that audioContext |
| `Builder.WebAudioOptions.NormaliseScale` | src/waveform-builder.js:325-327 | scale becomes `zoomLevels[0]` and no other webAudio field changes (same code at 358-360) |
| `Builder.Request.Send` | src/waveform-builder.js:238 | the request is marked sent |
| `Builder.Request.Abort` | src/waveform-builder.js:431 | one more abort call is recorded on the request |
| `Builder.WaveformBuilder.constructor` | src/waveform-builder.js:25-27 | a new builder has no request in flight |
| `Builder.WaveformBuilder.GetRemoteWaveformData` | src/waveform-builder.js:170-239 | on an error in `RemoteRequest`, that error is called back and `_xhr` is unchanged; otherwise a fresh request with the chosen URL, type and credentials flag is stored in `_xhr` and sent |
| `Builder.WaveformBuilder.BuildFromAudioBuffer` | src/waveform-builder.js:355-370 | the scale is normalised, and the decoder gets the buffer, splitting = multiChannel, scale = `zoomLevels[0]` and the worker disabled |
| `Builder.WaveformBuilder.BuildUsingWebAudio` | src/waveform-builder.js:312-353 | an invalid AudioContext gives the TypeError with nothing changed; otherwise the scale is normalised, then audio is requested if `currentSrc` is set, or else the request waits for `player.canplay` |
| `Builder.WaveformBuilder.RequestAudio` | src/waveform-builder.js:383-427 | an empty media URL returns with no callback and `_xhr` unchanged; otherwise a fresh `arraybuffer` request for the URL is stored in `_xhr` and sent |
| `Builder.WaveformBuilder.OnLoad` | src/waveform-builder.js:200-230 | a pending load does nothing; a rejected load calls back the status error and keeps `_xhr`; only an accepted load clears `_xhr`, then it runs the codec (data) or hands the bytes, context, splitting and current scale to the decoder (audio, 392-418) |
| `Builder.WaveformBuilder.OnError` | src/waveform-builder.js:231-233 | calls back "XHR failed" and leaves `_xhr` unchanged |
| `Builder.WaveformBuilder.OnAbort` | src/waveform-builder.js:234-236 | calls back "XHR aborted" and leaves `_xhr` unchanged |
| `Builder.WaveformBuilder.Abort` | src/waveform-builder.js:429-433 | aborts the request in `_xhr` exactly once when there is one; does nothing otherwise |
| `Builder.WaveformBuilder.Init` | src/waveform-builder.js:87-123 | follows `Route`. A refusal calls back its error with nothing changed. A deprecated audioContext becomes a fresh webAudio object, and the caller's old object is left untouched. The caller's webAudio keeps its audioContext, audioBuffer and multiChannel; only its scale may change, and only on the audio-buffer path or past a valid AudioContext. An invalid AudioContext leaves the scale as it was, or `None` on a fresh webAudio object. Each path then behaves as its strategy's contract states |

## Left out

- `_createXHR` (lines 446-473) is not modelled. This covers the `isXhr2` probe, `open`, the `responseType` try/catch and the XHR2-only `withCredentials`. A `Request` simply records its URL, response type, credentials flag and the `send`/`abort` calls made on it.
- `WaveformData.create` is not modelled. It is the parameter `create`, which returns a waveform (id, channels, bits) or an exception.
- `WaveformData.createFromAudio` is not modelled. The model records the options it is given; its asynchronous result or error goes straight to the caller's callback.
- The `window.ArrayBuffer`, `window.JSON`, `window.AudioContext` and `window.webkitAudioContext` lookups are not modelled. They are the `capabilities` parameter and `ContextValue.isAudioContext`, for a browser that has at least one of the two AudioContext constructors.
- A browser with neither `window.AudioContext` nor `window.webkitAudioContext` is not represented. There the `instanceof` test at line 317 throws a TypeError out of `init`, and no callback is made. The model always gives the web-audio path a constructor to test against.
- An `init` call without `zoomLevels` is not represented: `zoomLevels` is a `seq<int>`, always present. Without it, reading `zoomLevels[0]` at line 325 or 358 throws out of `init`. An empty array is modelled: its first element is `undefined`, written `None`.
- `isObject` and `isArrayBuffer` (from `./utils`) are not part of this model. Their outcomes are inputs: the `Slot` constructors and the `Option` fields of `LocalData`.
- `LocalData` represents a json (or arraybuffer) field that fails its test the same way as a missing field. The builder treats the two cases identically.
- `_peaks.once('player.canplay', …)` is not modelled. Its listener calls `RequestAudio` with the `currentSrc` of that moment; the model reports only `AwaitCanPlay` with the captured options.
- `_peaks._logger` output is not modelled: warnings are I/O.
- `parseInt` loses precision above 2^53, because JavaScript numbers are floating point. The model reads digit strings as unbounded `nat`.
- The XHR status is an unbounded `nat`, not a 16-bit value.
- Asynchronous timing and overlapping `init` calls on one builder are out of scope. Each event is one atomic step.
- An exception thrown by the caller's callback is not modelled. On the local path it would be caught and passed to the callback a second time.
- `multiChannel` left undefined is modelled as `false`.
- A truthy non-object `webAudio` value is modelled as a `WebAudioOptions` with no context, buffer or scale. It reaches the same TypeError.
- URL values that are not strings are not modelled. A falsy URL is the empty string.
- The JavaScript class of each error is not modelled. `OnlyOneSource`, `DataUriNotObject` and `InvalidAudioContext` are `TypeError`s; the rest are plain `Error`s. The model keeps only the message.
