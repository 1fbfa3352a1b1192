# Audio-cut mini-app: the region-selection controller

A model, in Dafny, of the selection controller of an audio-cutting mini-app that
runs inside a chat platform. The user drags a region over a waveform. The
controller corrects the region's edges and publishes them as `startTime` /
`endTime`. "Cut" then sends both edges as `MM:SS` strings to the host bridge.
The controller also drives the engine's mount/teardown lifecycle, with its early
error exits and an `await` on a pre-flight fetch of the audio URL.

Two revisions are modelled:

- `src/App.js` (the current one) is `AppController.SelectionController`, plus the
  pure correction in `RegionCorrection` and the formatting in `Clock`.
- `src/App.jsx` (the earlier one) is `LegacyController.LegacyController`. It does
  no correction, has no liveness flag, and its cleanup never clears the handle.
  Its `formatTime` (src/App.jsx:70-74) is the same text as src/App.js:223-227,
  so both revisions use `Clock.FormatTime`.

Modules:

- `Environment`: the collaborators, reduced to what the controller observes.
  - `Region` is the live region object.
  - `Engine` is the waveform engine handle. It holds the duration `getDuration()`
    reports, the URL it was asked to load, and a `destroy()` counter.
  - `TelegramHost` is the host bridge: `initData` and an outbox of `sendData`
    payloads.
- `Clock`: `formatTime`, over exact reals, for every input.
  - It follows JavaScript: `Math.floor`, a `%` truncated toward zero, `toString`
    with a '-' sign, and `padStart(2, '0')`.
  - Its properties are proved for non-negative times.
  - `ReadClock` is the reading a consumer makes of `MM:SS`. It is the partner of
    `FormatTime`.
- `RegionCorrection`: the `region-updated` correction as a function of the raw
  edges and the reported duration. Times are Dafny `real`.
- `AppController`: the App.js controller as a class.
  - The effect is split at the pre-flight `await` into `Mount` and
    `ResumeAfterPreflight`. A `Cleanup` may run in between.
  - Each engine event is one method.
  - Trace methods at the end exhibit what the code does on particular
    interleavings.
- `LegacyController`: the App.jsx controller, with its own traces.

Points where the code's behaviour may surprise:

- There is no clamp for a negative raw `start`. A width-preserving clamp would
  map `(-2, 3)` to `(0, 5)`; the code leaves `(-2, 3)` as it is (`RegionCorrection.CorrectionExamples`). A negative start then formats
  as `"-1:-2"`, which no `MM:SS` reader accepts (`Clock.NegativeTimeUnreadable`).
- Teardown does not stop the continuation after the pre-flight `await` from
  storing a new engine. `AppController.TeardownDuringPreflight` shows such an
  engine: a new engine is stored after teardown, and the teardown that already
  ran does not destroy it (React runs an effect's cleanup once). The pre-flight
  `setError` at src/App.js:103 is unguarded too
  (`AppController.LateFailureAfterTeardown`). The guarded handlers publish nothing
  after teardown. For the error and region-updated handlers this holds from any
  state (`AppController.NothingPublishedAfterTeardown`). For the outer catch at
  src/App.js:201 it is the `createThrows` case of
  `AppController.SelectionController.ResumeAfterPreflight`.
- The decode handler adds the region with the `startTime`/`endTime` of the first
  render (0 and 2), which its closure captured. It does not use the published
  interval.
- The duration fallback is `getDuration() || 100`. A reported 0 counts as 100
  seconds; clamping is not deferred.
- App.jsx loads the `audioUrl` of the render that ran the effect. On the first
  run that is `""` (`LegacyController.FirstRunLoadsStaleUrl`). Its cleanup can
  destroy one engine twice (`LegacyController.FailedRerunDestroysTwice`).

## Model

| member | source | states |
|---|---|---|
| `Clock.Trunc` | src/App.js:225 | truncation toward zero: below a non-negative input by less than 1, above a negative one by less than 1 |
| `Clock.Remainder60` | src/App.js:225 | JavaScript `% 60` on a real: in [0, 60) for a non-negative dividend, in (-60, 0] for a negative one |
| `Clock.FormatTime` | src/App.js:223-227 | `formatTime`; no ensures of its own: `Clock.FormatTimeLayout`, `Clock.ReadFormatTime` and `Clock.FormatTimeWholeSeconds` state its properties |
| `Clock.Minutes` | src/App.js:224 | `Math.floor(seconds / 60)`; no ensures of its own: `Clock.ClockFields` states its range and relation to the seconds field |
| `Clock.Secs` | src/App.js:225 | `Math.floor(seconds % 60)`; no ensures of its own: `Clock.ClockFields` states its range |
| `Clock.ClockText` | src/App.js:226 | the template literal; no ensures of its own: `Clock.ClockTextLayout` states its layout |
| `Clock.IntToString` | src/App.js:226 | `toString` of an integer, with a leading '-' for a negative one; no ensures of its own: `Clock.NegativeTimeUnreadable` shows the negative case |
| `Clock.NatToDecimal` | src/App.js:226 | `toString` of a natural number; no ensures of its own: `Clock.NatToDecimalShape` and `Clock.DecimalRoundTrip` state its properties |
| `Clock.PadStart` | src/App.js:226 | `padStart`; no ensures of its own: `Clock.PadStartShape` and `Clock.ZeroPadValue` state its properties |
| `Clock.NatToDecimalShape` | src/App.js:226 | `toString` of a natural number: at least one character, only decimal digits, no leading zero, one character exactly when below 10 |
| `Clock.PadStartShape` | src/App.js:226 | `padStart(width, fill)`: length is the larger of width and input length, the input is the suffix, every added character is the fill |
| `Clock.ClockFields` | src/App.js:224-225 | for seconds >= 0: the seconds field is in 0..59, minutes >= 0, and minutes*60 + seconds is the floor of the input, with minutes = floor/60 and seconds = floor mod 60 |
| `Clock.DecimalRoundTrip` | src/App.js:226 | reading back the decimal spelling of n gives n |
| `Clock.ZeroPrefixValue` | src/App.js:226 | one leading '0' does not change the value of a digit string |
| `Clock.ZeroPadValue` | src/App.js:226 | zero padding keeps a digit string all digits and keeps its value |
| `Clock.TwoDigitField` | src/App.js:226 | a field below 100 pads to exactly two characters |
| `Clock.PaddedField` | src/App.js:226 | a padded field is all digits, at least two long, and denotes its number |
| `Clock.Joined` | src/App.js:226 | joining a minutes field, ':' and a two-digit seconds field gives the `MM:SS` layout |
| `Clock.ClockTextLayout` | src/App.js:226 | the template literal, for minutes m and seconds sec < 100, has the layout: digits for m, ':', two digits for sec |
| `Clock.FormatTimeLayout` | src/App.jsx:70-74 | for seconds >= 0: the minutes field has at least two digits and denotes the minutes, then ':', then exactly two digits denoting the seconds |
| `Clock.ReadFormatTime` | src/App.js:223-227 | reading a formatted non-negative time gives back (floor/60, floor mod 60): only the sub-second part is lost |
| `Clock.FormatTimeWholeSeconds` | src/App.js:223-227 | two non-negative times format alike if and only if their whole seconds agree |
| `Clock.FieldsOf` | src/App.js:223-227 | a time whose floor is 60*m + sec, with sec < 60, formats as the template with m and sec |
| `Clock.FormatTimeExamples` | src/App.js:223-227 | 65.4 gives "01:05" and 130.0 gives "02:10" |
| `Clock.FormatTimeScenario` | src/App.js:223-227 | 15.0 gives "00:15" and 30.0 gives "00:30" |
| `Clock.NegativeTimeUnreadable` | src/App.js:223-227 | -2.0 gives "-1:-2", which `ReadClock` rejects |
| `RegionCorrection.EffectiveDuration` | src/App.js:181 | `getDuration() \|\| 100`: never 0, and equal to the reported duration when that is not 0 |
| `RegionCorrection.FixedEnd` | src/App.js:176-179 | the end after the width repair is above `start`, and is the raw end when the raw width is positive |
| `RegionCorrection.Corrected` | src/App.js:176-190 | the end is at most the duration and at most the repaired end. On overshoot the end equals the duration and the start is >= 0. Otherwise the start is the raw start. With duration > 0, start < end |
| `RegionCorrection.EmptyWidthRepaired` | src/App.js:176-179 | with raw start >= end and start + 0.1 within the duration, the result is (start, start + 0.1) |
| `RegionCorrection.OvershootShiftsLeft` | src/App.js:182-186 | on overshoot the result is (max(0, d - w), d), where w is the repaired width. The width is kept whenever w <= d |
| `RegionCorrection.UnchangedIff` | src/App.js:176-187 | with duration > 0, an edit is left as it is if and only if start < end <= duration, negative starts included |
| `RegionCorrection.CorrectedIdempotent` | src/App.js:176-190 | correcting the corrected interval again, with the same reported duration, changes nothing (for every reported duration) |
| `RegionCorrection.UnknownDurationFallsBack` | src/App.js:181 | a reported duration of 0 behaves as 100 seconds and bounds the end by 100 |
| `RegionCorrection.CorrectionExamples` | src/App.js:176-190 | (5,3,100) gives (5,5.1); (95,101,100) gives (94,100); (-2,3,100) stays (-2,3); (10,130,0) gives (0,100) |
| `AppController.Contains` | src/App.js:98 | `includes` is true if and only if the pattern occurs at some position |
| `AppController.ShiftOccurrence` | src/App.js:98 | when the pattern is not at position 0, it occurs in the string if and only if it occurs in the string without its first character |
| `AppController.PreflightCheck` | src/App.js:94-104 | the pre-flight passes if and only if the fetch resolved, the status is ok, and a `content-type` header containing `audio/mpeg` is present |
| `AppController.AudioMpegPasses` | src/App.js:97-100 | `audio/mpeg` with or without parameters passes; `audio/ogg` and a non-ok status fail with their own causes |
| `AppController.UrlGiven` | src/App.js:71 | `!audioUrlValue` negated: the parameter is present and non-empty; no ensures of its own: the `Mount` contract uses it for the missing-URL exit |
| `AppController.SelectionController.constructor` | src/App.js:7-15 | initial state: (0, 2) published, no error, no success, not mounted, no engine |
| `AppController.SelectionController.Mount` | src/App.js:17-75 | in order: no container gives an error and no cleanup; no host gives an error; no or empty `audio` gives an error; otherwise the URL is kept and the effect waits on the pre-flight |
| `AppController.SelectionController.ResumeAfterPreflight` | src/App.js:85-123 | a failed check sets its error even after teardown. A throwing create sets an error only while mounted. Otherwise a fresh engine, asked to load the URL, is stored and wired whether or not still mounted |
| `AppController.SelectionController.OnEngineError` | src/App.js:125-139 | sets the load error only when wired and mounted; otherwise nothing changes |
| `AppController.SelectionController.OnDecode` | src/App.js:158-167 | once wired, appends one fresh region with id "selection", start 0 and end 2; otherwise nothing |
| `AppController.SelectionController.OnRegionUpdated` | src/App.js:170-191 | for the "selection" region while mounted: both the published pair and the region's edges become `Corrected(raw start, raw end, reported duration)`. Otherwise neither the region nor the published pair changes |
| `AppController.SelectionController.Cleanup` | src/App.js:208-220 | clears `isMounted` and the handle, then destroys the engine it held exactly once, whether `destroy()` throws or not. Without a registered cleanup nothing happens |
| `AppController.SelectionController.HandleCut` | src/App.js:229-264 | with a host and non-empty `initData`: appends exactly one payload of the two formatted edges and sets the success message. Otherwise: sets the send error and sends nothing |
| `AppController.SelectionController.View` | src/App.js:340-359 | the error screen is shown if and only if an error is set, and it carries that error; otherwise the editor shows both formatted edges and the success flag |
| `AppController.TeardownTwiceDestroysOnce` | src/App.js:208-220 | a mounted, wired session torn down twice destroys its engine once, even with a throwing `destroy()` |
| `AppController.TeardownTwiceFromAnyState` | src/App.js:208-220 | from every valid state with an engine in the handle, two teardowns destroy that engine exactly once and leave the controller unmounted with an empty handle |
| `AppController.NothingPublishedAfterTeardown` | src/App.js:125-191 | from every valid state, after the cleanup the error and region-updated handlers change neither the error nor the published edges nor the region |
| `AppController.TeardownDuringPreflight` | src/App.js:85-116 | teardown during the pre-flight `await` still stores a new engine, with zero destroys: the teardown that already ran does not destroy it (React runs an effect's cleanup once). Its error and region handlers publish nothing, and the region is untouched |
| `AppController.LateFailureAfterTeardown` | src/App.js:101-104 | teardown during the pre-flight `await`, then a 404, still sets the pre-flight error |
| `AppController.DecodedTrack` | src/App.js:75-167 | mounting with an `audio` parameter, passing the pre-flight and decoding a 30 s track leaves a live, wired controller with no error and the selection region at 0..2 |
| `AppController.DragPastEnd` | src/App.js:170-191 | with a 30 s track, a drag to 25..40 is published as 15..30, and the region is snapped to 15..30 |
| `AppController.DragPastEndThenCut` | src/App.js:229-243 | after that drag, the cut sends exactly one payload with the formatted 15 and 30, and shows the success message |
| `LegacyController.AudioUrlOrDefault` | src/App.jsx:21-23 | never empty: the `audio` parameter when present and non-empty, otherwise the fixed default URL |
| `LegacyController.LegacyController.constructor` | src/App.jsx:6-10 | initial state: (0, 0) published, no error, empty URL, no engine |
| `LegacyController.LegacyController.RunEffect` | src/App.jsx:12-59 | stores the chosen URL but loads the URL of the rendering pass. On success it holds a fresh engine and adds one fresh region with id "cut", start 0 and end 10. A throwing create sets the error and leaves the previous handle in place |
| `LegacyController.LegacyController.OnRegionUpdated` | src/App.jsx:42-45 | once a handler is registered, publishes the region's edges verbatim, for any region id |
| `LegacyController.LegacyController.Cleanup` | src/App.jsx:61-65 | calls `destroy()` on whatever the handle holds and does not clear it |
| `LegacyController.LegacyController.HandleCut` | src/App.jsx:68-90 | with a host, appends exactly one payload of the two formatted edges; without one, nothing is sent |
| `LegacyController.FirstRunLoadsStaleUrl` | src/App.jsx:39 | the first effect run loads ""; after the URL is stored the re-run loads the default track, and the first engine is destroyed once |
| `LegacyController.FailedRerunDestroysTwice` | src/App.jsx:56-65 | a re-run whose create throws leaves the old handle, so the next cleanup destroys that engine a second time |
| `LegacyController.PassThroughPublishesAnything` | src/App.jsx:42-45 | a foreign region with start 5 > end 3 is published as (5, 3) |
| `Environment.Engine.Load` | src/App.js:155 | `load(url)` records the URL and leaves the duration and the destroy count alone |
| `Environment.Engine.Destroy` | src/App.js:214 | each `destroy()` adds one to the engine's counter; whether it throws is the engine's fixed behaviour |
| `Environment.TelegramHost.SendData` | src/App.js:242 | `sendData` appends its payload to the outbox |

## Left out

- The waveform engine and its regions plug-in are external. Rendering, decoding,
  `region.play` and `stopPropagation` on region click (src/App.js:193-196) are
  left out. So are the `load`/`ready`/logging-only `decode` handlers. The engine
  is a handle with a reported duration, a loaded URL and a `destroy()` counter.
  The duration is set by the engine's own decode (`Engine.FinishDecode`).
- The host bridge calls `ready`, `expand`, `BackButton` and `close` are left out,
  as are the delayed `close` timers (src/App.js:244-246, 299-301). The
  `initDataUnsafe` / info object (src/App.js:36-49) is left out too. The host
  keeps only `initData` and an outbox.
- All network I/O is left out: the telemetry POSTs to `api/log`, the `handleTest`
  request (src/App.js:284-338) and `api/log.js`. The pre-flight GET is reduced to
  its outcome (`FetchResult`).
- Error and success texts are causes (`ErrorCause`) and a flag, not the displayed
  strings. `JSON.stringify` of the payload is left out: the payload is a record
  of the two strings.
- Floating point is left out: times are exact reals. The rounding of `+ 0.1` and
  NaN durations are not modelled. `formatTime` of a negative time is modelled on
  reals with JavaScript's truncating `%`.
- Asynchrony is left out. The `await` at src/App.js:85 is the split between two
  methods, and teardown may be called between them in a sequential trace. No
  other interleaving is modelled.
- Exceptions not named in the model are left out: from `ready`/`expand`, from
  `registerPlugin`/`load`, and from `sendData`. A `destroy()` that throws in the
  App.jsx cleanup would propagate; the model only counts the call.
- JSX markup and styling are left out, except the error-view switch and the
  editor's two times and success message (src/App.js:340-359).
- Events from an engine after its `destroy()` are not excluded: the model lets a
  destroyed engine still fire `decode` (`AppController.SelectionController.OnDecode`)
  or `region-updated` (`LegacyController.LegacyController.OnRegionUpdated`), whereas
  the library removes an engine's listeners when it is destroyed.
