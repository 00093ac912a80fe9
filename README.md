# Vocal pitch detector and display store, modelled in Dafny

This project models the core of a browser app that shows the pitch of a singing voice.

`src/audio/PitchDetector.ts` holds the `PitchDetector` class. It has a start/stop/analyze lifecycle guarded by `isRunning`. Its `detectPitch` runs a raw autocorrelation argmax over one analyser frame and then applies an accept/reject filter: 80–1100 Hz and confidence at least 0.3. Its `frequencyToNote` maps a frequency to a note name, an octave and cents, with A4 = 440 Hz = MIDI 69.

`src/ui/store/useStore.ts` holds the app store. Its `setPitchData` is a debounce rule. Every value it accepts is appended to a history capped at 100 entries.

Modules:

- `Wrappers` (`wrappers.dfy`): `Option`, which stands for the source's `null`.
- `PitchDetection` (`pitch_detector.dfy`):
  - the autocorrelation as functions (`Lagged`, `Correlation`, `Scan`, `Detect`);
  - a declarative reference statement of an accepted frame (`IsFirstArgMax`, `Accepts`);
  - the note mapping (`JsRound`, `JsRem12`, `NoteFromHalfSteps`, `FrequencyToNote`);
  - the `PitchDetector` class: its fields, `Start`, `Stop`, `Analyze`, and the loop method `DetectPitch`, proved equal to `Detect`.
- `AppStore` (`store.dfy`):
  - the pure transitions (`SliceFromEnd`, `Appended`, `IsNewPitch`, `SetPitchDataStep`);
  - lemmas about those transitions;
  - the `Store` class, whose methods apply the transitions and say that every other field stays the same.

Modelling choices:

- Samples, frequencies and confidences are `real`.
- `Math.log2` is a parameter `log2: real -> real`. The lemmas that need its properties require them: `log2(1) = 0`, or monotone with `log2(1/8) = -3` and `log2(4) = 2`.
- `Math.round` is `Floor(x + 0.5)`, which rounds halves upwards. JavaScript's truncating `%` is `JsRem12`. `Math.floor` of a quotient by 12 is Dafny's Euclidean `/`, which equals floor for a positive divisor.
- A `maxLag` of 0 gives `48000 / 0 = Infinity` in the source, and the `> 1100` test rejects it. The model writes this as an explicit rejecting branch.
- `noteNames[i]` for an index outside 0..11 is `undefined` in JavaScript. The model writes it as `None`.
- Browser acquisition is an `Environment` value. It says whether `getUserMedia` grants a stream, which stream it grants, and whether a missing `AudioContext` can be created. Streams, source nodes and analysers are small values that record whether a stream is live and whether the source is connected.

Consequences proved about the code as written:

- `detectPitch` visits lag 0 first, and only a strictly larger correlation displaces it. An accepted frame therefore has a confidence above 1 (`DetectAcceptedBounds`). A frame of fewer than 90 samples is never accepted. An all-zero frame is always rejected.
- If `start` fails while creating the `AudioContext`, the microphone stream it just acquired stays in `mediaStream` and stays live. `isRunning` stays false, so a later `stop` returns early and does not release that stream (`LeakedStreamScenario`).

What the code does not do:

- The code has no RMS gate.
- The correlation is not normalized, and every lag in `[0, n/2)` is searched instead of a restricted range.
- Confidence is not confined to [0, 1]; an accepted confidence exceeds 1.
- The only smoothing is the note/octave/5-cents rule of `setPitchData`. There is no 5 Hz frequency tolerance, no refresh interval and no reset after silence.
- `stop` keeps the `AudioContext` and the idle nodes.

## Model

| member | source | states |
|---|---|---|
| `PitchDetection.Scan` | src/audio/PitchDetector.ts:90-104 | the running maximum after any prefix of lags is non-negative, and its lag is 0 or one of the visited lags |
| `PitchDetection.ScanIsFirstArgMax` | src/audio/PitchDetector.ts:90-104 | after visiting lags 0..k-1, `maxCorrelation ≥ 0` and is at least every visited correlation. It stays 0 with `maxLag = 0` when no correlation is positive. Otherwise `maxLag` is the smallest lag whose correlation equals the maximum |
| `PitchDetection.FirstArgMaxUnique` | src/audio/PitchDetector.ts:100-103 | two lags that are each the first argmax of the same frame are equal, so the strictly-greater update picks one lag |
| `PitchDetection.ScanFindsFirstArgMax` | src/audio/PitchDetector.ts:93-104 | if a lag is the first argmax and its correlation is positive, the loop ends at that lag with that correlation |
| `PitchDetection.LaggedNeedsEnergy` | src/audio/PitchDetector.ts:93-107 | `correlations[0]` (the first half's energy) is never negative, and it is positive whenever any lagged sum is non-zero, so the confidence division is defined when `maxLag > 0` |
| `PitchDetection.PitchDetector.DetectPitch` | src/audio/PitchDetector.ts:87-115 | the nested loops that fill `correlations`, track the strict running maximum and filter the result compute exactly `Detect` of the buffer. Every read `buffer[i + lag]` is in bounds |
| `PitchDetection.DetectSound` | src/audio/PitchDetector.ts:87-115 | every non-null result comes from the first lag of maximal positive correlation, with `frequency·lag = 48000` and `confidence·corr[0] = corr[lag]`, and it passes the 80–1100 Hz and 0.3 filter |
| `PitchDetection.DetectComplete` | src/audio/PitchDetector.ts:87-115 | every estimate the declarative statement describes is the one `detectPitch` returns |
| `PitchDetection.DetectIffAccepts` | src/audio/PitchDetector.ts:87-115 | `detectPitch` returns `e` if and only if the declarative statement accepts `e` |
| `PitchDetection.DetectAcceptedBounds` | src/audio/PitchDetector.ts:106-114 | an accepted result has 80 ≤ frequency ≤ 1100 and confidence ≥ 0.3. Because lag 0 must be strictly beaten, its confidence is above 1. Its frame has at least 90 samples |
| `PitchDetection.AcceptedLag` | src/audio/PitchDetector.ts:100-114 | every accepted estimate has a lag that is the first argmax and satisfies the declarative acceptance |
| `PitchDetection.AcceptedAtBounds` | src/audio/PitchDetector.ts:100-110 | an estimate accepted at a first argmax has confidence above 1 (corr[lag] > corr[0] > 0) and comes from a frame of at least 90 samples (lag ≥ 44) |
| `PitchDetection.SilenceRejected` | src/audio/PitchDetector.ts:89-112 | an all-zero or empty frame leaves `maxLag = 0`, whose infinite frequency is rejected |
| `PitchDetection.JsRound` | src/audio/PitchDetector.ts:123 | `Math.round` gives the integer r with r − 0.5 ≤ x < r + 0.5 (nearest integer, halves upwards) |
| `PitchDetection.JsRem12` | src/audio/PitchDetector.ts:125 | JavaScript's `% 12` is congruent to its dividend modulo 12. It lies in 0..11 for a non-negative dividend and in −11..0 for a negative one |
| `PitchDetection.NoteName` | src/audio/PitchDetector.ts:118-132 | `noteNames[index]` is defined exactly for indices 0..11 |
| `PitchDetection.CentsWithinHalfSemitone` | src/audio/PitchDetector.ts:122-129 | cents = round((exact − round(exact))·100) always lies in [−50, 50] |
| `PitchDetection.MidiDecomposition` | src/audio/PitchDetector.ts:123-125 | for MIDI ≥ 12 the octave is ≥ 0, the name is `noteNames[(midi−12) mod 12]`, and 12·octave + index + 12 = midi |
| `PitchDetection.BelowC0NameUndefined` | src/audio/PitchDetector.ts:123-132 | below MIDI 12 the truncating `%` makes the name `undefined` exactly when midi is not a multiple of 12 |
| `PitchDetection.TemperedNoteRoundTrip` | src/audio/PitchDetector.ts:122-135 | a whole number of half-steps maps to the octave and pitch class it was built from, with 0 cents. For octave ≥ 0 the name is `noteNames[index]` |
| `PitchDetection.A440IsA4` | src/audio/PitchDetector.ts:117-135 | 440 Hz maps to note "A", octave 4, 0 cents |
| `PitchDetection.AcceptedFrequencyHasNote` | src/audio/PitchDetector.ts:110-125 | every frequency in 80–1100 Hz maps to a named note (MIDI ≥ 12) in octaves 1..6 |
| `PitchDetection.Lagged` | src/audio/PitchDetector.ts:94-97 | the inner loop's sum, accumulated from index 0 up; `LaggedNeedsEnergy` proves its lag-0 value non-negative and positive whenever any lagged sum is non-zero, and `DetectPitch`'s inner invariant ties the loop to it |
| `PitchDetection.Correlation` | src/audio/PitchDetector.ts:94-98 | `correlations[lag]` over the first half of the frame; `DetectPitch`'s outer invariant proves every stored entry equals it |
| `PitchDetection.Detect` | src/audio/PitchDetector.ts:87-115 | `detectPitch` as a function; `DetectIffAccepts` proves it returns exactly the estimates the declarative statement accepts, `DetectAcceptedBounds` its filter bounds, `SilenceRejected` the all-zero case |
| `PitchDetection.MidiNote` | src/audio/PitchDetector.ts:122-123 | `Math.round(69 + halfSteps)`; by `JsRound` it is the nearest integer to the exact half-step value, halves upwards |
| `PitchDetection.NoteFromHalfSteps` | src/audio/PitchDetector.ts:117-135 | `frequencyToNote` given the half-steps from A4; `CentsWithinHalfSemitone`, `MidiDecomposition`, `BelowC0NameUndefined` and `TemperedNoteRoundTrip` state its properties |
| `PitchDetection.FrequencyToNote` | src/audio/PitchDetector.ts:117-135 | `frequencyToNote(frequency)` with `Math.log2` supplied; `A440IsA4` and `AcceptedFrequencyHasNote` state its properties |
| `PitchDetection.WithNote` | src/audio/PitchDetector.ts:81-84 | the spread of the estimate and its note; `Analyze`'s ensures states the merged result |
| `PitchDetection.PitchDetector.constructor` | src/audio/PitchDetector.ts:9-32 | a new detector is not running and has no stream, source or analyser. Its AudioContext exists only if creating one succeeded |
| `PitchDetection.PitchDetector.Start` | src/audio/PitchDetector.ts:34-61 | while running it returns at once and changes nothing. A refused microphone re-throws and changes nothing. A failed AudioContext re-throws with the new live stream stored and `isRunning` false. Only a start that stores a live stream, a connected source and an analyser of size 1024 sets `isRunning` |
| `PitchDetection.PitchDetector.Stop` | src/audio/PitchDetector.ts:63-70 | when not running it changes nothing. Otherwise it stops the stream, disconnects the source and clears `isRunning`, and leaves the analyser and context as they were |
| `PitchDetection.PitchDetector.Analyze` | src/audio/PitchDetector.ts:72-85 | null when not running or without an analyser. Otherwise null exactly when `detectPitch` rejects the frame, and else the estimate merged with `frequencyToNote` of its frequency |
| `AppStore.SliceFromEnd` | src/ui/store/useStore.ts:36 | `slice(-k)` is the suffix of length min(k, length of s) |
| `AppStore.Appended` | src/ui/store/useStore.ts:36 | `[...history.slice(-99), data]` never holds more than 100 entries |
| `AppStore.IsNewPitch` | src/ui/store/useStore.ts:30-33 | the replacement test: no current pitch, or a different note or octave, or cents more than 5 apart; `SetPitchDataIffNew` and `SmallCentsChangeIgnored` state what it decides |
| `AppStore.SetPitchDataStep` | src/ui/store/useStore.ts:29-39 | the `setPitchData` transition on pitchData and history; `SetNullKeepsDisplay`, `SetPitchDataIffNew`, `FirstPitchShown`, `SmallCentsChangeIgnored` and `SetPitchDataBoundsHistory` state its properties |
| `AppStore.AddAll` | src/ui/store/useStore.ts:45-48 | repeated `addToHistory` calls; `AddAllKeepsLatest` proves the result is the last 100 entries of the old history followed by the added values |
| `AppStore.AppendedShape` | src/ui/store/useStore.ts:36 | an accepted value gives a history of at most 100 entries that ends with that value and keeps the last min(99, old length) old entries in order |
| `AppStore.AppendedIsWindow` | src/ui/store/useStore.ts:36 | appending equals taking the last 100 entries of the old history extended by the new entry |
| `AppStore.WindowOfWindow` | src/ui/store/useStore.ts:36 | cutting to the last k entries before extending, then again after, is the same as cutting once after |
| `AppStore.AddAllKeepsLatest` | src/ui/store/useStore.ts:45-48 | after any non-empty run of `addToHistory` calls, the history is exactly the last 100 entries of the old history followed by the added values, in order |
| `AppStore.SetNullKeepsDisplay` | src/ui/store/useStore.ts:28-40 | `setPitchData(null)` leaves `pitchData` and `history` unchanged |
| `AppStore.SetPitchDataIffNew` | src/ui/store/useStore.ts:28-40 | `pitchData` changes if and only if the update is non-null and differs in note, octave or cents by more than 5. It then becomes the update and the update is appended; otherwise both fields stay as they were |
| `AppStore.FirstPitchShown` | src/ui/store/useStore.ts:30-37 | with nothing displayed, any non-null update is displayed and appended |
| `AppStore.SmallCentsChangeIgnored` | src/ui/store/useStore.ts:30-39 | the same note and octave within 5 cents leaves display and history unchanged, whatever the frequency and confidence |
| `AppStore.SetPitchDataBoundsHistory` | src/ui/store/useStore.ts:36 | from a history of at most 100 entries, `setPitchData` again leaves at most 100 |
| `AppStore.Store.constructor` | src/ui/store/useStore.ts:21-26 | the initial state: not recording, no pitch, no error, clarity threshold 0.8, direction left-to-right, empty history |
| `AppStore.Store.SetIsRecording` | src/ui/store/useStore.ts:27 | writes `isRecording` only |
| `AppStore.Store.SetPitchData` | src/ui/store/useStore.ts:28-41 | the displayed pitch and the history follow the debounce transition. The history stays within 100 entries and no other field changes |
| `AppStore.Store.SetError` | src/ui/store/useStore.ts:42 | writes `error` only |
| `AppStore.Store.SetClarityThreshold` | src/ui/store/useStore.ts:43 | writes `clarityThreshold` only |
| `AppStore.Store.SetLeaderDirection` | src/ui/store/useStore.ts:44 | writes `leaderDirection` only |
| `AppStore.Store.AddToHistory` | src/ui/store/useStore.ts:45-48 | appends under the same 100-entry cap and order, and leaves `pitchData` and every other field alone |
| `AppStore.Store.ClearHistory` | src/ui/store/useStore.ts:49 | empties the history and changes no other field |

## Left out

- Web Audio and the microphone are not modelled as real I/O. This covers `AudioContext` construction, `getUserMedia`, `createMediaStreamSource`, `createAnalyser`, `connect`/`disconnect` and `getFloatTimeDomainData`. They become the `Environment` outcome, the handle values and the time-domain samples passed to `Analyze`. The model assumes `createMediaStreamSource`, `createAnalyser` and `connect` do not fail.
- The getUserMedia constraints (`echoCancellation`, `noiseSuppression`, `autoGainControl` all off) shape the samples the microphone delivers; the model takes those samples as an arbitrary `timeDomain` input and does not model the constraints.
- `smoothingTimeConstant` and `latencyHint` are not modelled: smoothing affects only frequency-domain data, and latency is timing.
- The `console.error` logging before each re-throw (src/audio/PitchDetector.ts:29 and :58) is not modelled.
- The model uses `frequencyBinCount = fftSize / 2`, as the Web Audio standard defines it. The unit test's mock instead reports a bin count of 1024.
- Promises and `async` ordering are not modelled. `start` runs as one atomic step, and the constructor's un-awaited context creation is a plain boolean outcome.
- Floating point is not modelled: `Float32Array` rounding of stored correlations, double-precision sums, NaN and Infinity beyond the `maxLag = 0` rejection, and the float result of `(exact − midi)·100`. All arithmetic is exact over the reals.
- `Math.log2` is a parameter, not a definition. Any result that depends on its values states what it requires of them.
- PitchDetection.AcceptedFrequencyHasNote: states octaves 1..6 rather than the tighter 2..6, because it assumes `log2` only at the powers 1/8 and 4.
- The rendering components, `src/App.tsx`'s animation loop, `app.js`, the permission and service-worker hooks, `src/store/store.ts` and the configuration files are outside this model. They hold no detection or store logic.
