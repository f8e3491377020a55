# Speech-to-text session core, modelled in Dafny

This project models the core of a browser speech-to-text widget. The core has two parts:

- the `useSpeechRecognition` hook. It drives a continuous speech-recognition engine, merges the engine's incremental results into a final transcript and an interim hypothesis, and, in threshold mode, starts the engine when the microphone level rises above a configurable threshold.
- the pure view derivations of the `SpeechToText` component: which action the record button triggers, the edit gate of the text area, the displayed text, the disabled buttons, the status line and the word/character counts.

Modules:

- `TranscriptAssembler` (`transcript.dfy`): the `onresult` merge loop as method `Merge`. It is proved against the specification functions `FinalText` and `InterimText`, together with append, window and composition lemmas.
- `SpeechRecognition` (`controller.dfy`): the hook as class `SpeechController`, one field per piece of state.
  - `Snapshot()` gives all fields as one `State` value. Every method states its new snapshot in terms of the old one.
  - `Consistent` is the invariant every method keeps. It says: threshold and level lie in [0,1]; the final-text ref equals the transcript; error messages are non-empty; without support the error is the "not supported" message; without monitoring the level is 0 and the above-threshold flag is false.
  - `Started`, `Stopped` and `AfterFrame` are the transitions of `startListening`, `stopListening` and one monitoring frame, as functions.
- `SpeechToTextView` (`view.dfy`): the component as functions of `State`.
- `JsText` (`js_text.dfy`): JavaScript's `trim` and `split(/\s+/)` over ECMAScript white space. It also proves that the component's word count equals the number of maximal non-space runs.
- `Wrappers` (`wrappers.dfy`): `Option`, standing for JavaScript's `null`.

The engine, the microphone and the frame scheduler are modelled at their interface:

- Every `start()`/`stop()` call the hook makes is appended to the field `engineLog`.
- The engine's callbacks arrive as values of the datatype `Event` (`Start | End | Error(code) | Result(resultIndex, results)`).
- Whether the engine accepts a `start()` and whether the microphone can be opened are boolean parameters.
- The analyser's level is a real parameter of `OnFrame`, in [0,1].
- A scheduled animation frame is the flag `monitoring`. An initialised audio context is the flag `audioReady`.

Where the code is easy to misread, the model follows the code:

- `startListening` has no "already listening" guard. In manual mode it calls `start()` again, and a refused start sets the error "Failed to start speech recognition".
- The threshold gate is level-triggered. Every frame above the threshold asks the engine to start while no `onstart` has arrived, and a refused start is swallowed (`EveryLoudFrameRequestsStart`); it is not edge-triggered (one start per false-to-true crossing).
- `changeLanguage` and `setThresholdMode` store the new setting first and then stop a listening session. They move the session to not-listening only through the engine's later `End` event.
- `setThresholdMode` calls the `stopListening` of the current render, and that function still sees the previous mode. So turning threshold mode off while listening also stops the audio monitoring, and turning it on does not (`SpeechController.SetThresholdMode`, `StopAs`).
- The component destructures `setManualTranscript`, but the hook does not return it, so the name is `undefined`. The model keeps the edit gate (`EditGate`) and has no manual-overwrite operation.
- A microphone that cannot be opened sets the message "Failed to access microphone for audio level monitoring". It does not set the "Failed to start speech recognition" message.

## Model

| member | source | states |
|---|---|---|
| TranscriptAssembler.Window | src/hooks/useSpeechRecognition.js:153 | the processed entries are exactly those from `resultIndex` on, in order; the window is empty when the index is past the end |
| TranscriptAssembler.Merge | src/hooks/useSpeechRecognition.js:149-165 | the loop from `resultIndex` yields the old final text followed by `FinalText` of the window, and a fresh interim text equal to `InterimText` of the window (the old interim text plays no part) |
| TranscriptAssembler.FinalTextAppend | src/hooks/useSpeechRecognition.js:155-156 | the final text of a concatenation of entries is the concatenation of their final texts: final entries are appended in order, each with one space |
| TranscriptAssembler.InterimTextAppend | src/hooks/useSpeechRecognition.js:157-158 | the interim text of a concatenation is the concatenation of the interim texts, in order |
| TranscriptAssembler.NoFinalsAppendNothing | src/hooks/useSpeechRecognition.js:151-156 | a window with no final entry leaves the final text unchanged |
| TranscriptAssembler.AllFinalsNoInterim | src/hooks/useSpeechRecognition.js:150-158 | a window with no non-final entry yields the empty interim text |
| TranscriptAssembler.WindowIgnoresEarlierResults | src/hooks/useSpeechRecognition.js:153 | two result lists that agree from `resultIndex` on give the same window, so earlier entries affect neither text |
| TranscriptAssembler.SuccessiveCallbacksCompose | src/hooks/useSpeechRecognition.js:151-164 | a callback for a list, then one for its extension starting at the old length, leave the same final text as one callback over the extended list, so nothing is lost or duplicated; the second interim text is that of the new entries only |
| TranscriptAssembler.InterimThenFinal | src/hooks/useSpeechRecognition.js:149-165 | the interim "hello" then the final "hello world" give final "" / interim "hello" and then final "hello world " / interim "" |
| SpeechRecognition.Clamp | src/hooks/useSpeechRecognition.js:225 | the stored threshold lies in [0,1], equals the input inside that range, is 0 below it and 1 above it |
| SpeechRecognition.ClampIdempotent | src/hooks/useSpeechRecognition.js:225 | clamping an already clamped threshold changes nothing |
| SpeechRecognition.Stopped | src/hooks/useSpeechRecognition.js:194-202 | with an engine, stop requests one engine stop; only in threshold mode does it also end monitoring with level 0 and the above-threshold flag false, and in manual mode nothing but the log changes; without an engine stop changes nothing; the invariant is kept |
| SpeechRecognition.Started | src/hooks/useSpeechRecognition.js:175-192 | without support nothing changes; in manual mode one engine start is requested and the error becomes None if the engine accepts, otherwise "Failed to start speech recognition", and nothing else changes; in threshold mode no engine call is made: with an existing audio context or an opened microphone the error is cleared and the context is ready and monitoring runs, otherwise only the error changes, to "Failed to access microphone for audio level monitoring" |
| SpeechRecognition.AfterFrame | src/hooks/useSpeechRecognition.js:76-91 | a frame stores the level and sets the above-threshold flag to `level > threshold`; a start is requested iff threshold mode is on, the level is above the threshold and the session is not listening; nothing else changes, the error included |
| SpeechRecognition.Frames | src/hooks/useSpeechRecognition.js:93 | a run of frames keeps the invariant and the monitoring, only extends the engine log, and changes nothing but the level, the above-threshold flag and the log |
| SpeechRecognition.EveryLoudFrameRequestsStart | src/hooks/useSpeechRecognition.js:83-90 | in threshold mode, before an `onstart`, a run of frames requests exactly one engine start per frame above the threshold and leaves the error unchanged |
| SpeechRecognition.ListeningFramesRequestNothing | src/hooks/useSpeechRecognition.js:84 | while listening, no run of frames requests an engine start or touches the transcript or the error |
| SpeechRecognition.SpeechController.constructor | src/hooks/useSpeechRecognition.js:4-31 | the initial state: empty texts, not listening, language en-US, threshold 0.1, level 0, manual mode, and the "not supported" error iff the browser has no engine |
| SpeechRecognition.SpeechController.HandleEvent | src/hooks/useSpeechRecognition.js:135-165 | `Start` sets listening and clears the error; `End` clears listening; `Error(c)` sets the error to "Speech recognition error: " + c and clears listening; none of the three touches the texts; `Result` sets the transcript and the ref to the merged final text and replaces the interim text; nothing else changes |
| SpeechRecognition.SpeechController.StartListening | src/hooks/useSpeechRecognition.js:175-192 | the new state is `Started` of the old one; there is no guard on an already listening session |
| SpeechRecognition.SpeechController.StopAs | src/hooks/useSpeechRecognition.js:194-202 | the new state is `Stopped` of the old one with the given rendered mode |
| SpeechRecognition.SpeechController.StopListening | src/hooks/useSpeechRecognition.js:194-202 | the new state is `Stopped` of the old one with the current mode |
| SpeechRecognition.SpeechController.StopAudioMonitoring | src/hooks/useSpeechRecognition.js:115-122 | monitoring ends, level becomes 0 and above-threshold false, whatever the monitoring state was; nothing else changes |
| SpeechRecognition.SpeechController.ResetTranscript | src/hooks/useSpeechRecognition.js:204-208 | transcript, interim text and final-text ref become "" whatever the state; nothing else changes |
| SpeechRecognition.SpeechController.ChangeLanguage | src/hooks/useSpeechRecognition.js:210-215 | the language is always stored; a stop is applied iff the session was listening |
| SpeechRecognition.SpeechController.SetThresholdMode | src/hooks/useSpeechRecognition.js:217-222 | the mode is always stored; a stop is applied iff the session was listening, and that stop uses the previous mode |
| SpeechRecognition.SpeechController.UpdateThreshold | src/hooks/useSpeechRecognition.js:224-226 | the threshold becomes `Clamp(x)`; nothing else changes |
| SpeechRecognition.SpeechController.OnFrame | src/hooks/useSpeechRecognition.js:65-93 | the new state is `AfterFrame` of the old one at the given level |
| SpeechToTextView.Toggle | src/components/SpeechToText.js:44-50 | the record button calls `stopListening` iff listening, otherwise `startListening` |
| SpeechToTextView.HandleToggle | src/components/SpeechToText.js:44-50 | clicking while listening gives `Stopped` of the state, otherwise `Started` |
| SpeechToTextView.EditGate | src/components/SpeechToText.js:52-58 | an edit is ignored iff listening; otherwise the edited value is forwarded unchanged |
| SpeechToTextView.DisplayedText | src/components/SpeechToText.js:238 | the text area shows the transcript as a prefix; then, only if the interim text is non-empty, one space followed by the interim text |
| SpeechToTextView.RecordDisabled | src/components/SpeechToText.js:118 | the record button is disabled iff the error is set and non-empty (JavaScript truthiness) |
| SpeechToTextView.ClearDisabled | src/components/SpeechToText.js:129 | the clear button is disabled iff the transcript consists of white space only |
| SpeechToTextView.StatusText | src/components/SpeechToText.js:199-202 | in threshold mode the status says "Sound detected!" or "Waiting for sound..." by the above-threshold flag, otherwise "Listening..." or "Ready to listen" by the listening flag; each line is shown in exactly one situation |
| SpeechToTextView.TranscriptStats | src/components/SpeechToText.js:252-256 | counts are shown iff the transcript is non-empty; the word count is the number of maximal non-space runs and the character count the length |
| SpeechToTextView.Render | src/components/SpeechToText.js:83-96 | only the "not supported" screen is produced iff speech recognition is unsupported |
| SpeechToTextView.UnsupportedIgnoresState | src/components/SpeechToText.js:83-96 | without support the rendered screen is the same whatever else the state holds |
| SpeechToTextView.RecordDisabledIffError | src/components/SpeechToText.js:100-118 | in every reachable state the record button is disabled exactly when an error is set, and the banner shows that error |
| JsText.Trim | src/components/SpeechToText.js:129 | `trim()` gives the text with an all-space prefix and an all-space suffix cut off; the result is "" iff the text is all white space, and otherwise starts and ends with a non-space character |
| JsText.TrimIsInfix | src/components/SpeechToText.js:129 | cutting the leading and then the trailing white space leaves the infix between an all-space prefix and an all-space suffix |
| JsText.TrimStart | src/components/SpeechToText.js:129 | exactly the leading white space is dropped |
| JsText.TrimEnd | src/components/SpeechToText.js:129 | exactly the trailing white space is dropped |
| JsText.TakeWord | src/components/SpeechToText.js:254 | the longest space-free prefix |
| JsText.SplitCountsRuns | src/components/SpeechToText.js:254 | `split(/\s+/)` followed by the non-empty filter leaves one piece per maximal non-space run |
| JsText.WordCount | src/components/SpeechToText.js:254 | the word count `trim().split(/\s+/).filter(...).length` equals the number of maximal non-space runs |
| JsText.SplitWs | src/components/SpeechToText.js:254 | `split(/\s+/)` cuts the text at its maximal white-space runs: joining the pieces with the runs `SplitSeps` gives back the text, and there is one more piece than runs; no piece holds white space; only the first and the last piece can be empty; the first is non-empty when the text starts with a non-space; the empty text gives one empty piece |
| JsText.SplitSeps | src/components/SpeechToText.js:254 | the separators `split(/\s+/)` cuts at are each a non-empty run of white space |
| JsText.NonEmptyParts | src/components/SpeechToText.js:254 | `.filter(word => word.length > 0)` keeps every non-empty piece as often as it occurs and drops every empty one (as multisets), so no result piece is empty and the result is never longer than its input; a list without empty pieces is kept whole, a list of empty pieces becomes empty |
| JsText.OnlySpaceHasNoWords | src/components/SpeechToText.js:254 | a transcript of white space only, the empty one included, has 0 words |
| JsText.WordCountAppendWord | src/components/SpeechToText.js:254 | appending white space and then a space-free word adds exactly one word |

## Left out

- RMS level computation (square root over the analyser's bytes, division by 255): floating-point work. The level is an input to `OnFrame`, assumed in [0,1].
- Audio capture and its lifecycle: `getUserMedia`, the audio context, the analyser set-up (`fftSize` 256, smoothing 0.3), `resume()` of a suspended context, and `close()` on unmount. These are browser I/O behind awaits. Microphone success is the `microphoneGranted` parameter, and an initialised context is the `audioReady` flag.
- Frame scheduling: `requestAnimationFrame` and `cancelAnimationFrame` are the `monitoring` flag. `monitorAudioLevel` runs its first frame at once; the model treats that frame as the first `OnFrame` call.
- Several frame loops at once: each threshold-mode `startListening` starts a new loop, while the frame ref holds only the latest. The model has one flag, so a loop that survives a stop is not represented.
- ListeningFramesRequestNothing: holds of the model's gate, which reads the current state, and not of the running frame loop. That loop belongs to the `monitorAudioLevel` closure captured when `startListening` was called, when `isListening` was false. So after `onstart`, every loud frame still calls `start()`, and the engine's refusal is swallowed. Likewise, switching to manual mode while idle leaves a loop that keeps auto-starting with the captured threshold mode.
- Stale closures of React hooks: `updateLevel` keeps the `threshold`, `isThresholdMode` and `isListening` of the render that started the monitoring. `OnFrame` reads the current state instead. The one stale value that decides a branch inside an action (the mode seen by `setThresholdMode`'s stop) is modelled.
- Handler re-registration on a language change and the engine's configuration flags (continuous, interim results, `lang`, one alternative). These are plain assignments; the engine is outside the model.
- Browser support detection: `isSupported` is a constructor argument. The engine exists iff it is true, and engine events need it.
- An exception thrown by `resume()` inside `startListening` would also show "Failed to start speech recognition". It is not modelled because `resume()` is left out.
- `setManualTranscript` is not modelled as an operation. The hook does not provide it. So an edit that the gate forwards calls `undefined`, and the change handler throws a `TypeError`. The state is left unchanged, and the controlled text area keeps showing the old value.
- JSX markup, CSS, the static language table, the "Retry" page reload, the placeholder text and all commented-out code (clipboard, download, settings panel, level bar).
- `TranscriptStats`: the character count is the number of Unicode scalar values. JavaScript's `length` counts UTF-16 code units, which differs for characters outside the Basic Multilingual Plane.
- `Clamp`: covers real numbers only. `NaN`, which `Math.max`/`Math.min` would propagate, is not modelled. No live code calls `updateThreshold`: the only caller is the threshold slider, and it is commented out.
- `src/App.js`: composes the component and has no logic.
