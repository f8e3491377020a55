/**
 * The speech-recognition hook: session state, the recognition engine's event
 * handlers, the user actions and the per-frame threshold gate.
 *
 * The recognition engine and the microphone are outside the model. Each call
 * the hook makes on the engine is recorded, in order, in `engineLog`; whether
 * the engine accepts a `start()` and whether the microphone can be opened are
 * parameters of the operations that depend on them.
 */
module SpeechRecognition {
  import opened Wrappers
  import opened TranscriptAssembler

  /** A callback of the recognition engine. */
  datatype Event =
    | Start
    | End
    | Error(code: string)
    | Result(resultIndex: nat, results: seq<RecognitionResult>)

  /** A call the hook makes on the recognition engine. */
  datatype EngineRequest = StartRequest | StopRequest

  const DefaultLanguage: string := "en-US"
  const DefaultThreshold: real := 0.1
  const UnsupportedMessage: string :=
    "Speech Recognition is not supported in this browser. Please use Chrome, Edge, or Safari."
  const MicrophoneMessage: string := "Failed to access microphone for audio level monitoring"
  const StartFailedMessage: string := "Failed to start speech recognition"
  const EngineErrorPrefix: string := "Speech recognition error: "

  /** Everything the hook holds, as one value. `monitoring` stands for a
      scheduled animation frame, `audioReady` for an initialised audio
      context with its analyser. */
  datatype State = State(
    transcript: string,
    interimTranscript: string,
    finalRef: string,
    isListening: bool,
    isSupported: bool,
    error: Option<string>,
    language: string,
    audioLevel: real,
    threshold: real,
    isThresholdMode: bool,
    isAboveThreshold: bool,
    monitoring: bool,
    audioReady: bool,
    engineLog: seq<EngineRequest>)

  /** The facts every reachable state satisfies. */
  predicate Consistent(s: State) {
    && 0.0 <= s.threshold <= 1.0
    && 0.0 <= s.audioLevel <= 1.0
    && s.finalRef == s.transcript
    && (s.error.Some? ==> s.error.value != "")
    && (!s.isSupported ==> s.error == Some(UnsupportedMessage))
    && (!s.isSupported ==> !s.isListening && !s.audioReady)
    && (s.monitoring ==> s.audioReady)
    && (!s.monitoring ==> s.audioLevel == 0.0 && !s.isAboveThreshold)
  }

  function Max(a: real, b: real): real { if a < b then b else a }
  function Min(a: real, b: real): real { if a < b then a else b }

  /** `Math.max(0, Math.min(1, x))` */
  function Clamp(x: real): (r: real)
    ensures 0.0 <= r <= 1.0
    ensures 0.0 <= x <= 1.0 ==> r == x
    ensures x < 0.0 ==> r == 0.0
    ensures x > 1.0 ==> r == 1.0
  {
    Max(0.0, Min(1.0, x))
  }

  /** Storing an already stored threshold again changes nothing. */
  lemma ClampIdempotent(x: real)
    ensures Clamp(Clamp(x)) == Clamp(x)
  {
  }

  /** The state after `stopListening` as a render that saw `thresholdMode`
      built it: without an engine nothing happens; otherwise the engine is asked
      to stop, and in threshold mode the audio monitoring is stopped too. */
  function Stopped(s: State, thresholdMode: bool): (t: State)
    requires Consistent(s)
    ensures Consistent(t)
    ensures !s.isSupported ==> t == s
    ensures s.isSupported ==> t.engineLog == s.engineLog + [StopRequest]
    ensures s.isSupported && thresholdMode ==> !t.monitoring && t.audioLevel == 0.0 && !t.isAboveThreshold
    ensures s.isSupported && !thresholdMode ==> t == s.(engineLog := s.engineLog + [StopRequest])
    ensures t.(engineLog := s.engineLog, monitoring := s.monitoring, audioLevel := s.audioLevel,
               isAboveThreshold := s.isAboveThreshold) == s
  {
    if !s.isSupported then s
    else if thresholdMode then
      s.(engineLog := s.engineLog + [StopRequest], monitoring := false, audioLevel := 0.0,
         isAboveThreshold := false)
    else s.(engineLog := s.engineLog + [StopRequest])
  }

  /** The state after `startListening`, given whether the microphone can be
      opened and whether the engine accepts `start()`. */
  function Started(s: State, microphoneGranted: bool, engineAccepts: bool): (t: State)
    requires Consistent(s)
    ensures Consistent(t)
    ensures !s.isSupported ==> t == s
    ensures t.transcript == s.transcript && t.interimTranscript == s.interimTranscript
    ensures t.isListening == s.isListening && t.language == s.language && t.threshold == s.threshold
    ensures s.isSupported && !s.isThresholdMode ==>
              t.engineLog == s.engineLog + [StartRequest]
              && (t.error == None <==> engineAccepts)
    ensures s.isThresholdMode ==> t.engineLog == s.engineLog
    ensures s.isSupported && s.isThresholdMode ==>
              (t.monitoring <==> s.audioReady || microphoneGranted)
              && (t.error == None <==> s.audioReady || microphoneGranted)
    ensures s.isSupported && !s.isThresholdMode ==>
              t == s.(engineLog := s.engineLog + [StartRequest],
                      error := if engineAccepts then None else Some(StartFailedMessage))
    ensures s.isSupported && s.isThresholdMode && !s.audioReady && !microphoneGranted ==>
              t == s.(error := Some(MicrophoneMessage))
    ensures s.isSupported && s.isThresholdMode && (s.audioReady || microphoneGranted) ==>
              t == s.(error := None, audioReady := true, monitoring := true)
  {
    if !s.isSupported then s
    else if s.isThresholdMode then
      if !s.audioReady && !microphoneGranted then s.(error := Some(MicrophoneMessage))
      else s.(error := None, audioReady := true, monitoring := true)
    else
      s.(engineLog := s.engineLog + [StartRequest],
         error := if engineAccepts then None else Some(StartFailedMessage))
  }

  /** The state after one frame of the audio monitoring at `level`. */
  function AfterFrame(s: State, level: real): (t: State)
    requires Consistent(s) && s.monitoring && 0.0 <= level <= 1.0
    ensures Consistent(t) && t.monitoring
    ensures t.audioLevel == level && (t.isAboveThreshold <==> level > s.threshold)
    ensures t.engineLog == s.engineLog || t.engineLog == s.engineLog + [StartRequest]
    ensures t.engineLog == s.engineLog + [StartRequest] <==>
              s.isThresholdMode && level > s.threshold && !s.isListening
    ensures t.(audioLevel := s.audioLevel, isAboveThreshold := s.isAboveThreshold,
               engineLog := s.engineLog) == s
  {
    var above := level > s.threshold;
    s.(audioLevel := level, isAboveThreshold := above,
       engineLog := if s.isThresholdMode && s.isSupported && above && !s.isListening
                    then s.engineLog + [StartRequest] else s.engineLog)
  }

  class SpeechController {
    var transcript: string
    var interimTranscript: string
    var finalRef: string
    var isListening: bool
    const isSupported: bool
    var error: Option<string>
    var language: string
    var audioLevel: real
    var threshold: real
    var isThresholdMode: bool
    var isAboveThreshold: bool
    var monitoring: bool
    var audioReady: bool
    var engineLog: seq<EngineRequest>

    function Snapshot(): State
      reads this
    {
      State(transcript, interimTranscript, finalRef, isListening, isSupported, error, language,
            audioLevel, threshold, isThresholdMode, isAboveThreshold, monitoring, audioReady, engineLog)
    }

    ghost predicate Valid()
      reads this
    {
      Consistent(Snapshot())
    }

    /** The hook's initial state; `supported` is the result of the browser
        check, which also creates the engine. */
    constructor (supported: bool)
      ensures Valid()
      ensures Snapshot() == State("", "", "", false, supported,
                                  if supported then None else Some(UnsupportedMessage),
                                  DefaultLanguage, 0.0, DefaultThreshold, false, false, false, false, [])
    {
      transcript, interimTranscript, finalRef := "", "", "";
      isListening := false;
      isSupported := supported;
      error := if supported then None else Some(UnsupportedMessage);
      language := DefaultLanguage;
      audioLevel, threshold := 0.0, DefaultThreshold;
      isThresholdMode, isAboveThreshold := false, false;
      monitoring, audioReady := false, false;
      engineLog := [];
    }

    /** The engine's `onstart`, `onend`, `onerror` and `onresult` handlers.
        They are registered only on an engine, so only when supported. */
    method HandleEvent(e: Event)
      requires Valid() && isSupported
      modifies this
      ensures Valid()
      ensures e.Start? ==> Snapshot() == old(Snapshot()).(isListening := true, error := None)
      ensures e.End? ==> Snapshot() == old(Snapshot()).(isListening := false)
      ensures e.Error? ==>
                Snapshot() == old(Snapshot()).(isListening := false,
                                               error := Some(EngineErrorPrefix + e.code))
      ensures e.Result? ==>
                var final := old(finalRef) + FinalText(Window(e.results, e.resultIndex));
                Snapshot() == old(Snapshot()).(transcript := final, finalRef := final,
                                               interimTranscript := InterimText(Window(e.results, e.resultIndex)))
    {
      match e
      case Start =>
        isListening := true;
        error := None;
      case End =>
        isListening := false;
      case Error(code) =>
        error := Some(EngineErrorPrefix + code);
        isListening := false;
      case Result(resultIndex, results) =>
        var finalTemp, interimTemp := Merge(finalRef, resultIndex, results);
        finalRef := finalTemp;
        transcript := finalTemp;
        interimTranscript := interimTemp;
    }

    /** `startListening`: clears the error, then either opens the audio
        monitoring (threshold mode) or calls the engine's `start()`. There is
        no guard against a session that is already listening. */
    method StartListening(microphoneGranted: bool, engineAccepts: bool)
      requires Valid()
      modifies this
      ensures Valid()
      ensures Snapshot() == Started(old(Snapshot()), microphoneGranted, engineAccepts)
    {
      if !isSupported {
        return;
      }
      error := None;
      if isThresholdMode {
        if !audioReady {
          if !microphoneGranted {
            error := Some(MicrophoneMessage);
            return;
          }
          audioReady := true;
        }
        monitoring := true;
      } else {
        engineLog := engineLog + [StartRequest];
        if !engineAccepts {
          error := Some(StartFailedMessage);
        }
      }
    }

    /** `stopListening` of the render that saw `thresholdMode`. */
    method StopAs(thresholdMode: bool)
      requires Valid()
      modifies this
      ensures Valid()
      ensures Snapshot() == Stopped(old(Snapshot()), thresholdMode)
    {
      if !isSupported {
        return;
      }
      engineLog := engineLog + [StopRequest];
      if thresholdMode {
        StopAudioMonitoring();
      }
    }

    /** `stopListening` */
    method StopListening()
      requires Valid()
      modifies this
      ensures Valid()
      ensures Snapshot() == Stopped(old(Snapshot()), old(isThresholdMode))
    {
      StopAs(isThresholdMode);
    }

    /** `stopAudioMonitoring`: cancels the scheduled frame and resets the
        level and the above-threshold flag, whether or not a frame was
        scheduled. */
    method StopAudioMonitoring()
      requires Valid()
      modifies this
      ensures Valid()
      ensures Snapshot() == old(Snapshot()).(monitoring := false, audioLevel := 0.0, isAboveThreshold := false)
    {
      monitoring := false;
      audioLevel := 0.0;
      isAboveThreshold := false;
    }

    /** `resetTranscript` */
    method ResetTranscript()
      requires Valid()
      modifies this
      ensures Valid()
      ensures Snapshot() == old(Snapshot()).(transcript := "", interimTranscript := "", finalRef := "")
    {
      transcript := "";
      interimTranscript := "";
      finalRef := "";
    }

    /** `changeLanguage`: stores the tag, then stops a listening session. */
    method ChangeLanguage(tag: string)
      requires Valid()
      modifies this
      ensures Valid()
      ensures Snapshot() == if old(isListening)
                            then Stopped(old(Snapshot()).(language := tag), old(isThresholdMode))
                            else old(Snapshot()).(language := tag)
    {
      language := tag;
      if isListening {
        StopListening();
      }
    }

    /** `setThresholdMode`: stores the mode, then stops a listening session.
        The `stopListening` it calls is the one of the current render, which
        still sees the previous mode. */
    method SetThresholdMode(enabled: bool)
      requires Valid()
      modifies this
      ensures Valid()
      ensures Snapshot() == if old(isListening)
                            then Stopped(old(Snapshot()).(isThresholdMode := enabled), old(isThresholdMode))
                            else old(Snapshot()).(isThresholdMode := enabled)
    {
      var renderedMode := isThresholdMode;
      isThresholdMode := enabled;
      if isListening {
        StopAs(renderedMode);
      }
    }

    /** `updateThreshold` */
    method UpdateThreshold(x: real)
      requires Valid()
      modifies this
      ensures Valid()
      ensures Snapshot() == old(Snapshot()).(threshold := Clamp(x))
    {
      threshold := Clamp(x);
    }

    /** One scheduled frame of the audio monitoring, `level` being the
        normalised RMS the analyser produced. A start attempt the engine refuses
        is swallowed, so the engine's answer does not change the state. */
    method OnFrame(level: real)
      requires Valid() && monitoring && 0.0 <= level <= 1.0
      modifies this
      ensures Valid()
      ensures Snapshot() == AfterFrame(old(Snapshot()), level)
    {
      audioLevel := level;
      var aboveThreshold := level > threshold;
      isAboveThreshold := aboveThreshold;
      if isThresholdMode && isSupported {
        if aboveThreshold && !isListening {
          engineLog := engineLog + [StartRequest];
        }
      }
    }
  }

  // ---------------------------------------------------------------------------
  // The threshold gate over a run of frames.

  /** The frames of `levels`, one after another. */
  function Frames(s: State, levels: seq<real>): (t: State)
    requires Consistent(s) && s.monitoring
    requires forall k :: 0 <= k < |levels| ==> 0.0 <= levels[k] <= 1.0
    ensures Consistent(t) && t.monitoring
    ensures |s.engineLog| <= |t.engineLog| && t.engineLog[..|s.engineLog|] == s.engineLog
    ensures t.(audioLevel := s.audioLevel, isAboveThreshold := s.isAboveThreshold,
               engineLog := s.engineLog) == s
    decreases |levels|
  {
    if levels == [] then s else Frames(AfterFrame(s, levels[0]), levels[1..])
  }

  /** How many of `levels` lie strictly above `threshold`. */
  function CountAbove(levels: seq<real>, threshold: real): nat {
    if levels == [] then 0
    else (if levels[0] > threshold then 1 else 0) + CountAbove(levels[1..], threshold)
  }

  function Repeat(r: EngineRequest, n: nat): (rs: seq<EngineRequest>)
    ensures |rs| == n && forall k :: 0 <= k < n ==> rs[k] == r
  {
    if n == 0 then [] else [r] + Repeat(r, n - 1)
  }

  /** The gate is level-triggered: in threshold mode and while the engine has
      not reported a start, every frame above the threshold asks the engine to
      start once more, and a refused start never reaches the error field. */
  lemma {:induction false} EveryLoudFrameRequestsStart(s: State, levels: seq<real>)
    requires Consistent(s) && s.monitoring && s.isThresholdMode && !s.isListening
    requires forall k :: 0 <= k < |levels| ==> 0.0 <= levels[k] <= 1.0
    ensures Frames(s, levels).engineLog == s.engineLog + Repeat(StartRequest, CountAbove(levels, s.threshold))
    ensures Frames(s, levels).error == s.error
    decreases |levels|
  {
    if levels == [] {
      assert s.engineLog + Repeat(StartRequest, 0) == s.engineLog;
    } else {
      var t := AfterFrame(s, levels[0]);
      EveryLoudFrameRequestsStart(t, levels[1..]);
      var n := CountAbove(levels[1..], s.threshold);
      if levels[0] > s.threshold {
        assert Repeat(StartRequest, n + 1) == [StartRequest] + Repeat(StartRequest, n);
      }
    }
  }

  /** While the session is listening the gate never asks the engine to start. */
  lemma {:induction false} ListeningFramesRequestNothing(s: State, levels: seq<real>)
    requires Consistent(s) && s.monitoring && s.isListening
    requires forall k :: 0 <= k < |levels| ==> 0.0 <= levels[k] <= 1.0
    ensures Frames(s, levels).engineLog == s.engineLog
    ensures Frames(s, levels).transcript == s.transcript && Frames(s, levels).error == s.error
    decreases |levels|
  {
    if levels != [] {
      ListeningFramesRequestNothing(AfterFrame(s, levels[0]), levels[1..]);
    }
  }
}
