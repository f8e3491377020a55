/**
 * The speech-to-text component: what it shows and which hook action a user
 * gesture triggers, as functions of the hook's state.
 */
module SpeechToTextView {
  import opened Wrappers
  import opened JsText
  import opened SpeechRecognition

  /** The hook action the record button triggers. */
  datatype ToggleAction = CallStopListening | CallStartListening

  /** `handleToggleListening` */
  function Toggle(isListening: bool): (a: ToggleAction)
    ensures a == CallStopListening <==> isListening
  {
    if isListening then CallStopListening else CallStartListening
  }

  /** What `handleTranscriptChange` does with an edit of the text area: it is
      dropped while listening and otherwise handed to `setManualTranscript`,
      which the hook does not provide. */
  datatype EditOutcome = EditIgnored | EditForwarded(value: string)

  function EditGate(isListening: bool, value: string): (o: EditOutcome)
    ensures o == EditIgnored <==> isListening
    ensures o.EditForwarded? ==> o.value == value
  {
    if !isListening then EditForwarded(value) else EditIgnored
  }

  /** The text area's value: the transcript, then a space and the interim
      text when there is one. */
  function DisplayedText(transcript: string, interim: string): (r: string)
    ensures |transcript| <= |r| && r[..|transcript|] == transcript
    ensures interim == [] ==> |r| == |transcript|
    ensures interim != [] ==>
              |r| == |transcript| + 1 + |interim| && r[|transcript|] == ' '
              && r[|transcript| + 1..] == interim
  {
    transcript + (if interim != [] then " " + interim else "")
  }

  /** `disabled={!!error}` on the record button. */
  function RecordDisabled(error: Option<string>): (d: bool)
    ensures d <==> error.Some? && error.value != []
  {
    match error
    case None => false
    case Some(message) => message != []
  }

  /** `disabled={!transcript.trim()}` on the clear button. */
  function ClearDisabled(transcript: string): (d: bool)
    ensures d <==> AllSpace(transcript)
  {
    Trim(transcript) == []
  }

  const SoundDetected: string := "Sound detected!"
  const WaitingForSound: string := "Waiting for sound..."
  const ListeningStatus: string := "Listening..."
  const ReadyStatus: string := "Ready to listen"

  /** The status line: in threshold mode it reflects only the level gate,
      otherwise only the session; each of the four lines names one situation. */
  function StatusText(isThresholdMode: bool, isAboveThreshold: bool, isListening: bool): (t: string)
    ensures t == SoundDetected <==> isThresholdMode && isAboveThreshold
    ensures t == WaitingForSound <==> isThresholdMode && !isAboveThreshold
    ensures t == ListeningStatus <==> !isThresholdMode && isListening
    ensures t == ReadyStatus <==> !isThresholdMode && !isListening
  {
    assert SoundDetected[0] == 'S' && WaitingForSound[0] == 'W';
    assert ListeningStatus[0] == 'L' && ReadyStatus[0] == 'R';
    if isThresholdMode then (if isAboveThreshold then SoundDetected else WaitingForSound)
    else (if isListening then ListeningStatus else ReadyStatus)
  }

  /** The word and character counts shown under the text area. */
  datatype Stats = Stats(words: nat, characters: nat)

  /** `{transcript && ...}`: the counts appear only for a non-empty transcript. */
  function TranscriptStats(transcript: string): (r: Option<Stats>)
    ensures r.None? <==> transcript == []
    ensures r.Some? ==> r.value.words == RunCount(transcript) && r.value.characters == |transcript|
  {
    if transcript == [] then None
    else Some(Stats(WordCount(transcript), |transcript|))
  }

  /** What the component renders. */
  datatype Screen =
    | UnsupportedScreen
    | MainScreen(
        errorBanner: Option<string>,
        recordDisabled: bool,
        recordLabel: string,
        clearDisabled: bool,
        status: string,
        text: string,
        readOnly: bool,
        stats: Option<Stats>)

  const StopLabel: string := "Stop Recording"
  const StartLabel: string := "Start Recording"

  function Render(s: State): (v: Screen)
    ensures v.UnsupportedScreen? <==> !s.isSupported
  {
    if !s.isSupported then UnsupportedScreen
    else
      MainScreen(
        if RecordDisabled(s.error) then s.error else None,
        RecordDisabled(s.error),
        if s.isListening then StopLabel else StartLabel,
        ClearDisabled(s.transcript),
        StatusText(s.isThresholdMode, s.isAboveThreshold, s.isListening),
        DisplayedText(s.transcript, s.interimTranscript),
        s.isListening,
        TranscriptStats(s.transcript))
  }

  /** Without speech recognition the component shows the same screen whatever
      else the hook holds. */
  lemma UnsupportedIgnoresState(s: State, t: State)
    requires !s.isSupported && !t.isSupported
    ensures Render(s) == Render(t) == UnsupportedScreen
  {
  }

  /** In every reachable state the record button is disabled exactly when an
      error is set, and the banner then shows that error. */
  lemma RecordDisabledIffError(s: State)
    requires Consistent(s) && s.isSupported
    ensures Render(s).recordDisabled <==> s.error.Some?
    ensures Render(s).errorBanner == s.error
  {
  }

  /** The record button's click handler: runs the hook action `Toggle` chooses. */
  method HandleToggle(c: SpeechController, microphoneGranted: bool, engineAccepts: bool)
    requires c.Valid()
    modifies c
    ensures c.Valid()
    ensures c.Snapshot() == if old(c.isListening) then Stopped(old(c.Snapshot()), old(c.isThresholdMode))
                            else Started(old(c.Snapshot()), microphoneGranted, engineAccepts)
  {
    match Toggle(c.isListening)
    case CallStopListening => c.StopListening();
    case CallStartListening => c.StartListening(microphoneGranted, engineAccepts);
  }
}
