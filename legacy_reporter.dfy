/**
 * The older revision of the report form, report-logic.js: the same
 * `NoiseReporter` events without the service-area check, without the
 * calibration offset and clamp, with five level bands, and with every
 * recording on a stream of its own that a stop ends.
 */
module LegacyReporter {
  import opened Js
  import opened Text
  import opened AudioLevel
  import Newer = Reporter

  type Location = Newer.Location
  type StreamId = Newer.StreamId
  type Request = Newer.Request
  type Submission = Newer.Submission

  /** The level shown under the decibel value. */
  datatype Band = Quiet | Normal | Moderate | Loud | VeryLoud

  /**
   * The fields the older form logic reads and writes: the location, the
   * recorder and its microphone stream, the streams whose tracks were
   * stopped, the shown level, the description and the submit button, and
   * how many submissions wait for the server.
   */
  datatype Reporter = Reporter(
    location: Option<Location>,
    hasRecorder: bool,
    isRecording: bool,
    recordings: nat,
    microphone: Option<StreamId>,
    stoppedStreams: set<StreamId>,
    dbShown: bool,
    dbValue: Option<int>,
    band: Option<Band>,
    description: string,
    submitDisabled: bool,
    buttonText: Newer.Label,
    inFlight: nat)

  /** The state right after construction, with the same assumptions about the markup as the newer page. */
  function Initial(): Reporter {
    Reporter(None, false, false, 0, None, {}, false, None, None, "", true, Newer.MarkupLabel, 0)
  }

  /** Three conditions; there is no area check. */
  predicate Gate(s: Reporter) {
    s.location.Some? && Trim(s.description) != "" && s.dbShown
  }

  /** `checkFormValidity` */
  function CheckValidity(s: Reporter): Reporter {
    s.(submitDisabled := !Gate(s))
  }

  /** `getCurrentLocation` after the position arrived. */
  function LocationFix(s: Reporter, loc: Location): Reporter {
    CheckValidity(s.(location := Some(loc)))
  }

  function Edit(s: Reporter, text: string): Reporter {
    CheckValidity(s.(description := text))
  }

  /** Any location at all counts: after a fix, submit is enabled exactly when the description is not blank and a level is shown. */
  lemma {:induction false} LocationFixGate(s: Reporter, loc: Location)
    ensures !LocationFix(s, loc).submitDisabled <==> !IsBlank(s.description) && s.dbShown
  {
    TrimEmptyIffBlank(s.description);
  }

  /** `startRecording` with the stream `getUserMedia` returned. */
  function Start(s: Reporter, stream: StreamId): Reporter {
    s.(hasRecorder := true, isRecording := true, recordings := s.recordings + 1, microphone := Some(stream))
  }

  /** `stopRecording`: the microphone stream's tracks are stopped. */
  function Stop(s: Reporter): Reporter {
    if !(s.hasRecorder && s.isRecording) then s
    else
      s.(isRecording := false,
         stoppedStreams := if s.microphone.Some? then s.stoppedStreams + {s.microphone.value} else s.stoppedStreams)
  }

  lemma {:induction false} StopIdempotent(s: Reporter)
    ensures s.hasRecorder ==> !Stop(s).isRecording
    ensures Stop(Stop(s)) == Stop(s)
    ensures !(s.hasRecorder && s.isRecording) ==> Stop(s) == s
  {
  }

  /** Every recording's stream is stopped when it ends. */
  lemma {:induction false} StopEndsStream(s: Reporter, stream: StreamId)
    ensures stream in Stop(Start(s, stream)).stoppedStreams
  {
  }

  /** The timer callback as written. */
  function AutoStopAsWritten(s: Reporter): Reporter {
    if s.isRecording then Stop(s) else s
  }

  /** The timer callback of recording number `recording`, as evidently intended. */
  function AutoStop(s: Reporter, recording: nat): Reporter {
    if s.isRecording && recording == s.recordings then Stop(s) else s
  }

  lemma {:induction false} TimerAfterStopIsNoOp(s: Reporter, recording: nat)
    ensures AutoStopAsWritten(Stop(s)) == Stop(s)
    ensures AutoStop(Stop(s), recording) == Stop(s)
  {
  }

  lemma {:induction false} StaleTimerIgnored(s: Reporter, recording: nat)
    requires recording != s.recordings
    ensures AutoStop(s, recording) == s
  {
  }

  /** The first recording's timer, as written, ends a second recording started within five seconds. */
  lemma {:induction false} StaleTimerCutsNextRecording(s: Reporter, first: StreamId, second: StreamId)
    ensures var one := Start(s, first);
            var two := Start(Stop(one), second);
            && two.isRecording
            && !AutoStopAsWritten(two).isRecording
            && AutoStop(two, one.recordings) == two
  {
  }

  /** `rmsToDb`: minus infinity for an RMS of 0, otherwise `20 * Math.log10(rms)` unchanged. */
  function RmsToDb(rms: Rms, dbfs: real -> real): (level: Num)
    ensures rms.Silent? <==> level == NegInf
    ensures rms.NoSamples? <==> level.NaN?
    ensures rms.Positive? ==> level == Finite(dbfs(rms.meanSquare))
  {
    match rms
    case Silent => NegInf
    case NoSamples => NaN
    case Positive(ms) => Finite(dbfs(ms))
  }

  function BandOf(rounded: Num): Band {
    if Above(rounded, 80.0) then VeryLoud
    else if Above(rounded, 70.0) then Loud
    else if Above(rounded, 60.0) then Moderate
    else if Above(rounded, 50.0) then Normal
    else Quiet
  }

  /** Five bands over whole decibel values, each open below and closed above. */
  lemma {:induction false} BandThresholds(db: int)
    ensures BandOf(Finite(db as real)) == VeryLoud <==> db > 80
    ensures BandOf(Finite(db as real)) == Loud <==> 70 < db <= 80
    ensures BandOf(Finite(db as real)) == Moderate <==> 60 < db <= 70
    ensures BandOf(Finite(db as real)) == Normal <==> 50 < db <= 60
    ensures BandOf(Finite(db as real)) == Quiet <==> db <= 50
    ensures BandOf(NegInf) == Quiet && BandOf(NaN) == Quiet
  {
  }

  /**
   * The older bands split the newer page's Normal and Loud ranges
   * differently; they agree only on Quiet.
   */
  lemma {:induction false} QuietAgreesAcrossRevisions(db: int)
    ensures BandOf(Finite(db as real)) == Quiet <==> Newer.BandOf(Finite(db as real)) == Newer.Quiet
  {
  }

  function ShowLevel(s: Reporter, level: Num): Reporter {
    var rounded := RoundNum(level);
    s.(dbValue := ParsedDb(rounded), dbShown := true, band := Some(BandOf(rounded)))
  }

  function Process(s: Reporter, rms: Rms, dbfs: real -> real): Reporter {
    CheckValidity(ShowLevel(s, RmsToDb(rms, dbfs)))
  }

  /** The shown value is the rounded dBFS level, with no offset: a typical microphone reading is negative. */
  lemma {:induction false} ProcessShowsRawLevel(s: Reporter, ms: real, dbfs: real -> real)
    ensures Process(s, Positive(ms), dbfs).dbValue == Some(Round(dbfs(ms)))
  {
  }

  /** `resetForm` */
  function Reset(s: Reporter): Reporter {
    CheckValidity(s.(location := None, dbShown := false))
  }

  lemma {:induction false} ResetClears(s: Reporter)
    ensures Reset(s).location.None? && !Reset(s).dbShown && Reset(s).submitDisabled
  {
  }

  /** The request `submitReport` sends, or why it sends none; the guards are the newer page's. */
  function SubmissionOf(s: Reporter): Submission {
    if s.location.None? then Newer.Refused(Newer.NoLocation)
    else if Trim(s.description) == "" then Newer.Refused(Newer.NoDescription)
    else if s.dbValue.None? then Newer.Refused(Newer.NoRecording)
    else Newer.Sent(Newer.Request(s.location.value.latitude, s.location.value.longitude, s.dbValue.value, Trim(s.description)))
  }

  /** `submitReport` up to the request: the button is disabled and one more request is on its way, unless a guard refuses. */
  function Begin(s: Reporter): Reporter {
    if SubmissionOf(s).Refused? then s
    else s.(submitDisabled := true, buttonText := Newer.Submitting, inFlight := s.inFlight + 1)
  }

  /** The submit event, which the browser dispatches only while the button is enabled. */
  function Press(s: Reporter): Reporter {
    if s.submitDisabled then s else Begin(s)
  }

  /** The rest of `submitReport` once the server answered, as written: the `finally` block re-enables the button. */
  function Settle(s: Reporter, accepted: bool): Reporter {
    if s.inFlight == 0 then s
    else
      var after := if accepted then Reset(s.(description := "")) else s;
      after.(submitDisabled := false, buttonText := Newer.SubmitLabel, inFlight := s.inFlight - 1)
  }

  /** The same as evidently intended: the `finally` block restores the label and rechecks the form. */
  function SettleChecked(s: Reporter, accepted: bool): Reporter {
    if s.inFlight == 0 then s
    else
      var after := if accepted then Reset(s.(description := "")) else s;
      CheckValidity(after.(buttonText := Newer.SubmitLabel, inFlight := s.inFlight - 1))
  }

  lemma {:induction false} SubmitGuards(s: Reporter, accepted: bool)
    ensures SubmissionOf(s).Refused? <==> s.location.None? || IsBlank(s.description) || s.dbValue.None?
    ensures SubmissionOf(s).Refused? ==> Begin(s) == s
    ensures SubmissionOf(s).Sent? ==>
              && Begin(s).submitDisabled
              && Begin(s).inFlight == s.inFlight + 1
              && Some(SubmissionOf(s).request.decibels) == s.dbValue
              && SubmissionOf(s).request.description == Trim(s.description)
    ensures s.inFlight > 0 ==>
              && !Settle(s, accepted).submitDisabled
              && Settle(s, accepted).buttonText == Newer.SubmitLabel
              && Settle(s, accepted).inFlight == s.inFlight - 1
    ensures s.inFlight > 0 && accepted ==> Settle(s, accepted).location.None? && !Settle(s, accepted).dbShown
  {
    TrimEmptyIffBlank(s.description);
  }

  /** The submission the older page sends is the one the newer page would send from the same fields. */
  lemma {:induction false} SameRequestAsNewerPage(s: Reporter, t: Newer.Reporter)
    requires s.location == t.location && s.description == t.description && s.dbValue == t.dbValue
    ensures SubmissionOf(s) == Newer.SubmissionOf(t)
  {
  }

  datatype Event =
    | Located(loc: Location)
    | Input(text: string)
    | StartButton(stream: StreamId)
    | StopButton
    | TimerFired(recording: nat)
    | Recorded(rms: Rms)
    | SubmitPressed
    | Responded(accepted: bool)

  /** One event on the page as written. */
  function Step(s: Reporter, e: Event, dbfs: real -> real): Reporter {
    match e
    case Located(loc) => LocationFix(s, loc)
    case Input(text) => Edit(s, text)
    case StartButton(stream) => Start(s, stream)
    case StopButton => Stop(s)
    case TimerFired(_) => AutoStopAsWritten(s)
    case Recorded(rms) => Process(s, rms, dbfs)
    case SubmitPressed => Press(s)
    case Responded(accepted) => Settle(s, accepted)
  }

  function Run(s: Reporter, events: seq<Event>, dbfs: real -> real): Reporter
    decreases |events|
  {
    if events == [] then s else Run(Step(s, events[0], dbfs), events[1..], dbfs)
  }

  /** One event on the page as evidently intended: a timer stops only its own recording, and an answer rechecks the form. */
  function FixedStep(s: Reporter, e: Event, dbfs: real -> real): Reporter {
    match e
    case TimerFired(recording) => AutoStop(s, recording)
    case Responded(accepted) => SettleChecked(s, accepted)
    case _ => Step(s, e, dbfs)
  }

  function FixedRun(s: Reporter, events: seq<Event>, dbfs: real -> real): Reporter
    decreases |events|
  {
    if events == [] then s else FixedRun(FixedStep(s, events[0], dbfs), events[1..], dbfs)
  }

  /** An enabled button means a complete form, or a submission that is refused before the network. */
  predicate EnabledOnlyWhenReady(s: Reporter) {
    !s.submitDisabled ==> Gate(s) || SubmissionOf(s).Refused?
  }

  lemma {:induction false} CheckedIsReady(s: Reporter)
    ensures !CheckValidity(s).submitDisabled ==> Gate(CheckValidity(s))
  {
  }

  /** Readiness depends only on the form's fields and the button. */
  lemma {:induction false} SameFormSameReadiness(s: Reporter, t: Reporter)
    requires EnabledOnlyWhenReady(s)
    requires t.location == s.location && t.description == s.description
    requires t.dbShown == s.dbShown && t.dbValue == s.dbValue && t.submitDisabled == s.submitDisabled
    ensures EnabledOnlyWhenReady(t)
  {
    assert Gate(t) == Gate(s) && SubmissionOf(t) == SubmissionOf(s);
  }

  /** The fields readiness depends on are unchanged. */
  predicate SameForm(s: Reporter, t: Reporter) {
    && t.location == s.location && t.description == s.description
    && t.dbShown == s.dbShown && t.dbValue == s.dbValue && t.submitDisabled == s.submitDisabled
  }

  predicate RecordingEvent(e: Event) {
    e.StartButton? || e.StopButton? || e.TimerFired?
  }

  /** The microphone and timer events touch none of the form's fields, in either version of the page. */
  lemma {:induction false} RecordingEventsKeepForm(s: Reporter, e: Event, dbfs: real -> real)
    requires RecordingEvent(e)
    ensures SameForm(s, Step(s, e, dbfs)) && SameForm(s, FixedStep(s, e, dbfs))
  {
    match e
    case StartButton(stream) =>
    case StopButton =>
    case TimerFired(recording) =>
      assert Step(s, e, dbfs) == AutoStopAsWritten(s);
      assert FixedStep(s, e, dbfs) == AutoStop(s, recording);
  }

  /** Events that end in `checkFormValidity` leave the button enabled only on a complete form. */
  lemma {:induction false} CheckingEventsMakeReady(s: Reporter, e: Event, dbfs: real -> real)
    requires e.Located? || e.Input? || e.Recorded?
    ensures !Step(s, e, dbfs).submitDisabled ==> Gate(Step(s, e, dbfs))
    ensures FixedStep(s, e, dbfs) == Step(s, e, dbfs)
  {
    match e
    case Located(loc) => CheckedIsReady(s.(location := Some(loc)));
    case Input(text) => CheckedIsReady(s.(description := text));
    case Recorded(rms) => CheckedIsReady(ShowLevel(s, RmsToDb(rms, dbfs)));
  }

  /** As written, every event but the server's answer keeps readiness. */
  lemma {:induction false} StepKeepsEnabledOnlyWhenReady(s: Reporter, e: Event, dbfs: real -> real)
    requires EnabledOnlyWhenReady(s) && !e.Responded?
    ensures EnabledOnlyWhenReady(Step(s, e, dbfs))
  {
    if RecordingEvent(e) {
      RecordingEventsKeepForm(s, e, dbfs);
      SameFormSameReadiness(s, Step(s, e, dbfs));
    } else if e.Located? || e.Input? || e.Recorded? {
      CheckingEventsMakeReady(s, e, dbfs);
    }
  }

  /**
   * Two overlapping submissions, up to the first answer: the user edits the
   * description while the first request is out, which re-enables the
   * button, and submits again; the first answer accepts and resets the
   * form, which hides the level but leaves the shown value's text, and the
   * `finally` block enables the button.
   */
  lemma {:induction false} AcceptedAnswerLeavesStaleLevel(r: Reporter, text: string)
    requires !r.submitDisabled && Gate(r) && r.dbValue.Some? && Trim(text) != ""
    ensures var u := Settle(Press(Edit(Press(r), text)), true);
            && u.location.None? && !u.dbShown && u.dbValue == r.dbValue
            && u.inFlight == r.inFlight + 1 && !u.submitDisabled
  {
    var s1 := Press(r);
    assert s1 == r.(submitDisabled := true, buttonText := Newer.Submitting, inFlight := r.inFlight + 1);
    var s2 := Edit(s1, text);
    assert !s2.submitDisabled && s2.dbValue == r.dbValue && s2.location == r.location;
    var s3 := Press(s2);
    assert SubmissionOf(s2).Sent?;
    assert s3.inFlight == r.inFlight + 2 && s3.dbValue == r.dbValue;
  }

  /**
   * Then a new fix and a new description keep the button disabled, since no
   * level is shown, until the second answer fails: the `finally` block
   * enables the button, and a press sends the earlier recording's level
   * although none is shown.
   */
  lemma {:induction false} FailedAnswerSendsStaleLevel(u: Reporter, loc: Location, text: string)
    requires u.location.None? && !u.dbShown && u.dbValue.Some? && u.inFlight > 0 && Trim(text) != ""
    ensures var t := Settle(Edit(LocationFix(u, loc), text), false);
            && !t.submitDisabled
            && !t.dbShown
            && !EnabledOnlyWhenReady(t)
            && SubmissionOf(t).Sent?
            && SubmissionOf(t).request.decibels == u.dbValue.value
            && Press(t).inFlight == t.inFlight + 1
  {
    var s1 := LocationFix(u, loc);
    var s2 := Edit(s1, text);
    assert s2.location == Some(loc) && !s2.dbShown && s2.dbValue == u.dbValue && s2.inFlight == u.inFlight;
    var t := Settle(s2, false);
    assert t == s2.(submitDisabled := false, buttonText := Newer.SubmitLabel, inFlight := u.inFlight - 1);
    assert t.location == Some(loc) && t.description == text && t.dbValue == u.dbValue && !t.dbShown;
    assert SubmissionOf(t) == Newer.Sent(Newer.Request(loc.latitude, loc.longitude, u.dbValue.value, Trim(text)));
    assert !Gate(t);
  }

  // ----- The page as intended -----

  /** The invariant of the page as intended: an enabled button means a complete form. */
  predicate Ready(s: Reporter) {
    !s.submitDisabled ==> Gate(s)
  }

  lemma {:induction false} SettleCheckedKeepsReady(s: Reporter, accepted: bool)
    requires Ready(s)
    ensures Ready(SettleChecked(s, accepted))
  {
    if s.inFlight > 0 {
      var after := if accepted then Reset(s.(description := "")) else s;
      CheckedIsReady(after.(buttonText := Newer.SubmitLabel, inFlight := s.inFlight - 1));
    }
  }

  lemma {:induction false} FixedStepKeepsReady(s: Reporter, e: Event, dbfs: real -> real)
    requires Ready(s)
    ensures Ready(FixedStep(s, e, dbfs))
  {
    if RecordingEvent(e) {
      RecordingEventsKeepForm(s, e, dbfs);
      assert Gate(FixedStep(s, e, dbfs)) == Gate(s);
    } else if e.Located? || e.Input? || e.Recorded? {
      CheckingEventsMakeReady(s, e, dbfs);
    } else if e.SubmitPressed? {
      assert FixedStep(s, e, dbfs) == Press(s);
      assert Press(s) == s || Press(s).submitDisabled;
    } else if e.Responded? {
      assert FixedStep(s, e, dbfs) == SettleChecked(s, e.accepted);
      SettleCheckedKeepsReady(s, e.accepted);
    }
  }

  lemma {:induction false} FixedRunKeepsReady(s: Reporter, events: seq<Event>, dbfs: real -> real)
    requires Ready(s)
    ensures Ready(FixedRun(s, events, dbfs))
    decreases |events|
  {
    if events != [] {
      FixedStepKeepsReady(s, events[0], dbfs);
      FixedRunKeepsReady(FixedStep(s, events[0], dbfs), events[1..], dbfs);
    }
  }

  /** On the page as intended, an enabled button always has a level shown; nothing restricts where the report comes from. */
  lemma {:induction false} SentReportsHadALevel(events: seq<Event>, dbfs: real -> real)
    ensures var s := FixedRun(Initial(), events, dbfs);
            !s.submitDisabled ==> s.dbShown && s.location.Some? && !IsBlank(s.description)
  {
    var s := FixedRun(Initial(), events, dbfs);
    FixedRunKeepsReady(Initial(), events, dbfs);
    TrimEmptyIffBlank(s.description);
  }

  /** The older `NoiseReporter` object. */
  class NoiseReporter {
    var location: Option<Location>
    var hasRecorder: bool
    var isRecording: bool
    var recordings: nat
    var microphone: Option<StreamId>
    var stoppedStreams: set<StreamId>
    var dbShown: bool
    var dbValue: Option<int>
    var band: Option<Band>
    var description: string
    var submitDisabled: bool
    var buttonText: Newer.Label
    var inFlight: nat

    function State(): Reporter
      reads this
    {
      Reporter(location, hasRecorder, isRecording, recordings, microphone, stoppedStreams,
               dbShown, dbValue, band, description, submitDisabled, buttonText, inFlight)
    }

    constructor()
      ensures State() == Initial()
    {
      location, hasRecorder, isRecording, recordings, microphone, stoppedStreams := None, false, false, 0, None, {};
      dbShown, dbValue, band, description, submitDisabled, buttonText := false, None, None, "", true, Newer.MarkupLabel;
      inFlight := 0;
    }

    method CheckFormValidity()
      modifies this
      ensures State() == CheckValidity(old(State()))
    {
      var hasLocation := location.Some?;
      var trimmed := Trim(description);
      var hasDescription := |trimmed| > 0;
      var hasRecording := dbShown;
      ghost var before := State();
      assert Gate(before) <==> hasLocation && hasDescription && hasRecording;
      submitDisabled := !(hasLocation && hasDescription && hasRecording);
      assert State() == before.(submitDisabled := !Gate(before));
    }

    method OnLocation(loc: Location)
      modifies this
      ensures State() == LocationFix(old(State()), loc)
    {
      location := Some(loc);
      CheckFormValidity();
    }

    method UpdateCharCount(text: string)
      modifies this
      ensures State() == Edit(old(State()), text)
    {
      description := text;
      CheckFormValidity();
    }

    method StartRecording(stream: StreamId) returns (timer: nat)
      modifies this
      ensures State() == Start(old(State()), stream)
      ensures timer == recordings
    {
      microphone := Some(stream);
      hasRecorder := true;
      isRecording := true;
      recordings := recordings + 1;
      timer := recordings;
    }

    method StopRecording()
      modifies this
      ensures State() == Stop(old(State()))
    {
      if hasRecorder && isRecording {
        isRecording := false;
        if microphone.Some? {
          stoppedStreams := stoppedStreams + {microphone.value};
        }
      }
    }

    /** The auto-stop callback, whichever recording armed it. */
    method OnAutoStopTimer()
      modifies this
      ensures State() == AutoStopAsWritten(old(State()))
    {
      if isRecording {
        StopRecording();
      }
    }

    method ProcessRecording(channel: array<real>, dbfs: real -> real)
      modifies this
      ensures State() == Process(old(State()), RmsOf(channel[..]), dbfs)
    {
      var rms := CalculateRms(channel);
      var rounded := RoundNum(RmsToDb(rms, dbfs));
      dbValue := ParsedDb(rounded);
      dbShown := true;
      band := Some(BandOf(rounded));
      CheckFormValidity();
    }

    method ResetForm()
      modifies this
      ensures State() == Reset(old(State()))
    {
      location := None;
      dbShown := false;
      CheckFormValidity();
    }

    /** `submitReport` up to the `await` of the request; `sent` is the body posted, if any. */
    method SubmitReport() returns (sent: Option<Request>)
      modifies this
      ensures State() == Begin(old(State()))
      ensures sent.Some? <==> SubmissionOf(old(State())).Sent?
      ensures sent.Some? ==> sent.value == SubmissionOf(old(State())).request
    {
      ghost var before := State();
      if location.None? {
        assert SubmissionOf(before).Refused?;
        return None;
      }
      var trimmed := Trim(description);
      if |trimmed| == 0 {
        assert SubmissionOf(before).Refused?;
        return None;
      }
      if dbValue.None? {
        assert SubmissionOf(before).Refused?;
        return None;
      }
      sent := Some(Newer.Request(location.value.latitude, location.value.longitude, dbValue.value, trimmed));
      assert SubmissionOf(before) == Newer.Sent(sent.value);
      MarkSubmitting();
    }

    /** The button disabled and labelled 'Submitting...' while one more request is on its way. */
    method MarkSubmitting()
      modifies this
      ensures State() == old(State()).(submitDisabled := true, buttonText := Newer.Submitting, inFlight := old(inFlight) + 1)
    {
      submitDisabled := true;
      buttonText := Newer.Submitting;
      inFlight := inFlight + 1;
    }

    /** The rest of `submitReport` once the server answered, through the `finally` block. */
    method OnResponse(accepted: bool)
      modifies this
      ensures State() == Settle(old(State()), accepted)
    {
      if inFlight == 0 {
        return;
      }
      inFlight := inFlight - 1;
      if accepted {
        description := "";
        ResetForm();
      }
      EnableSubmit();
    }

    /** The `finally` block as written. */
    method EnableSubmit()
      modifies this
      ensures State() == old(State()).(submitDisabled := false, buttonText := Newer.SubmitLabel)
    {
      submitDisabled := false;
      buttonText := Newer.SubmitLabel;
    }
  }
}
