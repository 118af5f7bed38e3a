/**
 * The report form of public/js/report-logic.js: the `NoiseReporter` object,
 * its location, recording and display state, and the event methods that
 * update them. Browser services (geolocation, microphone streams, the audio
 * decoder, `fetch`) are inputs to the events: a location fix carries its
 * coordinates, a stream request carries the stream it obtained, a finished
 * recording carries its channel samples and a submission carries whether the
 * server accepted it.
 */
module Reporter {
  import opened Js
  import opened Text
  import opened AudioLevel

  datatype Location = Location(latitude: real, longitude: real)

  /** A media stream, identified by the object the browser handed out. */
  type StreamId = int

  /** The text on the submit button. */
  datatype Label = MarkupLabel | Submitting | SubmitLabel

  /** The level shown under the decibel value. */
  datatype Band = Quiet | Normal | Loud | VeryLoud

  /**
   * The fields of a `NoiseReporter` the form logic reads, plus the
   * visible state it writes: whether the dB display is shown, what
   * `parseInt` makes of the shown value, the shown band, the description
   * text, the submit button's `disabled` flag and buttonText, the set of streams
   * whose tracks were stopped, and how many recordings were started (which
   * tells the auto-stop timers apart). Four fields count what is still
   * pending between events: whether the maps script has loaded
   * (`_mapsLoaded`), how many location fixes wait for it to settle, how
   * many submissions wait for the server, and how many microphone requests
   * of the start button wait for a stream.
   */
  datatype Reporter = Reporter(
    location: Option<Location>,
    withinBounds: bool,
    hasRecorder: bool,
    isRecording: bool,
    recordings: nat,
    activeStream: Option<StreamId>,
    preGranted: Option<StreamId>,
    stoppedStreams: set<StreamId>,
    dbShown: bool,
    dbValue: Option<int>,
    band: Option<Band>,
    description: string,
    submitDisabled: bool,
    buttonText: Label,
    mapsLoaded: bool,
    locating: nat,
    inFlight: nat,
    micRequests: nat)

  /**
   * The state right after construction. The page's markup is not part of
   * the model: the dB display starts hidden, its text reads as no number,
   * the description is empty and the submit button is disabled.
   */
  function Initial(): Reporter {
    Reporter(None, false, false, false, 0, None, None, {}, false, None, None, "", true, MarkupLabel, false, 0, 0, 0)
  }

  // ----- Service area -----

  const MinLat: real := 41.20
  const MaxLat: real := 41.45
  const MinLng: real := 19.65
  const MaxLng: real := 19.98

  /** The inclusive bounding box of the service area. */
  predicate InServiceArea(loc: Location) {
    MinLat <= loc.latitude <= MaxLat && MinLng <= loc.longitude <= MaxLng
  }

  /** `evaluateBoundsAndUI` */
  function EvaluateBounds(s: Reporter): Reporter {
    if s.location.None? then s
    else
      var inside := InServiceArea(s.location.value);
      s.(withinBounds := inside, submitDisabled := if inside then s.submitDisabled else true)
  }

  /** `withinBounds` agrees with the current location whenever there is one. */
  predicate BoundsConsistent(s: Reporter) {
    s.location.Some? ==> s.withinBounds == InServiceArea(s.location.value)
  }

  lemma {:induction false} EvaluateBoundsEffect(s: Reporter)
    ensures s.location.None? ==> EvaluateBounds(s) == s
    ensures s.location.Some? ==> BoundsConsistent(EvaluateBounds(s))
    ensures s.location.Some? && !InServiceArea(s.location.value) ==> EvaluateBounds(s).submitDisabled
    ensures EvaluateBounds(s).(withinBounds := s.withinBounds, submitDisabled := s.submitDisabled) == s
  {
  }

  // ----- Form validity -----

  /** The four conditions the submit button waits for. */
  predicate Gate(s: Reporter) {
    && s.location.Some?
    && Trim(s.description) != ""
    && s.dbShown
    && s.withinBounds
  }

  /** `checkFormValidity` */
  function CheckValidity(s: Reporter): Reporter {
    s.(submitDisabled := !Gate(s))
  }

  /** `getCurrentLocation` after the position arrived, with nothing to wait for: store it, check the area, then the form. */
  function LocationFix(s: Reporter, loc: Location): Reporter {
    CheckValidity(EvaluateBounds(s.(location := Some(loc))))
  }

  /**
   * `getCurrentLocation` once the position arrived, as written. The location
   * is stored at once, but the area and the form are checked only after
   * `ensureGoogleMapsLoaded` settles. With the script loaded that is a
   * resolved promise, awaited before any other event; otherwise the check
   * waits for the script, and the fix is one more pending one.
   */
  function LocationArrived(s: Reporter, loc: Location): Reporter {
    if s.mapsLoaded then LocationFix(s, loc)
    else s.(location := Some(loc), locating := s.locating + 1)
  }

  /**
   * The maps script a pending fix waits for has loaded (`loaded`) or failed:
   * either way the fix goes on to check the area and the form, against
   * whatever location is current by then.
   */
  function MapsSettled(s: Reporter, loaded: bool): Reporter {
    if s.locating == 0 then s
    else CheckValidity(EvaluateBounds(s.(mapsLoaded := s.mapsLoaded || loaded, locating := s.locating - 1)))
  }

  /**
   * `getCurrentLocation` as evidently intended: the area and the form are
   * checked as soon as the location is stored, whether or not the map
   * preview still has to load.
   */
  function LocationArrivedChecked(s: Reporter, loc: Location): Reporter {
    var fixed := LocationFix(s, loc);
    if s.mapsLoaded then fixed else fixed.(locating := s.locating + 1)
  }

  /** The description's input event, through `updateCharCount`. */
  function Edit(s: Reporter, text: string): Reporter {
    CheckValidity(s.(description := text))
  }

  /** A location outside the box always leaves submit disabled, whatever else holds. */
  lemma {:induction false} OutsideAreaDisablesSubmit(s: Reporter, loc: Location)
    requires !InServiceArea(loc)
    ensures !LocationFix(s, loc).withinBounds
    ensures LocationFix(s, loc).submitDisabled
  {
  }

  /** After a fix, submit is enabled exactly when the fix is inside the box, the description is not blank and a level is shown. */
  lemma {:induction false} LocationFixGate(s: Reporter, loc: Location)
    ensures !LocationFix(s, loc).submitDisabled <==>
              InServiceArea(loc) && Trim(s.description) != "" && s.dbShown
  {
  }

  /** A description of only whitespace never enables submit. */
  lemma {:induction false} BlankDescriptionDisablesSubmit(s: Reporter, text: string)
    requires IsBlank(text)
    ensures Edit(s, text).submitDisabled
  {
    TrimEmptyIffBlank(text);
  }

  // ----- Recording -----

  /** `startRecording(stream)`: the recorder runs on `stream`, and one more auto-stop timer is armed. */
  function Start(s: Reporter, stream: StreamId): Reporter {
    s.(activeStream := Some(stream), hasRecorder := true, isRecording := true, recordings := s.recordings + 1)
  }

  /**
   * A click on the start button (`requestIOSMicrophonePermissionThenRecord`):
   * the pre-granted stream is recorded from at once when there is one;
   * otherwise a stream is requested, and the handler waits for it.
   */
  function RequestMicThenRecord(s: Reporter): Reporter {
    if s.preGranted.Some? then Start(s, s.preGranted.value)
    else s.(micRequests := s.micRequests + 1)
  }

  /**
   * A stream requested by the start button arrives: it replaces the
   * pre-granted stream, whatever that is by now, and is recorded from.
   */
  function StreamArrived(s: Reporter, obtained: StreamId): Reporter {
    if s.micRequests == 0 then s
    else Start(s.(preGranted := Some(obtained), micRequests := s.micRequests - 1), obtained)
  }

  /** The enable-microphone button (`promptMicrophonePermission`): `obtained` becomes the pre-granted stream. */
  function PromptMicPermission(s: Reporter, obtained: StreamId): Reporter {
    s.(preGranted := Some(obtained))
  }

  /** The active stream is the one kept for reuse. */
  predicate KeepsActive(s: Reporter) {
    s.preGranted.Some? && s.preGranted == s.activeStream
  }

  /** `stopRecording` */
  function Stop(s: Reporter): Reporter {
    if !(s.hasRecorder && s.isRecording) then s
    else
      var stopped := if s.activeStream.Some? && !KeepsActive(s) then s.stoppedStreams + {s.activeStream.value} else s.stoppedStreams;
      s.(isRecording := false,
         stoppedStreams := stopped,
         activeStream := if KeepsActive(s) then s.activeStream else None)
  }

  /** A stop leaves nothing recording, and a second stop changes nothing. */
  lemma {:induction false} StopIdempotent(s: Reporter)
    ensures s.hasRecorder ==> !Stop(s).isRecording
    ensures Stop(Stop(s)) == Stop(s)
    ensures !(s.hasRecorder && s.isRecording) ==> Stop(s) == s
  {
  }

  /**
   * The pre-granted stream survives every stop: its tracks are not stopped
   * and it stays active; any other active stream is stopped and cleared.
   */
  lemma {:induction false} StopSparesPreGranted(s: Reporter)
    requires s.hasRecorder && s.isRecording
    ensures s.preGranted.Some? && s.preGranted.value !in s.stoppedStreams ==>
              s.preGranted.value !in Stop(s).stoppedStreams
    ensures KeepsActive(s) ==> Stop(s).activeStream == s.activeStream
    ensures s.activeStream.Some? && !KeepsActive(s) ==>
              s.activeStream.value in Stop(s).stoppedStreams && Stop(s).activeStream.None?
  {
  }

  /** Streams started from the start button are the pre-granted one, so stopping never stops them. */
  lemma {:induction false} ButtonRecordingKeepsStream(s: Reporter, obtained: StreamId)
    ensures s.preGranted.Some? ==>
              var t := RequestMicThenRecord(s);
              KeepsActive(t) && Stop(t).activeStream == t.activeStream
              && Stop(t).stoppedStreams == s.stoppedStreams
    ensures s.micRequests > 0 ==>
              var t := StreamArrived(s, obtained);
              KeepsActive(t) && t.activeStream == Some(obtained)
              && Stop(t).activeStream == t.activeStream && Stop(t).stoppedStreams == s.stoppedStreams
  {
  }

  /**
   * Two clicks on the start button before the first stream arrives request
   * two streams. Each arrival starts a recorder, and the second replaces the
   * first as the pre-granted stream, so the first is neither kept nor
   * stopped: no later stop can reach it.
   */
  lemma {:induction false} SecondClickLeaksStream(s: Reporter, first: StreamId, second: StreamId)
    requires s.preGranted.None? && s.micRequests == 0 && first != second && first !in s.stoppedStreams
    ensures var t := StreamArrived(StreamArrived(RequestMicThenRecord(RequestMicThenRecord(s)), first), second);
            && t.micRequests == 0
            && t.recordings == s.recordings + 2
            && t.isRecording
            && t.preGranted == Some(second) && t.activeStream == Some(second)
            && first !in t.stoppedStreams
            && Stop(t).stoppedStreams == t.stoppedStreams
            && Stop(t).preGranted != Some(first) && Stop(t).activeStream != Some(first)
  {
  }

  /** The timer callback as written: `if (this.isRecording) this.stopRecording()`. */
  function AutoStopAsWritten(s: Reporter): Reporter {
    if s.isRecording then Stop(s) else s
  }

  /**
   * The timer callback of the recording numbered `recording`, as evidently
   * intended: it stops only the recording that armed it.
   */
  function AutoStop(s: Reporter, recording: nat): Reporter {
    if s.isRecording && recording == s.recordings then Stop(s) else s
  }

  /** After a manual stop the timer does nothing, in either version. */
  lemma {:induction false} TimerAfterStopIsNoOp(s: Reporter, recording: nat)
    ensures AutoStopAsWritten(Stop(s)) == Stop(s)
    ensures AutoStop(Stop(s), recording) == Stop(s)
  {
  }

  /** The intended timer leaves every later recording alone. */
  lemma {:induction false} StaleTimerIgnored(s: Reporter, recording: nat)
    requires recording != s.recordings
    ensures AutoStop(s, recording) == s
  {
  }

  /**
   * Start, stop by hand, start again within five seconds: the first
   * recording's timer, as written, ends the second recording early; the
   * intended timer leaves it running.
   */
  lemma {:induction false} StaleTimerCutsNextRecording(s: Reporter)
    requires !s.isRecording && s.preGranted.Some?
    ensures var first := RequestMicThenRecord(s);
            var second := RequestMicThenRecord(Stop(first));
            && second.isRecording
            && !AutoStopAsWritten(second).isRecording
            && AutoStop(second, first.recordings) == second
  {
  }

  // ----- Measuring and showing the level -----

  const CalibrationOffset: real := 115.0

  /** `Math.max(-100, Math.min(200, x))` */
  function ClampLevel(x: real): (y: real)
    ensures -100.0 <= y <= 200.0
    ensures -100.0 <= x <= 200.0 ==> y == x
  {
    if x > 200.0 then 200.0 else if x < -100.0 then -100.0 else x
  }

  /**
   * `rmsToDb`: an RMS of exactly 0 is minus infinity; otherwise
   * `20 * Math.log10(rms)`, given here as `dbfs` of the mean square, plus the
   * calibration offset, clamped. No samples at all gives NaN.
   */
  function RmsToDb(rms: Rms, dbfs: real -> real): (level: Num)
    ensures rms.Silent? <==> level == NegInf
    ensures rms.NoSamples? <==> level.NaN?
    ensures rms.Positive? ==> level.Finite? && -100.0 <= level.r <= 200.0
    ensures rms.Positive? && -215.0 <= dbfs(rms.meanSquare) <= 85.0 ==>
              level == Finite(dbfs(rms.meanSquare) + CalibrationOffset)
  {
    match rms
    case Silent => NegInf
    case NoSamples => NaN
    case Positive(ms) => Finite(ClampLevel(dbfs(ms) + CalibrationOffset))
  }

  /** The band of the rounded level. */
  function BandOf(rounded: Num): Band {
    if Above(rounded, 100.0) then VeryLoud
    else if Above(rounded, 80.0) then Loud
    else if Above(rounded, 50.0) then Normal
    else Quiet
  }

  /** The bands over whole decibel values, and the bands of the two values that are not numbers. */
  lemma {:induction false} BandThresholds(db: int)
    ensures BandOf(Finite(db as real)) == VeryLoud <==> db > 100
    ensures BandOf(Finite(db as real)) == Loud <==> 80 < db <= 100
    ensures BandOf(Finite(db as real)) == Normal <==> 50 < db <= 80
    ensures BandOf(Finite(db as real)) == Quiet <==> db <= 50
    ensures BandOf(NegInf) == Quiet && BandOf(NaN) == Quiet
  {
  }

  /** `displayDbLevel` */
  function ShowLevel(s: Reporter, level: Num): Reporter {
    var rounded := RoundNum(level);
    s.(dbValue := ParsedDb(rounded), dbShown := true, band := Some(BandOf(rounded)))
  }

  /** `processRecording` after the samples were decoded. */
  function Process(s: Reporter, rms: Rms, dbfs: real -> real): Reporter {
    CheckValidity(ShowLevel(s, RmsToDb(rms, dbfs)))
  }

  /** A processed recording always shows a level, and one of a measured sound reads back as a number in [-100, 200]. */
  lemma {:induction false} ProcessShowsLevel(s: Reporter, rms: Rms, dbfs: real -> real)
    ensures Process(s, rms, dbfs).dbShown
    ensures rms.Positive? ==> Process(s, rms, dbfs).dbValue.Some?
                              && -100 <= Process(s, rms, dbfs).dbValue.value <= 200
    ensures !rms.Positive? ==> Process(s, rms, dbfs).dbValue.None?
  {
    if rms.Positive? {
      var x := ClampLevel(dbfs(rms.meanSquare) + CalibrationOffset);
      RoundBetween(x, -100, 200);
    }
  }

  // ----- Submitting and resetting -----

  /** `resetForm`: forget the location, hide the level, then recheck the form. */
  function Reset(s: Reporter): Reporter {
    CheckValidity(s.(location := None, dbShown := false))
  }

  lemma {:induction false} ResetClears(s: Reporter)
    ensures Reset(s).location.None?
    ensures !Reset(s).dbShown
    ensures Reset(s).submitDisabled
  {
  }

  /** The JSON body posted to /api/reports. */
  datatype Request = Request(latitude: real, longitude: real, decibels: int, description: string)

  /** Why `submitReport` returned before the network. */
  datatype Refusal = NoLocation | NoDescription | NoRecording

  datatype Submission = Refused(why: Refusal) | Sent(request: Request)

  /** The request `submitReport` sends from `s`, or why it sends none. */
  function SubmissionOf(s: Reporter): Submission {
    if s.location.None? then Refused(NoLocation)
    else if Trim(s.description) == "" then Refused(NoDescription)
    else if s.dbValue.None? then Refused(NoRecording)
    else Sent(Request(s.location.value.latitude, s.location.value.longitude, s.dbValue.value, Trim(s.description)))
  }

  /**
   * `submitReport` up to the request: nothing happens when a guard refuses;
   * otherwise the button is disabled and labelled 'Submitting...', and one
   * more request is on its way.
   */
  function Begin(s: Reporter): Reporter {
    if SubmissionOf(s).Refused? then s
    else s.(submitDisabled := true, buttonText := Submitting, inFlight := s.inFlight + 1)
  }

  /** The submit event, which the browser dispatches only while the button is enabled. */
  function Press(s: Reporter): Reporter {
    if s.submitDisabled then s else Begin(s)
  }

  /**
   * The rest of `submitReport` once an answer arrived, as written: an
   * accepted report (`response.ok`) resets the form (`form.reset()` empties
   * the description, then `resetForm`), and the `finally` block re-enables
   * the button labelled 'Submit' whatever the form holds by then.
   */
  function Settle(s: Reporter, accepted: bool): Reporter {
    if s.inFlight == 0 then s
    else
      var after := if accepted then Reset(s.(description := "")) else s;
      after.(submitDisabled := false, buttonText := SubmitLabel, inFlight := s.inFlight - 1)
  }

  /**
   * The same as evidently intended: the `finally` block restores the label
   * and leaves the button to `checkFormValidity`.
   */
  function SettleChecked(s: Reporter, accepted: bool): Reporter {
    if s.inFlight == 0 then s
    else
      var after := if accepted then Reset(s.(description := "")) else s;
      CheckValidity(after.(buttonText := SubmitLabel, inFlight := s.inFlight - 1))
  }

  /** The three guards of `submitReport`, in order, and the request that passes them. */
  lemma {:induction false} SubmitGuards(s: Reporter)
    ensures SubmissionOf(s) == Refused(NoLocation) <==> s.location.None?
    ensures SubmissionOf(s) == Refused(NoDescription) <==> s.location.Some? && IsBlank(s.description)
    ensures SubmissionOf(s) == Refused(NoRecording) <==>
              s.location.Some? && !IsBlank(s.description) && s.dbValue.None?
    ensures SubmissionOf(s).Refused? ==> Begin(s) == s
    ensures SubmissionOf(s).Sent? ==> Begin(s).submitDisabled && Begin(s).inFlight == s.inFlight + 1
    ensures SubmissionOf(s).Sent? ==>
              && SubmissionOf(s).request.description == Trim(s.description)
              && Trim(SubmissionOf(s).request.description) == SubmissionOf(s).request.description
              && Some(SubmissionOf(s).request.decibels) == s.dbValue
              && Some(Location(SubmissionOf(s).request.latitude, SubmissionOf(s).request.longitude)) == s.location
  {
    TrimEmptyIffBlank(s.description);
    if SubmissionOf(s).Sent? {
      TrimIdempotent(s.description);
    }
  }

  /**
   * Every answer ends with the button labelled 'Submit' and one request
   * fewer pending; an accepted report also clears the form. As written the
   * button is then enabled; as intended it is enabled exactly when the form
   * is ready.
   */
  lemma {:induction false} SettleEnds(s: Reporter, accepted: bool)
    requires s.inFlight > 0
    ensures !Settle(s, accepted).submitDisabled && Settle(s, accepted).buttonText == SubmitLabel
    ensures Settle(s, accepted).inFlight == s.inFlight - 1
    ensures accepted ==> Settle(s, accepted).location.None? && !Settle(s, accepted).dbShown
                         && Settle(s, accepted).description == ""
    ensures !accepted ==> Settle(s, accepted) == s.(submitDisabled := false, buttonText := SubmitLabel, inFlight := s.inFlight - 1)
    ensures SettleChecked(s, accepted).buttonText == SubmitLabel
    ensures !SettleChecked(s, accepted).submitDisabled <==> Gate(SettleChecked(s, accepted))
    ensures accepted ==> SettleChecked(s, accepted).submitDisabled
  {
  }

  /**
   * A silent recording shows "-Infinity" and enables the button like any
   * other level, but `parseInt` reads no number from it, so the submission
   * is refused.
   */
  lemma {:induction false} SilentRecordingIsNeverSent(s: Reporter, dbfs: real -> real)
    requires s.location.Some? && !IsBlank(s.description)
    ensures Process(s, Silent, dbfs).dbShown
    ensures SubmissionOf(Process(s, Silent, dbfs)) == Refused(NoRecording)
  {
    TrimEmptyIffBlank(s.description);
  }

  // ----- Event sequences -----

  /**
   * What can happen between two turns of the page's event loop: a position
   * arrives, the maps script settles, the user types, presses a button or
   * submits, a timer fires, a recording is decoded, or the server answers.
   */
  datatype Event =
    | Located(loc: Location)
    | MapsScript(loaded: bool)
    | Input(text: string)
    | StartButton
    | MicGranted(obtained: StreamId)
    | EnableMicButton(obtained: StreamId)
    | StopButton
    | TimerFired(recording: nat)
    | Recorded(rms: Rms)
    | SubmitPressed
    | Responded(accepted: bool)

  /** The page as written, with `dbfs` standing for the logarithm it takes. */
  function Step(s: Reporter, e: Event, dbfs: real -> real): Reporter {
    match e
    case Located(loc) => LocationArrived(s, loc)
    case MapsScript(loaded) => MapsSettled(s, loaded)
    case Input(text) => Edit(s, text)
    case StartButton => RequestMicThenRecord(s)
    case MicGranted(obtained) => StreamArrived(s, obtained)
    case EnableMicButton(obtained) => PromptMicPermission(s, obtained)
    case StopButton => Stop(s)
    case TimerFired(_) => AutoStopAsWritten(s)
    case Recorded(rms) => Process(s, rms, dbfs)
    case SubmitPressed => Press(s)
    case Responded(accepted) => Settle(s, accepted)
  }

  function Run(s: Reporter, events: seq<Event>, dbfs: real -> real): Reporter
    decreases |events|
  {
    if events == [] then s else Run(Step(s, events[0], dbfs), events[1..], dbfs)
  }

  /**
   * The page as evidently intended: a location is checked as soon as it is
   * stored, a timer stops only its own recording, and the end of a
   * submission rechecks the form.
   */
  function FixedStep(s: Reporter, e: Event, dbfs: real -> real): Reporter {
    match e
    case Located(loc) => LocationArrivedChecked(s, loc)
    case TimerFired(recording) => AutoStop(s, recording)
    case Responded(accepted) => SettleChecked(s, accepted)
    case _ => Step(s, e, dbfs)
  }

  function FixedRun(s: Reporter, events: seq<Event>, dbfs: real -> real): Reporter
    decreases |events|
  {
    if events == [] then s else FixedRun(FixedStep(s, events[0], dbfs), events[1..], dbfs)
  }

  /** Once no fix waits for the maps script, `withinBounds` agrees with the location. */
  predicate SettledBounds(s: Reporter) {
    s.locating == 0 ==> BoundsConsistent(s)
  }

  /** The fields readiness and the area check depend on are unchanged, and so is the count of pending fixes. */
  predicate SameForm(s: Reporter, t: Reporter) {
    && t.location == s.location && t.description == s.description && t.withinBounds == s.withinBounds
    && t.dbShown == s.dbShown && t.dbValue == s.dbValue && t.submitDisabled == s.submitDisabled
    && t.locating == s.locating
  }

  predicate RecordingEvent(e: Event) {
    e.StartButton? || e.MicGranted? || e.EnableMicButton? || e.StopButton? || e.TimerFired?
  }

  /** The microphone and timer events touch none of the form's fields, in either version of the page. */
  lemma {:induction false} RecordingEventsKeepForm(s: Reporter, e: Event, dbfs: real -> real)
    requires RecordingEvent(e)
    ensures SameForm(s, Step(s, e, dbfs)) && SameForm(s, FixedStep(s, e, dbfs))
  {
    match e
    case StartButton =>
    case MicGranted(obtained) =>
    case EnableMicButton(obtained) =>
    case StopButton =>
    case TimerFired(recording) =>
      assert Step(s, e, dbfs) == AutoStopAsWritten(s);
      assert FixedStep(s, e, dbfs) == AutoStop(s, recording);
  }

  /** Typing and a decoded recording end in `checkFormValidity` and leave the location alone. */
  lemma {:induction false} FormEventsRecheck(s: Reporter, e: Event, dbfs: real -> real)
    requires e.Input? || e.Recorded?
    ensures var t := Step(s, e, dbfs);
            && FixedStep(s, e, dbfs) == t
            && t.location == s.location && t.withinBounds == s.withinBounds && t.locating == s.locating
            && (!t.submitDisabled ==> Gate(t))
  {
    match e
    case Input(text) => CheckedIsReady(s.(description := text));
    case Recorded(rms) => CheckedIsReady(ShowLevel(s, RmsToDb(rms, dbfs)));
  }

  /** A settled maps script rechecks the area and the form, in either version of the page. */
  lemma {:induction false} MapsScriptRechecks(s: Reporter, loaded: bool, dbfs: real -> real)
    ensures var t := Step(s, MapsScript(loaded), dbfs);
            && FixedStep(s, MapsScript(loaded), dbfs) == t
            && (s.locating > 0 ==> BoundsConsistent(t) && (!t.submitDisabled ==> Gate(t)))
            && (s.locating == 0 ==> t == s)
            && t.locating == if s.locating > 0 then s.locating - 1 else 0
  {
    if s.locating > 0 {
      var u := s.(mapsLoaded := s.mapsLoaded || loaded, locating := s.locating - 1);
      EvaluateBoundsEffect(u);
      CheckedIsReady(EvaluateBounds(u));
    }
  }

  /** A press only ever disables the button, and changes no field of the form. */
  lemma {:induction false} PressKeepsForm(s: Reporter)
    ensures var t := Press(s);
            && t.location == s.location && t.description == s.description && t.withinBounds == s.withinBounds
            && t.dbShown == s.dbShown && t.dbValue == s.dbValue && t.locating == s.locating
            && (t.submitDisabled == s.submitDisabled || t.submitDisabled)
  {
  }

  /** As written, every event keeps `withinBounds` in step with the location once the pending fixes have settled. */
  lemma {:induction false} StepKeepsSettledBounds(s: Reporter, e: Event, dbfs: real -> real)
    requires SettledBounds(s)
    ensures SettledBounds(Step(s, e, dbfs))
  {
    if RecordingEvent(e) {
      RecordingEventsKeepForm(s, e, dbfs);
    } else if e.Input? || e.Recorded? {
      FormEventsRecheck(s, e, dbfs);
    } else if e.MapsScript? {
      MapsScriptRechecks(s, e.loaded, dbfs);
    } else if e.SubmitPressed? {
      PressKeepsForm(s);
    } else if e.Located? && s.mapsLoaded {
      EvaluateBoundsEffect(s.(location := Some(e.loc)));
    }
  }

  lemma {:induction false} RunKeepsSettledBounds(s: Reporter, events: seq<Event>, dbfs: real -> real)
    requires SettledBounds(s)
    ensures SettledBounds(Run(s, events, dbfs))
    decreases |events|
  {
    if events != [] {
      StepKeepsSettledBounds(s, events[0], dbfs);
      RunKeepsSettledBounds(Step(s, events[0], dbfs), events[1..], dbfs);
    }
  }

  /**
   * Whenever the submit button is enabled, either all four conditions of
   * the form hold or `submitReport` refuses before the network.
   */
  predicate EnabledOnlyWhenReady(s: Reporter) {
    !s.submitDisabled ==> Gate(s) || SubmissionOf(s).Refused?
  }

  predicate Invariant(s: Reporter) {
    BoundsConsistent(s) && EnabledOnlyWhenReady(s)
  }

  lemma {:induction false} InitialInvariant()
    ensures Invariant(Initial()) && Ready(Initial())
  {
  }

  lemma {:induction false} CheckedIsReady(s: Reporter)
    ensures !CheckValidity(s).submitDisabled ==> Gate(CheckValidity(s))
  {
  }

  /** Readiness depends only on the form's fields, the area flag and the button. */
  lemma {:induction false} SameFormSameReadiness(s: Reporter, t: Reporter)
    requires Invariant(s)
    requires t.location == s.location && t.description == s.description && t.withinBounds == s.withinBounds
    requires t.dbShown == s.dbShown && t.dbValue == s.dbValue && t.submitDisabled == s.submitDisabled
    ensures Invariant(t)
  {
    assert Gate(t) == Gate(s) && SubmissionOf(t) == SubmissionOf(s);
  }

  /**
   * As written, every event keeps the invariant except two: a position that
   * arrives while the maps script is not loaded, and the server's answer.
   */
  lemma {:induction false} StepKeepsInvariantOutsideWindows(s: Reporter, e: Event, dbfs: real -> real)
    requires Invariant(s)
    requires !(e.Located? && !s.mapsLoaded) && !e.Responded?
    ensures Invariant(Step(s, e, dbfs))
  {
    if RecordingEvent(e) {
      RecordingEventsKeepForm(s, e, dbfs);
      SameFormSameReadiness(s, Step(s, e, dbfs));
    } else if e.Input? || e.Recorded? {
      FormEventsRecheck(s, e, dbfs);
    } else if e.MapsScript? {
      MapsScriptRechecks(s, e.loaded, dbfs);
    } else if e.SubmitPressed? {
      PressKeepsForm(s);
      assert Gate(Press(s)) == Gate(s) && SubmissionOf(Press(s)) == SubmissionOf(s);
    } else if e.Located? {
      EvaluateBoundsEffect(s.(location := Some(e.loc)));
      CheckedIsReady(EvaluateBounds(s.(location := Some(e.loc))));
    }
  }

  /**
   * A failed submission whose answer arrives after a fix outside the area:
   * the fix disables the button, the `finally` block enables it again, and
   * the next press sends the outside coordinates. (The fix also blocked
   * pointer events on the button, which is not modelled, so that press
   * comes from the keyboard.)
   */
  lemma {:induction false} FailedAnswerReenablesOutside(s: Reporter, outside: Location)
    requires Invariant(s) && !s.submitDisabled && SubmissionOf(s).Sent? && s.mapsLoaded
    requires !InServiceArea(outside)
    ensures var t := Settle(LocationArrived(Press(s), outside), false);
            && !t.submitDisabled
            && !Invariant(t)
            && SubmissionOf(t).Sent?
            && Location(SubmissionOf(t).request.latitude, SubmissionOf(t).request.longitude) == outside
            && Press(t).inFlight == t.inFlight + 1
  {
    var s1 := Press(s);
    assert s1 == s.(submitDisabled := true, buttonText := Submitting, inFlight := s.inFlight + 1);
    var s2 := LocationArrived(s1, outside);
    assert s2 == LocationFix(s1, outside);
    var t := Settle(s2, false);
    assert t == s2.(submitDisabled := false, buttonText := SubmitLabel, inFlight := s.inFlight);
    assert t.location == Some(outside) && !t.withinBounds;
    assert t.description == s.description && t.dbValue == s.dbValue;
  }

  /** The same as a run of the page: press, a position outside the area, a failed answer. */
  lemma {:induction false} FailedAnswerRun(s: Reporter, outside: Location, dbfs: real -> real)
    ensures Run(s, [SubmitPressed, Located(outside), Responded(false)], dbfs)
            == Settle(LocationArrived(Press(s), outside), false)
  {
    RunThree(s, [SubmitPressed, Located(outside), Responded(false)], dbfs);
  }

  /** Three events in a row. */
  lemma {:induction false} RunThree(s: Reporter, events: seq<Event>, dbfs: real -> real)
    requires |events| == 3
    ensures Run(s, events, dbfs) == Step(Step(Step(s, events[0], dbfs), events[1], dbfs), events[2], dbfs)
  {
    var s1 := Step(s, events[0], dbfs);
    var s2 := Step(s1, events[1], dbfs);
    assert events[1..][0] == events[1] && events[1..][1..][0] == events[2] && events[1..][1..][1..] == [];
    assert Run(s2, events[1..][1..], dbfs) == Step(s2, events[2], dbfs);
  }

  /**
   * A position outside the area that arrives while the maps script is not
   * loaded replaces the location but leaves the button as it was, so a
   * ready form can be sent from outside before the script settles. A ready
   * form with the script not loaded is one whose earlier fix was checked
   * after a failed load.
   */
  lemma {:induction false} PressBeforeMapsSendsUncheckedFix(s: Reporter, outside: Location, dbfs: real -> real)
    requires Invariant(s) && !s.submitDisabled && SubmissionOf(s).Sent? && !s.mapsLoaded
    requires !InServiceArea(outside)
    ensures var t := Step(s, Located(outside), dbfs);
            && !t.submitDisabled
            && !Invariant(t)
            && SubmissionOf(t).Sent?
            && Location(SubmissionOf(t).request.latitude, SubmissionOf(t).request.longitude) == outside
            && Press(t).inFlight == t.inFlight + 1
  {
  }

  // ----- The page as intended -----

  /** The invariant of the page as intended: an enabled button means all four conditions hold. */
  predicate Ready(s: Reporter) {
    BoundsConsistent(s) && (!s.submitDisabled ==> Gate(s))
  }

  /** Readiness depends only on the form's fields, the area flag and the button. */
  lemma {:induction false} SameFormStillReady(s: Reporter, t: Reporter)
    requires Ready(s)
    requires t.location == s.location && t.description == s.description && t.withinBounds == s.withinBounds
    requires t.dbShown == s.dbShown && t.submitDisabled == s.submitDisabled
    ensures Ready(t)
  {
    assert Gate(t) == Gate(s);
  }

  /** Checking a position as soon as it is stored keeps the page ready. */
  lemma {:induction false} LocationArrivedCheckedKeepsReady(s: Reporter, loc: Location)
    ensures Ready(LocationArrivedChecked(s, loc))
  {
    EvaluateBoundsEffect(s.(location := Some(loc)));
    CheckedIsReady(EvaluateBounds(s.(location := Some(loc))));
  }

  /** A `finally` block that rechecks the form keeps the page ready, whatever happened while the request was out. */
  lemma {:induction false} SettleCheckedKeepsReady(s: Reporter, accepted: bool)
    requires Ready(s)
    ensures Ready(SettleChecked(s, accepted))
  {
    if s.inFlight > 0 && accepted {
      var after := Reset(s.(description := ""));
      assert after.location.None?;
      CheckedIsReady(after.(buttonText := SubmitLabel, inFlight := s.inFlight - 1));
    } else if s.inFlight > 0 {
      CheckedIsReady(s.(buttonText := SubmitLabel, inFlight := s.inFlight - 1));
    }
  }

  lemma {:induction false} FixedStepKeepsReady(s: Reporter, e: Event, dbfs: real -> real)
    requires Ready(s)
    ensures Ready(FixedStep(s, e, dbfs))
  {
    if RecordingEvent(e) {
      RecordingEventsKeepForm(s, e, dbfs);
      SameFormStillReady(s, FixedStep(s, e, dbfs));
    } else if e.Input? || e.Recorded? {
      FormEventsRecheck(s, e, dbfs);
    } else if e.MapsScript? {
      MapsScriptRechecks(s, e.loaded, dbfs);
    } else if e.SubmitPressed? {
      PressKeepsForm(s);
      assert Gate(Press(s)) == Gate(s);
    } else if e.Located? {
      LocationArrivedCheckedKeepsReady(s, e.loc);
    } else if e.Responded? {
      SettleCheckedKeepsReady(s, e.accepted);
    }
  }

  /** From construction on, through any interleaving of events, the page as intended stays ready. */
  lemma {:induction false} FixedRunKeepsReady(s: Reporter, events: seq<Event>, dbfs: real -> real)
    requires Ready(s)
    ensures Ready(FixedRun(s, events, dbfs))
    decreases |events|
  {
    if events != [] {
      FixedStepKeepsReady(s, events[0], dbfs);
      FixedRunKeepsReady(FixedStep(s, events[0], dbfs), events[1..], dbfs);
    }
  }

  /**
   * Consequently, on the page as intended, whenever the submit button is
   * enabled the form holds a location inside the service area, a level is
   * shown and the description is not blank; every report it sends comes
   * from the service area.
   */
  lemma {:induction false} SentReportsComeFromServiceArea(events: seq<Event>, dbfs: real -> real)
    ensures var s := FixedRun(Initial(), events, dbfs);
            !s.submitDisabled ==>
              s.location.Some? && InServiceArea(s.location.value) && s.dbShown && !IsBlank(s.description)
    ensures var s := FixedRun(Initial(), events, dbfs);
            Press(s) != s ==>
              InServiceArea(Location(SubmissionOf(s).request.latitude, SubmissionOf(s).request.longitude))
  {
    InitialInvariant();
    var s := FixedRun(Initial(), events, dbfs);
    FixedRunKeepsReady(Initial(), events, dbfs);
    TrimEmptyIffBlank(s.description);
  }

  // ----- The object -----

  /** The `NoiseReporter` object; each method keeps its fields equal to the matching transition of the state above. */
  class NoiseReporter {
    var location: Option<Location>
    var withinBounds: bool
    var hasRecorder: bool
    var isRecording: bool
    var recordings: nat
    var activeStream: Option<StreamId>
    var preGranted: Option<StreamId>
    var stoppedStreams: set<StreamId>
    var dbShown: bool
    var dbValue: Option<int>
    var band: Option<Band>
    var description: string
    var submitDisabled: bool
    var buttonText: Label
    var mapsLoaded: bool
    var locating: nat
    var inFlight: nat
    var micRequests: nat

    function State(): Reporter
      reads this
    {
      Reporter(location, withinBounds, hasRecorder, isRecording, recordings, activeStream, preGranted,
               stoppedStreams, dbShown, dbValue, band, description, submitDisabled, buttonText,
               mapsLoaded, locating, inFlight, micRequests)
    }

    constructor()
      ensures State() == Initial()
    {
      location, withinBounds, hasRecorder, isRecording, recordings := None, false, false, false, 0;
      activeStream, preGranted, stoppedStreams := None, None, {};
      dbShown, dbValue, band, description, submitDisabled, buttonText := false, None, None, "", true, MarkupLabel;
      mapsLoaded, locating, inFlight, micRequests := false, 0, 0, 0;
    }

    method EvaluateBoundsAndUI()
      modifies this
      ensures State() == EvaluateBounds(old(State()))
    {
      if location.Some? {
        var inside := InServiceArea(location.value);
        withinBounds := inside;
        if !inside {
          submitDisabled := true;
        }
      }
    }

    method CheckFormValidity()
      modifies this
      ensures State() == CheckValidity(old(State()))
    {
      var hasLocation := location.Some?;
      var trimmed := Trim(description);
      var hasDescription := |trimmed| > 0;
      var hasRecording := dbShown;
      ghost var before := State();
      assert Gate(before) <==> hasLocation && hasDescription && hasRecording && withinBounds;
      submitDisabled := !(hasLocation && hasDescription && hasRecording && withinBounds);
      assert State() == before.(submitDisabled := !Gate(before));
    }

    /** `getCurrentLocation` from the arrival of the position to the `await` of the maps script. */
    method OnPosition(loc: Location)
      modifies this
      ensures State() == LocationArrived(old(State()), loc)
    {
      location := Some(loc);
      if mapsLoaded {
        EvaluateBoundsAndUI();
        CheckFormValidity();
      } else {
        locating := locating + 1;
      }
    }

    /** The rest of `getCurrentLocation` once the maps script a fix waited for has loaded or failed. */
    method OnMapsScriptSettled(loaded: bool)
      modifies this
      ensures State() == MapsSettled(old(State()), loaded)
    {
      if locating == 0 {
        return;
      }
      FixSettled(loaded);
      EvaluateBoundsAndUI();
      CheckFormValidity();
    }

    /** One pending fix fewer, and the script marked loaded when it did load. */
    method FixSettled(loaded: bool)
      requires locating > 0
      modifies this
      ensures State() == old(State()).(mapsLoaded := old(mapsLoaded) || loaded, locating := old(locating) - 1)
    {
      if loaded {
        mapsLoaded := true;
      }
      locating := locating - 1;
    }

    method UpdateCharCount(text: string)
      modifies this
      ensures State() == Edit(old(State()), text)
    {
      description := text;
      CheckFormValidity();
    }

    method StartRecording(stream: StreamId) returns (timer: nat)
      modifies this
      ensures State() == Start(old(State()), stream)
      ensures timer == recordings
    {
      activeStream := Some(stream);
      hasRecorder := true;
      isRecording := true;
      recordings := recordings + 1;
      timer := recordings;
    }

    /** The start button's handler up to the `await` of `getUserMedia`; `started` tells whether it recorded at once. */
    method RequestMicrophoneThenRecord() returns (started: bool)
      modifies this
      ensures State() == RequestMicThenRecord(old(State()))
      ensures started <==> old(preGranted).Some?
    {
      if preGranted.Some? {
        var timer := StartRecording(preGranted.value);
        return true;
      }
      micRequests := micRequests + 1;
      return false;
    }

    /** The rest of the start button's handler once the requested stream arrived. */
    method OnMicrophoneGranted(obtained: StreamId)
      modifies this
      ensures State() == StreamArrived(old(State()), obtained)
    {
      if micRequests == 0 {
        return;
      }
      micRequests := micRequests - 1;
      preGranted := Some(obtained);
      var timer := StartRecording(obtained);
    }

    method PromptMicrophonePermission(obtained: StreamId)
      modifies this
      ensures State() == PromptMicPermission(old(State()), obtained)
    {
      preGranted := Some(obtained);
    }

    method StopRecording()
      modifies this
      ensures State() == Stop(old(State()))
    {
      if hasRecorder && isRecording {
        isRecording := false;
        var keep := preGranted.Some? && preGranted == activeStream;
        if activeStream.Some? && !keep {
          stoppedStreams := stoppedStreams + {activeStream.value};
        }
        if !keep {
          activeStream := None;
        }
      }
    }

    /** The auto-stop callback, whichever recording armed it. */
    method OnAutoStopTimer()
      modifies this
      ensures State() == AutoStopAsWritten(old(State()))
    {
      if isRecording {
        StopRecording();
      }
    }

    method DisplayDbLevel(level: Num)
      modifies this
      ensures State() == ShowLevel(old(State()), level)
    {
      var rounded := RoundNum(level);
      dbValue := ParsedDb(rounded);
      dbShown := true;
      band := Some(BandOf(rounded));
    }

    method ProcessRecording(channel: array<real>, dbfs: real -> real)
      modifies this
      ensures State() == Process(old(State()), RmsOf(channel[..]), dbfs)
    {
      var rms := CalculateRms(channel);
      DisplayDbLevel(RmsToDb(rms, dbfs));
      CheckFormValidity();
    }

    method ResetForm()
      modifies this
      ensures State() == Reset(old(State()))
    {
      location := None;
      dbShown := false;
      CheckFormValidity();
    }

    /** `submitReport` up to the `await` of the request; `sent` is the body posted, if any. */
    method SubmitReport() returns (sent: Option<Request>)
      modifies this
      ensures State() == Begin(old(State()))
      ensures sent.Some? <==> SubmissionOf(old(State())).Sent?
      ensures sent.Some? ==> sent.value == SubmissionOf(old(State())).request
    {
      ghost var before := State();
      if location.None? {
        assert SubmissionOf(before).Refused?;
        return None;
      }
      var trimmed := Trim(description);
      if |trimmed| == 0 {
        assert SubmissionOf(before).Refused?;
        return None;
      }
      if dbValue.None? {
        assert SubmissionOf(before).Refused?;
        return None;
      }
      sent := Some(Request(location.value.latitude, location.value.longitude, dbValue.value, trimmed));
      assert SubmissionOf(before) == Sent(sent.value);
      MarkSubmitting();
    }

    /** The button disabled and labelled 'Submitting...' while one more request is on its way. */
    method MarkSubmitting()
      modifies this
      ensures State() == old(State()).(submitDisabled := true, buttonText := Submitting, inFlight := old(inFlight) + 1)
    {
      submitDisabled := true;
      buttonText := Submitting;
      inFlight := inFlight + 1;
    }

    /** The rest of `submitReport` once the server answered (`accepted` is `response.ok`), through the `finally` block. */
    method OnResponse(accepted: bool)
      modifies this
      ensures State() == Settle(old(State()), accepted)
    {
      if inFlight == 0 {
        return;
      }
      inFlight := inFlight - 1;
      if accepted {
        description := "";
        ResetForm();
      }
      EnableSubmit();
    }

    /** The `finally` block as written. */
    method EnableSubmit()
      modifies this
      ensures State() == old(State()).(submitDisabled := false, buttonText := SubmitLabel)
    {
      submitDisabled := false;
      buttonText := SubmitLabel;
    }
  }
}
