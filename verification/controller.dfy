/**
 The view controller's screen state: the `isStopped` toggle, whether the
 camera session is running, and one region per model (title, two result
 labels, result stack and activity indicator). The UIKit outlets become
 fields of `Region`; every handler becomes a pure function from screen to
 screen.
 */
module Controller {
  import opened Ranking
  import opened Models
  import opened Presenter

  /** One model's area of the screen. The activity indicator hides itself when
      it stops animating, so one flag says both "animating" and "visible". */
  datatype Region = Region(title: Text, top: Text, second: Text,
                           stackHidden: bool, spinning: bool)

  /** Results on show, spinner gone. */
  predicate Idle(r: Region) {
    !r.stackHidden && !r.spinning
  }

  /** Results hidden, spinner turning. */
  predicate Busy(r: Region) {
    r.stackHidden && r.spinning
  }

  predicate SameTexts(a: Region, b: Region) {
    a.title == b.title && a.top == b.top && a.second == b.second
  }

  const TopPlaceholder: Text := Plain("Top prediction")
  const SecondPlaceholder: Text := Plain("Second best prediction")

  /** The region as `resetResultLabels` leaves it. */
  predicate ShowsPlaceholders(m: Model, r: Region) {
    r.title == Plain(Name(m)) && r.top == TopPlaceholder && r.second == SecondPlaceholder
  }

  /** The four regions: every model has one. */
  type Regions = rs: map<Model, Region> | forall m: Model :: m in rs
    witness BlankRegions()

  /** Regions with empty labels, as an unconfigured storyboard has them. */
  function BlankRegions(): (rs: map<Model, Region>)
    ensures forall m: Model :: m in rs
  {
    AllModelsListed();
    map m | m in AllModels :: Region(Plain(""), Plain(""), Plain(""), false, false)
  }

  datatype Screen = Screen(isStopped: bool, scanning: bool, regions: Regions)

  /** Exactly one of the result stack and the spinner is visible in every
      region. */
  predicate Coherent(s: Screen) {
    forall m: Model :: s.regions[m].stackHidden == s.regions[m].spinning
  }

  /** What one inference attempt in `performPrediction` came to. */
  datatype Prediction =
    | ImageUnavailable                      // no image data, or it did not decode
    | ModelUnavailable                      // the CoreML model could not be wrapped for Vision
    | InferenceFailed                       // `perform` threw
    | Classified(observations: seq<Observation>, elapsed: nat)

  /** What the still-image capture came to: an error or an empty buffer, or an
      image on which every model produced its own outcome. */
  datatype Capture =
    | CaptureFailed
    | Captured(outcome: Model -> Prediction)

  // ---------------------------------------------------------------------
  // Region-level updates

  function WaitRegion(r: Region): (r': Region)
    ensures Busy(r') && SameTexts(r', r)
  {
    r.(stackHidden := true, spinning := true)
  }

  function ReleaseRegion(r: Region): (r': Region)
    ensures Idle(r') && SameTexts(r', r)
  {
    r.(stackHidden := false, spinning := false)
  }

  function PlaceholderRegion(m: Model, r: Region): (r': Region)
    ensures ShowsPlaceholders(m, r')
    ensures r'.stackHidden == r.stackHidden && r'.spinning == r.spinning
  {
    r.(title := Plain(Name(m)), top := TopPlaceholder, second := SecondPlaceholder)
  }

  /** `performPrediction` for model `m`, seen from its own region. */
  function PredictRegion(m: Model, p: Prediction, r: Region): (r': Region)
    ensures p.ImageUnavailable? ==> r' == r
    ensures p.ModelUnavailable? ==> Idle(r') && SameTexts(r', r)
    ensures p.InferenceFailed? ==>
              && Idle(r')
              && r'.title == Plain(Name(m))
              && r'.top == ErrorText && r'.second == ErrorText
    ensures p.Classified? ==>
              && Idle(r')
              && r'.title == Timed(Name(m), p.elapsed)
              && (r'.top, r'.second) == ResultTexts(m, p.observations)
  {
    match p
    case ImageUnavailable => r
    case ModelUnavailable => ReleaseRegion(r)
    case InferenceFailed =>
      ReleaseRegion(r.(title := Plain(Name(m)), top := ErrorText, second := ErrorText))
    case Classified(obs, elapsed) =>
      var (top, second) := ResultTexts(m, obs);
      ReleaseRegion(r.(title := Timed(Name(m), elapsed), top := top, second := second))
  }

  // ---------------------------------------------------------------------
  // Screen-level handlers

  /** `startWaiting`: every region hides its results and shows its spinner. */
  function StartWaiting(s: Screen): (t: Screen)
    ensures forall m: Model :: Busy(t.regions[m]) && SameTexts(t.regions[m], s.regions[m])
    ensures t.isStopped == s.isStopped && t.scanning == s.scanning
  {
    s.(regions := map m | m in s.regions :: WaitRegion(s.regions[m]))
  }

  /** `stopWaiting(for:)`: region `m` shows its results again; nothing else
      on the screen changes. */
  function StopWaitingFor(s: Screen, m: Model): (t: Screen)
    ensures Idle(t.regions[m]) && SameTexts(t.regions[m], s.regions[m])
    ensures forall n: Model :: n != m ==> t.regions[n] == s.regions[n]
    ensures t.isStopped == s.isStopped && t.scanning == s.scanning
  {
    s.(regions := s.regions[m := ReleaseRegion(s.regions[m])])
  }

  /** `stopWaiting()`: the four regions in turn. */
  function StopWaiting(s: Screen): (t: Screen)
    ensures forall m: Model :: Idle(t.regions[m]) && SameTexts(t.regions[m], s.regions[m])
    ensures t.isStopped == s.isStopped && t.scanning == s.scanning
  {
    StopWaitingFor(StopWaitingFor(StopWaitingFor(StopWaitingFor(
      s, ResNet50), VGG16), MobileNet), NASNetMobile)
  }

  /** `resetResultLabels`: every region shows its model name and the two
      placeholders; the busy state is left as it was. */
  function ResetResultLabels(s: Screen): (t: Screen)
    ensures forall m: Model ::
              && ShowsPlaceholders(m, t.regions[m])
              && t.regions[m].stackHidden == s.regions[m].stackHidden
              && t.regions[m].spinning == s.regions[m].spinning
    ensures t.isStopped == s.isStopped && t.scanning == s.scanning
  {
    s.(regions := map m | m in s.regions :: PlaceholderRegion(m, s.regions[m]))
  }

  /** `startScanning`: the capture session runs. */
  function StartScanning(s: Screen): (t: Screen)
    ensures t.scanning
    ensures t.isStopped == s.isStopped && t.regions == s.regions
  {
    s.(scanning := true)
  }

  /** `stopScanning`: the capture session stops. */
  function StopScanning(s: Screen): (t: Screen)
    ensures !t.scanning
    ensures t.isStopped == s.isStopped && t.regions == s.regions
  {
    s.(scanning := false)
  }

  /** `viewDidLoad`: whatever the storyboard put in the labels, the screen
      starts with placeholders, idle regions, and no capture taken. */
  function ViewDidLoad(storyboard: Regions): (t: Screen)
    ensures !t.isStopped && !t.scanning
    ensures forall m: Model :: ShowsPlaceholders(m, t.regions[m]) && Idle(t.regions[m])
  {
    StopWaiting(ResetResultLabels(Screen(false, false, storyboard)))
  }

  /** `didTapOnCameraView`, the part that runs at the tap. When stopped, the
      camera resumes and the labels are reset; otherwise every region goes
      busy and a still capture is requested, whose completion is the separate
      event `CaptureCompleted`. Either way the toggle flips. */
  function Tap(s: Screen): (t: Screen)
    ensures t.isStopped == !s.isStopped
    ensures s.isStopped ==>
              && t.scanning
              && forall m: Model ::
                   && ShowsPlaceholders(m, t.regions[m])
                   && t.regions[m].stackHidden == s.regions[m].stackHidden
                   && t.regions[m].spinning == s.regions[m].spinning
    ensures !s.isStopped ==>
              && t.scanning == s.scanning
              && forall m: Model :: Busy(t.regions[m]) && SameTexts(t.regions[m], s.regions[m])
  {
    var t := if s.isStopped then ResetResultLabels(StartScanning(s)) else StartWaiting(s);
    t.(isStopped := !s.isStopped)
  }

  /** `performPrediction` for model `m`: only region `m` changes. */
  function Predict(s: Screen, m: Model, p: Prediction): (t: Screen)
    ensures t.regions[m] == PredictRegion(m, p, s.regions[m])
    ensures forall n: Model :: n != m ==> t.regions[n] == s.regions[n]
    ensures t.isStopped == s.isStopped && t.scanning == s.scanning
  {
    s.(regions := s.regions[m := PredictRegion(m, p, s.regions[m])])
  }

  /** The completion of the still-image capture. The session stops; on
      failure every region goes idle and the session restarts; on success the
      four models run in the order the controller issues them. */
  function CaptureCompleted(s: Screen, c: Capture): (t: Screen)
    ensures t.isStopped == s.isStopped
    ensures c.CaptureFailed? ==>
              && t.scanning
              && forall m: Model :: Idle(t.regions[m]) && SameTexts(t.regions[m], s.regions[m])
    ensures c.Captured? ==>
              && !t.scanning
              && forall m: Model :: t.regions[m] == PredictRegion(m, c.outcome(m), s.regions[m])
  {
    var stopped := StopScanning(s);
    match c
    case CaptureFailed =>
      StartScanning(StopWaiting(stopped))
    case Captured(outcome) =>
      var s1 := Predict(stopped, ResNet50, outcome(ResNet50));
      var s2 := Predict(s1, VGG16, outcome(VGG16));
      var s3 := Predict(s2, NASNetMobile, outcome(NASNetMobile));
      Predict(s3, MobileNet, outcome(MobileNet))
  }

  // ---------------------------------------------------------------------
  // Runs of the screen

  /** The events the screen reacts to after loading. `Appeared` is
      `viewDidAppear` with camera access granted. */
  datatype Event =
    | Appeared
    | Tapped
    | CaptureDone(capture: Capture)

  function Step(s: Screen, e: Event): Screen {
    match e
    case Appeared => StartScanning(s)
    case Tapped => Tap(s)
    case CaptureDone(c) => CaptureCompleted(s, c)
  }

  function Run(s: Screen, events: seq<Event>): Screen
    decreases |events|
  {
    if |events| == 0 then s else Run(Step(s, events[0]), events[1..])
  }

  /** Every handler keeps the results and the spinner mutually exclusive. */
  lemma StepKeepsCoherent(s: Screen, e: Event)
    requires Coherent(s)
    ensures Coherent(Step(s, e))
  {
    match e
    case Appeared =>
    case Tapped =>
    case CaptureDone(c) =>
  }

  /** After loading, whatever events arrive and in whatever order (a second
      tap before the capture completes included), no region ever shows both
      its results and its spinner, or neither. */
  lemma {:induction false} RunKeepsCoherent(storyboard: Regions, events: seq<Event>)
    ensures Coherent(Run(ViewDidLoad(storyboard), events))
  {
    RunFromCoherent(ViewDidLoad(storyboard), events);
  }

  lemma {:induction false} RunFromCoherent(s: Screen, events: seq<Event>)
    requires Coherent(s)
    ensures Coherent(Run(s, events))
    decreases |events|
  {
    if |events| > 0 {
      StepKeepsCoherent(s, events[0]);
      RunFromCoherent(Step(s, events[0]), events[1..]);
    }
  }

  /** Every tap flips the toggle, so after a run it records the parity of the
      taps in it. */
  lemma {:induction false} RunTogglesOnTaps(s: Screen, events: seq<Event>)
    ensures Run(s, events).isStopped == (s.isStopped != (Taps(events) % 2 == 1))
    decreases |events|
  {
    if |events| > 0 {
      RunTogglesOnTaps(Step(s, events[0]), events[1..]);
    }
  }

  function Taps(events: seq<Event>): nat
    decreases |events|
  {
    if |events| == 0 then 0
    else (if events[0].Tapped? then 1 else 0) + Taps(events[1..])
  }

  // ---------------------------------------------------------------------
  // Properties of the handlers

  /** Resuming resets the labels whatever the screen showed before: two
      stopped screens are indistinguishable in their texts after a tap. */
  lemma ResumeForgetsHistory(s1: Screen, s2: Screen, m: Model)
    requires s1.isStopped && s2.isStopped
    ensures SameTexts(Tap(s1).regions[m], Tap(s2).regions[m])
    ensures Tap(s1).isStopped == Tap(s2).isStopped == false
  {
  }

  /** Resetting twice is resetting once. */
  lemma ResetIdempotent(s: Screen)
    ensures ResetResultLabels(ResetResultLabels(s)) == ResetResultLabels(s)
  {
    var once := ResetResultLabels(s);
    var twice := ResetResultLabels(once);
    assert twice.regions == once.regions;
  }

  /** The four predictions touch disjoint regions, so the fixed issue order
      ResNet50, VGG16, NASNetMobile, MobileNet is immaterial. */
  lemma PredictionsCommute(s: Screen, m1: Model, p1: Prediction, m2: Model, p2: Prediction)
    requires m1 != m2
    ensures Predict(Predict(s, m1, p1), m2, p2) == Predict(Predict(s, m2, p2), m1, p1)
  {
    var a := Predict(Predict(s, m1, p1), m2, p2);
    var b := Predict(Predict(s, m2, p2), m1, p1);
    assert a.regions == b.regions;
  }

  /** Once a prediction has resolved (with results, none, or an error), its
      region shows exactly one of: two results; one result and "?"; "?" twice;
      the error text twice. A region whose image was unavailable is left
      as it was, spinner included. */
  lemma PredictionOutcomes(m: Model, p: Prediction, r: Region)
    ensures var r' := PredictRegion(m, p, r);
            && (p.ImageUnavailable? ==> r' == r)
            && (!p.ImageUnavailable? ==> Idle(r'))
            && (p.InferenceFailed? ==> r'.top == ErrorText && r'.second == ErrorText)
            && (p.Classified? ==>
                  var n := |p.observations|;
                  && (n == 0 ==> r'.top == Unknown && r'.second == Unknown)
                  && (n == 1 ==> r'.top.Shown? && r'.second == Unknown)
                  && (n >= 2 ==> r'.top.Shown? && r'.second.Shown?))
  {
    if p.Classified? && |p.observations| >= 1 {
      var r' := PredictRegion(m, p, r);
      assert r'.top != Unknown;
      var top :| && IsTopTwo(p.observations, top)
                 && r'.top == ShownAs(m, top[0])
                 && (|p.observations| >= 2 ==> r'.second == ShownAs(m, top[1]));
    }
  }

  /** With no video connection a tap requests no capture, so no completion
      follows: the regions stay busy, and the next (resume) tap does not
      release them either, since resetting the labels leaves the spinners
      alone. */
  lemma ResumeKeepsSpinners(s: Screen)
    requires !s.isStopped
    ensures var t := Tap(Tap(s));
            && !t.isStopped
            && forall m: Model :: Busy(t.regions[m]) && ShowsPlaceholders(m, t.regions[m])
  {
  }

  /** A failed capture leaves `isStopped` set even though the camera is live
      again: the next tap takes the resume branch, resetting the labels
      instead of capturing. */
  lemma CaptureFailureThenTap(s: Screen)
    requires !s.isStopped
    ensures var failed := CaptureCompleted(Tap(s), CaptureFailed);
            && failed.isStopped && failed.scanning
            && (forall m: Model :: Idle(failed.regions[m]) && SameTexts(failed.regions[m], s.regions[m]))
            && var next := Tap(failed);
               && !next.isStopped
               && forall m: Model :: Idle(next.regions[m]) && ShowsPlaceholders(m, next.regions[m])
  {
  }
}
