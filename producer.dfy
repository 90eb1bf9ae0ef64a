/**
 * `camera_loop` and `main`: the producer that turns frames into pushes, and
 * the entry point that picks the viewer backend and tears everything down.
 */
module Producer {
  import opened Options
  import Detector
  import Resolver
  import Glyphs
  import TkViewer
  import WebViewer

  /**
   * The camera's `frames()` as far as it is observed: what the detector
   * reports for each frame read, and whether the next read then fails
   * (the RuntimeError of a frame the device could not deliver).
   */
  datatype FrameSource = FrameSource(frames: seq<Detector.Detection>, failsAfter: bool)

  predicate SourceWellFormed(source: FrameSource)
  {
    forall i :: 0 <= i < |source.frames| ==> Detector.WellFormed(source.frames[i])
  }

  /**
   * How the loop ends: on seeing the stop flag after reading frame `at`;
   * with the camera's exception escaping the thread; or still waiting for
   * a frame beyond the observed ones.
   */
  datatype LoopEnd = StopObserved(at: nat) | CameraFailed | AwaitingFrame

  /** The label `camera_loop` pushes for one frame. */
  function FrameLabel(d: Detector.Detection): (emotion: string)
    requires Detector.WellFormed(d)
  {
    var m := Detector.FrameEmotion(d);
    Detector.FrameEmotionSize(d);
    Resolver.Resolve(m).value
  }

  /**
   * `camera_loop`. `stopSeen[i]` is what `stop.is_set()` answers after frame
   * i has arrived; the pushes `viewer.push(label)` receives are returned in
   * order. Every frame before the first stop observation is classified and
   * pushed exactly once, in frame order; the frame at which stop is seen and
   * everything after it are not.
   */
  method CameraLoop(source: FrameSource, stopSeen: seq<bool>)
    returns (pushes: seq<string>, end: LoopEnd)
    requires SourceWellFormed(source) && |stopSeen| == |source.frames|
    ensures |pushes| <= |source.frames|
    ensures forall i :: 0 <= i < |pushes| ==> !stopSeen[i]
    ensures forall i :: 0 <= i < |pushes| ==> pushes[i] == FrameLabel(source.frames[i])
    ensures end.StopObserved? ==> end.at == |pushes| && end.at < |stopSeen| && stopSeen[end.at]
    ensures !end.StopObserved? ==> |pushes| == |source.frames|
    ensures end.CameraFailed? <==> !end.StopObserved? && source.failsAfter
  {
    pushes := [];
    var i := 0;
    while i < |source.frames|
      invariant 0 <= i <= |source.frames| && |pushes| == i
      invariant forall j :: 0 <= j < i ==> !stopSeen[j]
      invariant forall j :: 0 <= j < i ==> pushes[j] == FrameLabel(source.frames[j])
    {
      if stopSeen[i] {
        break;
      }
      var emotion := FrameLabel(source.frames[i]);
      pushes := pushes + [emotion];
      i := i + 1;
    }
    if i < |source.frames| {
      end := StopObserved(i);
    } else {
      end := if source.failsAfter then CameraFailed else AwaitingFrame;
    }
  }

  /**
   * A camera that fails after five frames: five pushes, then the exception
   * ends the thread (the stop flag is not set by the loop).
   */
  method CameraFailsAfterFive(frames: seq<Detector.Detection>) returns (pushed: nat, end: LoopEnd)
    requires |frames| == 5 && forall i :: 0 <= i < 5 ==> Detector.WellFormed(frames[i])
    ensures pushed == 5 && end == CameraFailed
  {
    var pushes;
    pushes, end := CameraLoop(FrameSource(frames, true), [false, false, false, false, false]);
    pushed := |pushes|;
  }

  /** A face that is plainly happy yields the label "happiness" and, under the default table, its emoji. */
  lemma HappyFace(others: seq<real>)
    requires |others| == 6 && forall i :: 0 <= i < 6 ==> others[i] == 0.0
    ensures var d := Detector.Detection(true, [others[..3] + [0.9] + others[3..]]);
      && FrameLabel(d) == "happiness"
      && Glyphs.Glyph(Glyphs.DefaultEmojiMap, FrameLabel(d)) == "\U{1F604}"
  {
    var d := Detector.Detection(true, [others[..3] + [0.9] + others[3..]]);
    var p := d.predictions[0];
    assert forall j :: 0 <= j < 7 && j != 3 ==> p[j] == 0.0;
    Detector.FaceResolvesToEarliestMax(d, 3);
  }

  /** Every pushed label is one of the seven emotions. */
  lemma FrameLabelIsEmotion(d: Detector.Detection)
    requires Detector.WellFormed(d)
    ensures FrameLabel(d) in Detector.Emotions
  {
    var m := Detector.FrameEmotion(d);
    Detector.FrameEmotionSize(d);
    assert Detector.Emotions[6] == Resolver.Neutral;
  }

  /** `VIEWER_BACKEND`. */
  const ViewerBackend: string := "web"

  datatype Backend = Tk | Web

  /** The backend choice of `main`: "tk", "web", or None where it raises ValueError. */
  function ParseBackend(s: string): (b: Option<Backend>)
    ensures b == Some(Tk) <==> s == "tk"
    ensures b == Some(Web) <==> s == "web"
  {
    if s == "tk" then Some(Tk) else if s == "web" then Some(Web) else None
  }

  /** `threading.Event`: a flag that can only be set. */
  class StopEvent {
    var isSet: bool

    constructor ()
      ensures !isSet
    {
      isSet := false;
    }

    method Set()
      modifies this
      ensures isSet
    {
      isSet := true;
    }
  }

  /** The steps of `main` that the teardown protocol is about. */
  datatype Step = ConstructViewer(backend: Backend) | StartProducer | RunViewer | SetStop | CloseViewer

  /** How `main` ends: ValueError for a bad backend, or as `viewer.run()` ended. */
  datatype MainOutcome = BackendError | RunReturned | RunRaised

  /**
   * The teardown protocol of `main`: the stop flag is set once and the viewer
   * closed once, as the last two steps, stop first.
   */
  predicate ClosesOnceAfterStop(steps: seq<Step>)
  {
    && |steps| >= 2
    && steps[|steps| - 2] == SetStop && steps[|steps| - 1] == CloseViewer
    && SetStop !in steps[..|steps| - 2] && CloseViewer !in steps[..|steps| - 2]
  }

  /**
   * `main` with backend `backend`; `runRaises` says whether `viewer.run()`
   * raises, and `destroyFails` whether the web window's `destroy` raises in
   * `close` (it is swallowed there). Each step is recorded right after the action it names. A bad
   * backend raises before any viewer exists; otherwise, however run ends, the
   * stop flag is set and then the viewer built for the backend is closed.
   * Exactly one of `tk` and `web` is that viewer.
   */
  method Launch(backend: string, runRaises: bool, destroyFails: bool)
    returns (outcome: MainOutcome, steps: seq<Step>, stop: StopEvent,
             tk: TkViewer.EmotionViewer?, web: WebViewer.EmotionViewer?)
    ensures fresh(stop)
    ensures outcome == BackendError <==> ParseBackend(backend).None?
    ensures outcome == BackendError ==> steps == [] && !stop.isSet && tk == null && web == null
    ensures outcome != BackendError ==>
      && outcome == (if runRaises then RunRaised else RunReturned)
      && steps == [ConstructViewer(ParseBackend(backend).value), StartProducer, RunViewer,
                   SetStop, CloseViewer]
      && ClosesOnceAfterStop(steps)
      && stop.isSet
    ensures ParseBackend(backend) == Some(Tk) ==>
      && tk != null && web == null && fresh(tk) && tk.Valid() && !tk.running && tk.destroyCalls == 1
    ensures ParseBackend(backend) == Some(Web) ==>
      && web != null && tk == null && fresh(web) && fresh(web.api) && web.Valid()
      && !web.api.running && web.windowDestroyed == !destroyFails
  {
    stop := new StopEvent();
    steps := [];
    tk, web := null, null;
    var choice := ParseBackend(backend);
    if choice.None? {
      return BackendError, steps, stop, tk, web;
    }
    match choice.value {
      case Tk => tk := new TkViewer.EmotionViewer(None);
      case Web => web := new WebViewer.EmotionViewer(None);
    }
    steps := steps + [ConstructViewer(choice.value)];
    // th.start(): the producer thread runs `CameraLoop` concurrently; its
    // pushes are not interleaved here.
    steps := steps + [StartProducer];
    // try: viewer.run(); the event loop itself is not modelled, only whether
    // it returns or raises.
    steps := steps + [RunViewer];
    outcome := if runRaises then RunRaised else RunReturned;
    // finally: stop.set(); viewer.close()
    stop.Set();
    steps := steps + [SetStop];
    if tk != null {
      tk.Close();
    } else {
      web.Close(destroyFails);
    }
    steps := steps + [CloseViewer];
  }

  /** The shipped `VIEWER_BACKEND` selects the web viewer. */
  lemma ShippedBackendIsWeb()
    ensures ParseBackend(ViewerBackend) == Some(Web)
  {
  }
}
