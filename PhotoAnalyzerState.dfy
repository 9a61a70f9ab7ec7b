/** The observable state of the photo-analyzer component and its transitions, as values.
    Each transition function is the specification of one handler of the component
    (proximity callback, click handler, interval tick, stopCapture, classifyWaste);
    the class in PhotoAnalyzer.dfy performs the same transitions in place. */
module PhotoAnalyzerState {

  datatype Option<T> = None | Some(value: T)

  /** What the camera service's takePicture settles to: a base64 string, no string
      (undefined), or a thrown error. */
  datatype CameraOutcome = Image(data: string) | NoImage | CameraFailed

  /** What the remote classifier settles to: the raw response text, or a thrown error. */
  datatype ClassifyOutcome = Label(text: string) | ClassifyFailed

  /** The component's fields; `timerArmed` stands for `captureInterval` holding a live interval. */
  datatype Snapshot = Snapshot(
    imageBase64: Option<string>,
    classification: Option<string>,
    analyzing: bool,
    isInRange: bool,
    proximityMessage: string,
    error: Option<string>,
    isCapturing: bool,
    timerArmed: bool,
    captureTimeLeft: int)

  /** Length of a capture in seconds (five minutes). */
  const Ceiling: int := 300
  /** The fixed proximity window in centimetres, bounds included. */
  const MinDistance: real := 5.0
  const MaxDistance: real := 10.0

  const ReadyMessage: string := "Distancia correcta - Listo para capturar"
  const ApproachMessage: string := "Acerque el residuo entre 5-10 cm de la cámara"
  const CameraErrorMessage: string := "Error al acceder a la cámara. Por favor, verifica los permisos."
  const AnalysisErrorMessage: string := "Error al analizar la imagen. Por favor, intente de nuevo."

  /** JavaScript truthiness of a `string | undefined`: defined and non-empty. */
  predicate Truthy(o: Option<string>) {
    o.Some? && o.value != ""
  }

  predicate InRange(distance: real) {
    MinDistance <= distance <= MaxDistance
  }

  function GateMessage(inRange: bool): string {
    if inRange then ReadyMessage else ApproachMessage
  }

  /** What the user sees of the last capture: image, label and error text. */
  predicate SameDisplay(s: Snapshot, t: Snapshot) {
    t.imageBase64 == s.imageBase64 && t.classification == s.classification && t.error == s.error
  }

  /** The proximity gate's part of the state. */
  predicate SameGate(s: Snapshot, t: Snapshot) {
    t.isInRange == s.isInRange && t.proximityMessage == s.proximityMessage
  }

  /** The capture's part of the state. */
  predicate SameCapture(s: Snapshot, t: Snapshot) {
    t.isCapturing == s.isCapturing && t.timerArmed == s.timerArmed
    && t.captureTimeLeft == s.captureTimeLeft && t.analyzing == s.analyzing
  }

  /** The invariant every reachable state keeps. */
  ghost predicate Valid(s: Snapshot) {
    && 0 <= s.captureTimeLeft <= Ceiling
    && (s.timerArmed ==> s.isCapturing)
    && (!s.isCapturing ==> s.captureTimeLeft == Ceiling)
    && !s.analyzing
    && s.proximityMessage == GateMessage(s.isInRange)
  }

  /** The field initialisers of the component. */
  function Initial(): (s: Snapshot)
    ensures Valid(s)
    ensures !s.isCapturing && !s.isInRange && !s.analyzing && !s.timerArmed
    ensures s.captureTimeLeft == Ceiling && s.proximityMessage == ApproachMessage
    ensures s.imageBase64 == None && s.classification == None && s.error == None
  {
    Snapshot(None, None, false, false, ApproachMessage, None, false, false, Ceiling)
  }

  /** The proximity subscription callback: one distance reading. */
  function AfterDistance(s: Snapshot, distance: real): (t: Snapshot)
    ensures t.isInRange <==> 5.0 <= distance <= 10.0
    ensures t.proximityMessage == ReadyMessage <==> t.isInRange
    ensures t.proximityMessage == ApproachMessage <==> !t.isInRange
    ensures SameDisplay(s, t) && SameCapture(s, t)
  {
    var inRange := InRange(distance);
    s.(isInRange := inRange, proximityMessage := GateMessage(inRange))
  }

  /** stopCapture: the interval is cleared and the countdown reset; nothing shown is cleared. */
  function Stopped(s: Snapshot): (t: Snapshot)
    ensures !t.isCapturing && !t.timerArmed && t.captureTimeLeft == Ceiling
    ensures SameDisplay(s, t) && SameGate(s, t) && t.analyzing == s.analyzing
  {
    s.(isCapturing := false, timerArmed := false, captureTimeLeft := Ceiling)
  }

  /** classifyWaste with the classifier's outcome injected. */
  function AfterClassify(s: Snapshot, outcome: ClassifyOutcome): (t: Snapshot)
    ensures !Truthy(s.imageBase64) ==> t == s
    ensures Truthy(s.imageBase64) ==> !t.analyzing
    ensures Truthy(s.imageBase64) && outcome.Label? ==>
              t.classification == Some(outcome.text) && t.error == None
    ensures Truthy(s.imageBase64) && outcome.ClassifyFailed? ==>
              t.classification == s.classification && t.error == Some(AnalysisErrorMessage)
    ensures t.imageBase64 == s.imageBase64 && SameGate(s, t)
    ensures t.isCapturing == s.isCapturing && t.timerArmed == s.timerArmed
    ensures t.captureTimeLeft == s.captureTimeLeft
  {
    if !Truthy(s.imageBase64) then s
    else
      var busy := s.(analyzing := true);
      var settled := match outcome
        case Label(text) => busy.(classification := Some(text), error := None)
        case ClassifyFailed => busy.(error := Some(AnalysisErrorMessage));
      settled.(analyzing := false)
  }

  /** takePicture, given what the camera and the classifier settle to. */
  function AfterClick(s: Snapshot, camera: CameraOutcome, classifier: ClassifyOutcome): (t: Snapshot)
    // a running capture is only stopped
    ensures s.isCapturing ==> t == Stopped(s)
    // a camera failure reports and stops, keeping the previous image and label
    ensures !s.isCapturing && camera.CameraFailed? ==>
              && t.error == Some(CameraErrorMessage)
              && !t.isCapturing && !t.timerArmed && t.captureTimeLeft == Ceiling
              && t.imageBase64 == s.imageBase64 && t.classification == s.classification
              && t.analyzing == s.analyzing
    // no image: nothing is classified, no countdown starts, yet the capture stays on
    ensures !s.isCapturing && !camera.CameraFailed? && !(camera.Image? && camera.data != "") ==>
              && t.isCapturing && t.timerArmed == s.timerArmed && t.captureTimeLeft == Ceiling
              && t.error == None && t.classification == s.classification
              && t.analyzing == s.analyzing
              && t.imageBase64 == (if camera.Image? then Some(camera.data) else None)
    // an image: it is classified, then the countdown is armed at the full length
    ensures !s.isCapturing && camera.Image? && camera.data != "" ==>
              && t.isCapturing && t.timerArmed && t.captureTimeLeft == Ceiling
              && t.imageBase64 == Some(camera.data) && !t.analyzing
              && (classifier.Label? ==> t.classification == Some(classifier.text) && t.error == None)
              && (classifier.ClassifyFailed? ==>
                    t.classification == s.classification && t.error == Some(AnalysisErrorMessage))
    ensures SameGate(s, t)
  {
    if s.isCapturing then Stopped(s)
    else
      var started := s.(error := None, isCapturing := true, captureTimeLeft := Ceiling);
      match camera
      case CameraFailed => Stopped(started.(error := Some(CameraErrorMessage)))
      case Image(data) => AfterAcquire(started, Some(data), classifier)
      case NoImage => AfterAcquire(started, None, classifier)
  }

  /** The rest of takePicture once the camera settled to `image`: a truthy image is
      classified and the interval armed; otherwise nothing more happens. */
  function AfterAcquire(started: Snapshot, image: Option<string>, classifier: ClassifyOutcome): Snapshot
  {
    var acquired := started.(imageBase64 := image);
    if Truthy(image) then AfterClassify(acquired, classifier).(timerArmed := true)
    else acquired
  }

  /** One firing of the one-second interval. */
  function AfterTick(s: Snapshot): (t: Snapshot)
    ensures s.captureTimeLeft > 0 ==>
              t.captureTimeLeft == s.captureTimeLeft - 1 && t.isCapturing == s.isCapturing
              && t.timerArmed == s.timerArmed && t.analyzing == s.analyzing
              && SameDisplay(s, t) && SameGate(s, t)
    ensures s.captureTimeLeft <= 0 ==> t == Stopped(s)
  {
    if s.captureTimeLeft <= 0 then Stopped(s)
    else s.(captureTimeLeft := s.captureTimeLeft - 1)
  }

  /** What can happen to the component: a sensor reading, a click on the capture button
      (with what the camera and the classifier will settle to) or a firing of the interval. */
  datatype Event = Reading(distance: real) | Press(camera: CameraOutcome, classifier: ClassifyOutcome) | TimerFires

  /** The button is disabled unless in range and not analysing; the interval fires only while armed. */
  predicate Enabled(s: Snapshot, e: Event) {
    match e
    case Reading(_) => true
    case Press(_, _) => s.isInRange && !s.analyzing
    case TimerFires => s.timerArmed
  }

  function Step(s: Snapshot, e: Event): (t: Snapshot)
    ensures !Enabled(s, e) ==> t == s
    // a capture begins only through an enabled press
    ensures !s.isCapturing && t.isCapturing ==> e.Press? && s.isInRange && !s.analyzing
  {
    if !Enabled(s, e) then s
    else match e
      case Reading(d) => AfterDistance(s, d)
      case Press(camera, classifier) => AfterClick(s, camera, classifier)
      case TimerFires => AfterTick(s)
  }

  /** The state after a sequence of events. */
  function Run(s: Snapshot, events: seq<Event>): Snapshot
    decreases |events|
  {
    if events == [] then s else Run(Step(s, events[0]), events[1..])
  }

  /** The state after `n` firings of the interval. */
  function Ticks(s: Snapshot, n: nat): Snapshot
    decreases n
  {
    if n == 0 then s else Ticks(Step(s, TimerFires), n - 1)
  }
}
