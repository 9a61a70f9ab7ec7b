/** The photo-analyzer component: its fields and the handlers that update them in place. */
module PhotoAnalyzer {
  import opened PhotoAnalyzerState
  import PhotoAnalyzerProperties

  class PhotoAnalyzerComponent {
    var imageBase64: Option<string>
    var classification: Option<string>
    var analyzing: bool
    var isInRange: bool
    var proximityMessage: string
    var error: Option<string>
    var isCapturing: bool
    /** True while `captureInterval` holds an interval that has not been cleared. */
    var timerArmed: bool
    var captureTimeLeft: int

    /** The fields, read as one value. */
    function Snap(): Snapshot
      reads this
    {
      Snapshot(imageBase64, classification, analyzing, isInRange, proximityMessage,
               error, isCapturing, timerArmed, captureTimeLeft)
    }

    ghost predicate Valid()
      reads this
    {
      PhotoAnalyzerState.Valid(Snap())
    }

    /** The field initialisers; subscribing to the proximity stream is left to the
        caller, which delivers each reading through OnDistance. */
    constructor ()
      ensures Snap() == Initial() && Valid()
    {
      imageBase64 := None;
      classification := None;
      analyzing := false;
      isInRange := false;
      proximityMessage := ApproachMessage;
      error := None;
      isCapturing := false;
      timerArmed := false;
      captureTimeLeft := Ceiling;
    }

    /** The callback of the proximity subscription. */
    method OnDistance(distance: real)
      modifies this
      ensures Snap() == AfterDistance(old(Snap()), distance)
      ensures old(Valid()) ==> Valid()
    {
      isInRange := distance >= MinDistance && distance <= MaxDistance;
      proximityMessage := if isInRange then ReadyMessage else ApproachMessage;
    }

    /** The capture button's click handler, with what the camera and the classifier settle to;
        the button is disabled out of range and while analysing. */
    method TakePicture(camera: CameraOutcome, classifier: ClassifyOutcome)
      requires isInRange && !analyzing
      modifies this
      ensures Snap() == AfterClick(old(Snap()), camera, classifier)
      ensures old(Valid()) ==> Valid()
    {
      ghost var before := Snap();
      if isCapturing {
        StopCapture();
        return;
      }

      error := None;
      isCapturing := true;
      captureTimeLeft := Ceiling;

      if camera.CameraFailed? {
        error := Some(CameraErrorMessage);
        StopCapture();
      } else {
        imageBase64 := if camera.Image? then Some(camera.data) else None;
        if Truthy(imageBase64) {
          ClassifyWaste(classifier);
          timerArmed := true;
        }
      }
      if old(Valid()) {
        PhotoAnalyzerProperties.StepPreservesValid(before, Press(camera, classifier));
      }
    }

    /** Clears the interval and resets the countdown; what is shown stays. */
    method StopCapture()
      modifies this
      ensures Snap() == Stopped(old(Snap()))
    {
      if timerArmed {
        timerArmed := false;
      }
      isCapturing := false;
      captureTimeLeft := Ceiling;
    }

    /** Sends the current image to the classifier and records its label or an error. */
    method ClassifyWaste(classifier: ClassifyOutcome)
      modifies this
      ensures Snap() == AfterClassify(old(Snap()), classifier)
    {
      if !Truthy(imageBase64) {
        return;
      }
      analyzing := true;
      match classifier {
        case Label(text) =>
          classification := Some(text);
          error := None;
        case ClassifyFailed =>
          error := Some(AnalysisErrorMessage);
      }
      analyzing := false;
    }

    /** The body of the one-second interval. */
    method Tick()
      requires timerArmed
      modifies this
      ensures Snap() == AfterTick(old(Snap()))
      ensures old(Valid()) ==> Valid()
    {
      if captureTimeLeft <= 0 {
        StopCapture();
        return;
      }
      captureTimeLeft := captureTimeLeft - 1;
    }
  }
}
