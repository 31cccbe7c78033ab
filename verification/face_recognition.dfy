/**
 * The attendance screen (`FaceRecognition` component). Each tick looks for one
 * face; a new face, a changed face or a placeholder name asks the identify
 * service again, at most once every 1.5 seconds. The check-in and check-out
 * buttons send a screenshot through the hook and report the outcome.
 */
module FaceRecognition {
  import opened Common
  import opened DataUrl
  import opened FaceRecognitionHook

  type Distance = (Descriptor, Descriptor) -> real

  /** The name shown while no face has been identified. */
  const Placeholder: string := "loading..."
  /** The name and the alert shown when the identify service knows no visitor. */
  const NotRecognizedName: string := "Face not recognized"
  /** A face at least this far from the previous one counts as a different face. */
  const ChangeThreshold: real := 0.6
  /** Milliseconds that must pass between two identification requests. */
  const MinGap: int := 1500

  const ClockInSuccess: string := "Clock-in successful"
  const ClockOutSuccess: string := "Clock-out successful"
  const NoFace: string := "No face detected"
  const FailurePrefix: string := "Error during face recognition: "
  const ModelLoadFailure: string := "Error loading models"

  /** The single face `detectSingleFace` returns, already resized to the canvas. */
  datatype Detection = Detection(box: Box, descriptor: Descriptor)

  /** The `onClockIn` / `onClockOut` callbacks, with the visitor they are given. */
  datatype Notice = ClockedIn(visitor: Option<Visitor>) | ClockedOut(visitor: Option<Visitor>)

  /** The face is new, has moved away from the previous one, or still shows a placeholder name. */
  predicate WantsIdentification(previous: Option<Descriptor>, current: Descriptor, displayName: string, dist: Distance)
  {
    || previous.None?
    || dist(current, previous.value) >= ChangeThreshold
    || displayName == Placeholder
    || displayName == NotRecognizedName
  }

  /** The re-identification gate of `detectFace`. */
  predicate ShouldIdentify(previous: Option<Descriptor>, current: Descriptor, displayName: string, now: int, lastDetectedTime: int, dist: Distance)
  {
    WantsIdentification(previous, current, displayName, dist) && now - lastDetectedTime > MinGap
  }

  /** No request is made within 1.5 seconds of the last one, whatever the face. */
  lemma NoRequestWithinGap(previous: Option<Descriptor>, current: Descriptor, displayName: string, now: int, lastDetectedTime: int, dist: Distance)
    requires now - lastDetectedTime <= MinGap
    ensures !ShouldIdentify(previous, current, displayName, now, lastDetectedTime, dist)
  {
  }

  /** An identified face that has not moved away is not sent again. */
  lemma KnownFaceNotResent(previous: Descriptor, current: Descriptor, displayName: string, now: int, lastDetectedTime: int, dist: Distance)
    requires dist(current, previous) < ChangeThreshold
    requires displayName != Placeholder && displayName != NotRecognizedName
    ensures !ShouldIdentify(Some(previous), current, displayName, now, lastDetectedTime, dist)
  {
  }

  /** After an unrecognised face the next request only waits for the gap, even for the same face. */
  lemma RetryAfterUnrecognised(previous: Option<Descriptor>, current: Descriptor, now: int, lastDetectedTime: int, dist: Distance)
    ensures ShouldIdentify(previous, current, NotRecognizedName, now, lastDetectedTime, dist) <==> now - lastDetectedTime > MinGap
  {
  }

  /**
   * `adjustedBox`: the face box mirrored across the canvas width and stretched
   * upwards by 40% of its height to take in the hair.
   */
  function AdjustedBox(box: Box, dimsWidth: real): (r: Box)
    ensures dimsWidth - (r.x + r.width) == box.x
    ensures r.width == box.width
    ensures r.y + r.height == box.y + box.height
    ensures box.height >= 0.0 ==> r.y <= box.y && r.height >= box.height
    ensures box.y - r.y == 0.4 * box.height
  {
    Box(dimsWidth - (box.x + box.width), box.y - box.height * 0.4, box.width, box.height * 1.4)
  }

  /** The attendance screen's state; `hook` is the screen's `useFaceRecognition` instance. */
  class Screen {
    const hook: Hook
    var modelsLoaded: bool
    var loading: bool
    var alertMessage: Option<string>
    var alertType: AlertType
    var isFaceDetected: bool
    var visitorData: Option<Visitor>
    var displayName: string
    var lastDetectedTime: int
    var previousDescriptor: Option<Descriptor>
    var isClockIn: bool

    /** Mounting the screen at `mountTime` (the `Date.now()` the time ref starts from). */
    constructor (mountTime: int)
      ensures fresh(hook) && hook.result == None && !hook.loading && hook.error == None
      ensures !modelsLoaded && !loading && alertMessage == None && alertType == Unset && !isFaceDetected
      ensures visitorData == None && displayName == Placeholder && lastDetectedTime == mountTime
      ensures previousDescriptor == None && !isClockIn
    {
      hook := new Hook();
      modelsLoaded := false;
      loading := false;
      alertMessage := None;
      alertType := Unset;
      isFaceDetected := false;
      visitorData := None;
      displayName := Placeholder;
      lastDetectedTime := mountTime;
      previousDescriptor := None;
      isClockIn := false;
    }

    /** The end of model loading: the flag on success, an error alert on failure. */
    method FinishLoading(succeeded: bool)
      modifies this
      ensures succeeded ==> modelsLoaded && alertMessage == old(alertMessage) && alertType == old(alertType)
      ensures !succeeded ==> modelsLoaded == old(modelsLoaded) && alertMessage == Some(ModelLoadFailure) && alertType == Error
      ensures loading == old(loading) && isFaceDetected == old(isFaceDetected) && visitorData == old(visitorData)
      ensures displayName == old(displayName) && lastDetectedTime == old(lastDetectedTime)
      ensures previousDescriptor == old(previousDescriptor) && isClockIn == old(isClockIn)
    {
      if succeeded {
        modelsLoaded := true;
      } else {
        alertMessage := Some(ModelLoadFailure);
        alertType := Error;
      }
    }

    /**
     * detectFace, one tick. `detection` is the face found (if any), `now` the
     * clock and `screenshot` what `getScreenshot` returns. The result `identify`
     * is the header-less image handed to the debounced identify call, and
     * `outline` the rectangle drawn around the face.
     */
    method DetectFace(webcamPresent: bool, detection: Option<Detection>, dimsWidth: real, now: int, screenshot: Option<string>, dist: Distance)
      returns (identify: Option<string>, outline: Option<Box>)
      modifies this
      ensures modelsLoaded == old(modelsLoaded) && loading == old(loading) && isClockIn == old(isClockIn)
      ensures alertMessage == old(alertMessage) && alertType == old(alertType) && visitorData == old(visitorData)
      ensures !(webcamPresent && modelsLoaded) ==>
        && identify.None? && outline.None?
        && isFaceDetected == old(isFaceDetected) && displayName == old(displayName)
        && lastDetectedTime == old(lastDetectedTime) && previousDescriptor == old(previousDescriptor)
      ensures webcamPresent && modelsLoaded && detection.None? ==>
        && identify.None? && outline.None?
        && !isFaceDetected && displayName == Placeholder
        && lastDetectedTime == old(lastDetectedTime) && previousDescriptor == old(previousDescriptor)
      ensures webcamPresent && modelsLoaded && detection.Some? ==>
        var d := detection.value;
        var passed := ShouldIdentify(old(previousDescriptor), d.descriptor, old(displayName), now, old(lastDetectedTime), dist);
        && isFaceDetected && displayName == old(displayName)
        && outline == Some(AdjustedBox(d.box, dimsWidth))
        && previousDescriptor == Some(d.descriptor)
        && lastDetectedTime == (if passed then now else old(lastDetectedTime))
        && identify == (if passed && Truthy(screenshot) then Some(StripDataUrlHeader(screenshot.value)) else None)
      ensures lastDetectedTime != old(lastDetectedTime) ==> lastDetectedTime == now && now - old(lastDetectedTime) > MinGap
      ensures identify.Some? ==> lastDetectedTime == now
    {
      identify := None;
      outline := None;
      if !(webcamPresent && modelsLoaded) {
        return;
      }
      match detection {
        case Some(d) =>
          outline := Some(AdjustedBox(d.box, dimsWidth));
          isFaceDetected := true;
          var current := d.descriptor;
          if WantsIdentification(previousDescriptor, current, displayName, dist) {
            if now - lastDetectedTime > MinGap {
              lastDetectedTime := now;
              if Truthy(screenshot) {
                identify := Some(StripDataUrlHeader(screenshot.value));
              }
            }
          }
          previousDescriptor := Some(current);
        case None =>
          isFaceDetected := false;
          if displayName != Placeholder {
            displayName := Placeholder;
          }
      }
    }

    /**
     * The debounced identify call when it fires: `loading` is raised for the
     * call, the hook strips the image once more and asks the identify service;
     * a reply with a visitor shows the visitor's name and clears the alert,
     * anything else shows "Face not recognized" with a warning.
     */
    method IdentifyFace(base64Image: string, reply: Reply) returns (request: Request)
      modifies this, hook
      ensures request == Request(Identify, StripDataUrlHeader(base64Image))
      ensures !loading && !hook.loading
      ensures var s := Settle(reply);
        if s.Ok? && s.value.visitor.Some? then
          && displayName == s.value.visitor.value.fullName && visitorData == s.value.visitor
          && alertMessage == None && alertType == old(alertType)
        else
          && displayName == NotRecognizedName && visitorData == old(visitorData)
          && alertMessage == Some(NotRecognizedName) && alertType == Warning
      ensures var s := Settle(reply);
        && hook.error == (if s.Ok? then old(hook.error) else Some(Classify(s.error)))
        && hook.result == (if s.Ok? then Some(s.value) else old(hook.result))
      ensures modelsLoaded == old(modelsLoaded) && isFaceDetected == old(isFaceDetected) && isClockIn == old(isClockIn)
      ensures lastDetectedTime == old(lastDetectedTime) && previousDescriptor == old(previousDescriptor)
    {
      loading := true;
      var response;
      request, response := hook.HandleIdentifyFace(base64Image, reply);
      if response.Some? && response.value.visitor.Some? {
        displayName := response.value.visitor.value.fullName;
        visitorData := response.value.visitor;
        alertMessage := None;
      } else {
        alertMessage := Some(NotRecognizedName);
        alertType := Warning;
        displayName := NotRecognizedName;
      }
      loading := false;
    }

    /**
     * A check-in (`clockIn`) or check-out button press: the button first records
     * which one it is, then handleTakePicture sends the screenshot. A reply is
     * always truthy when it arrives (the hook throws otherwise), so the success
     * alerts and the "Error during face recognition" alert are the only outcomes
     * of a sent screenshot: its "Face not recognized" branch is never taken.
     */
    method TakePicture(clockIn: bool, webcamPresent: bool, screenshot: Option<string>, reply: Reply)
      returns (notice: Option<Notice>, request: Option<Request>)
      modifies this, hook
      ensures isClockIn == clockIn
      ensures !(webcamPresent && modelsLoaded && Truthy(screenshot)) ==>
        && notice.None? && request.None? && visitorData == old(visitorData)
        && unchanged(hook)
      ensures !(webcamPresent && modelsLoaded) ==> alertMessage == old(alertMessage) && alertType == old(alertType)
      ensures webcamPresent && modelsLoaded && !Truthy(screenshot) ==> alertMessage == Some(NoFace) && alertType == Warning
      ensures webcamPresent && modelsLoaded && Truthy(screenshot) ==>
        && request == Some(Request(if clockIn then CheckIn else CheckOut, StripDataUrlHeader(screenshot.value)))
        && !hook.loading
        && var s := Settle(reply);
        && (s.Ok? ==>
          && visitorData == s.value.visitor && alertType == Success
          && alertMessage == Some(if clockIn then ClockInSuccess else ClockOutSuccess)
          && notice == Some(if clockIn then ClockedIn(s.value.visitor) else ClockedOut(s.value.visitor)))
        && (s.Err? ==>
          && visitorData == old(visitorData) && notice.None?
          && alertMessage == Some(FailurePrefix + s.error) && alertType == Error)
        && hook.result == (if s.Ok? then Some(s.value) else old(hook.result))
        && hook.error == (if s.Ok? then None else Some(Classify(s.error)))
      ensures webcamPresent && modelsLoaded ==> alertMessage != Some(NotRecognizedName)
      ensures modelsLoaded == old(modelsLoaded) && loading == old(loading) && isFaceDetected == old(isFaceDetected)
      ensures displayName == old(displayName) && lastDetectedTime == old(lastDetectedTime)
      ensures previousDescriptor == old(previousDescriptor)
    {
      isClockIn := clockIn;
      notice := None;
      request := None;
      if webcamPresent && modelsLoaded {
        if Truthy(screenshot) {
          var sent, outcome := hook.HandleFaceRecognition(screenshot.value, clockIn, reply);
          request := Some(sent);
          match outcome {
            case Ok(matchResult) =>
              visitorData := matchResult.visitor;
              alertMessage := Some(if clockIn then ClockInSuccess else ClockOutSuccess);
              alertType := Success;
              notice := Some(if clockIn then ClockedIn(matchResult.visitor) else ClockedOut(matchResult.visitor));
            case Err(message) =>
              alertMessage := Some(FailurePrefix + message);
              alertType := Error;
          }
        } else {
          alertMessage := Some(NoFace);
          alertType := Warning;
        }
      }
    }
  }
}
