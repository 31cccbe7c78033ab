/**
 * The `useFaceRecognition` hook: it strips the data-URL header from a
 * screenshot, sends it to the identify, check-in or check-out service, keeps a
 * truthy reply as its result and turns every failure into one of three
 * user-facing error messages, ranked by priority.
 */
module FaceRecognitionHook {
  import opened Common
  import opened DataUrl

  /** A reply body of the attendance API; `error` is never consulted (see `Settle`). */
  datatype Response = Response(visitor: Option<Visitor>, error: Option<string>)

  /** What awaiting a service call yields: a value (`None` when it is falsy) or a thrown error's message. */
  datatype Reply = Answered(body: Option<Response>) | Failed(message: string)

  /** The three service calls the hook makes. */
  datatype Service = Identify | CheckIn | CheckOut

  /** A call sent to a service with the header-less base64 image. */
  datatype Request = Request(service: Service, image: string)

  /** The message of the error thrown for a falsy reply. */
  const FalsyReply: string := "Face not recognized or invalid response"

  const NotRegistered: string := "Visitor not found in the system. Please register first."
  const NotRecognized: string := "Face not recognized. Please try again or contact support."
  const RecognitionFailed: string := "Failed to recognize face. Please try again."

  /**
   * The error shown for a caught message: "Visitor not found" is looked for
   * first, then "Face not recognized"; anything else gets the generic text.
   */
  function Classify(message: string): (e: string)
    ensures e == NotRegistered <==> Contains(message, "Visitor not found")
    ensures e == NotRecognized <==> !Contains(message, "Visitor not found") && Contains(message, "Face not recognized")
    ensures e == RecognitionFailed <==> !Contains(message, "Visitor not found") && !Contains(message, "Face not recognized")
  {
    if Contains(message, "Visitor not found") then NotRegistered
    else if Contains(message, "Face not recognized") then NotRecognized
    else RecognitionFailed
  }

  /**
   * How a handler settles an awaited reply: a truthy body is kept as it is and
   * anything else becomes the message of the error the handler catches. The
   * source's `response && response.error` test sits after a `response` test and
   * can never be reached, so a body's `error` field plays no part.
   */
  function Settle(reply: Reply): (r: Result<Response, string>)
    ensures r.Ok? <==> reply.Answered? && reply.body.Some?
    ensures r.Ok? ==> r.value == reply.body.value
    ensures r.Err? ==> r.error == if reply.Failed? then reply.message else FalsyReply
  {
    match reply
    case Answered(Some(response)) => Ok(response)
    case Answered(None) => Err(FalsyReply)
    case Failed(message) => Err(message)
  }

  /** A reply carrying an `error` field is still returned unchanged: that field never raises an error. */
  lemma ErrorFieldNeverRaised(response: Response)
    requires response.error.Some? && response.error.value != ""
    ensures Settle(Answered(Some(response))) == Ok(response)
  {
  }

  /** A falsy reply is reported as an unrecognised face, not as an unknown visitor. */
  lemma FalsyReplyClassified()
    ensures Classify(FalsyReply) == NotRecognized
  {
    assert StartsWith(FalsyReply, "Face not recognized");
    if Contains(FalsyReply, "Visitor not found") {
      ContainsFirstChar(FalsyReply, "Visitor not found");
    }
  }

  /** The hook's state: the last truthy reply, the busy flag and the classified error. */
  class Hook {
    var result: Option<Response>
    var loading: bool
    var error: Option<string>

    constructor ()
      ensures result == None && !loading && error == None
    {
      result := None;
      loading := false;
      error := None;
    }

    /**
     * handleIdentifyFace: never throws. A truthy reply is stored and returned;
     * on any failure the error is classified and nothing is returned. It does
     * not raise `loading` or clear an earlier error, but always lowers `loading`.
     */
    method HandleIdentifyFace(screenshot: string, reply: Reply) returns (request: Request, response: Option<Response>)
      modifies this
      ensures request == Request(Identify, StripDataUrlHeader(screenshot))
      ensures !loading
      ensures Settle(reply).Ok? ==> response == Some(Settle(reply).value) && result == response && error == old(error)
      ensures Settle(reply).Err? ==> response == None && result == old(result) && error == Some(Classify(Settle(reply).error))
    {
      var base64Image := StripDataUrlHeader(screenshot);
      request := Request(Identify, base64Image);
      match reply {
        case Answered(Some(r)) =>
          result := Some(r);
          response := Some(r);
        case Answered(None) =>
          error := Some(Classify(FalsyReply));
          response := None;
        case Failed(m) =>
          error := Some(Classify(m));
          response := None;
      }
      loading := false;
    }

    /**
     * handleFaceRecognition: clears the error, calls check-in or check-out,
     * stores and returns a truthy reply, and otherwise classifies the error and
     * rethrows the original one (`Err` with its message). `loading` ends false.
     */
    method HandleFaceRecognition(screenshot: string, isClockIn: bool, reply: Reply) returns (request: Request, outcome: Result<Response, string>)
      modifies this
      ensures request == Request(if isClockIn then CheckIn else CheckOut, StripDataUrlHeader(screenshot))
      ensures outcome == Settle(reply)
      ensures outcome.Ok? ==> result == Some(outcome.value) && error == None
      ensures outcome.Err? ==> result == old(result) && error == Some(Classify(outcome.error))
      ensures !loading
    {
      loading := true;
      error := None;
      var base64Image := StripDataUrlHeader(screenshot);
      if isClockIn {
        request := Request(CheckIn, base64Image);
      } else {
        request := Request(CheckOut, base64Image);
      }
      match reply {
        case Answered(Some(r)) =>
          result := Some(r);
          outcome := Ok(r);
        case Answered(None) =>
          error := Some(Classify(FalsyReply));
          outcome := Err(FalsyReply);
        case Failed(m) =>
          error := Some(Classify(m));
          outcome := Err(m);
      }
      loading := false;
    }
  }
}
