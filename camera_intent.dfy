/**
 * The Siri "get camera image" intent: the responses `confirm` gives and
 * the decisions `handle` makes about where the camera comes from and how
 * the fetch is reported.
 */
module CameraIntent {
  import opened Wrappers
  import opened Text

  /** `GetCameraImageIntentResponseCode`, reduced to the codes the handler uses. */
  datatype Code = Ready | Success | SuccessViaClipboard | Failure | FailureConnectivity | FailureClipboardNotParseable

  /** A response: its code and the error text, if one is set. */
  datatype Response = Response(code: Code, error: Option<string>)

  /** The outcome of `api.GetCameraImage`: a frame, or an error with its localized description. */
  datatype Fetch = Frame(image: nat) | FetchError(description: string)

  const ErrorPrefix: string := "Error during api.GetCameraImage: "

  /**
   * `confirm`: the responses passed to `completion`, in order. The "ready"
   * response is given at once; when the authenticated-API promise rejects,
   * its handler later gives a connectivity failure as well.
   */
  function Confirm(apiRejects: bool): (responses: seq<Response>)
    ensures |responses| >= 1 && responses[0] == Response(Ready, None)
    ensures apiRejects <==> |responses| == 2
    ensures apiRejects ==> responses[1] == Response(FailureConnectivity, None)
    ensures |responses| <= 2
  {
    [Response(Ready, None)] + (if apiRejects then [Response(FailureConnectivity, None)] else [])
  }

  /** Whether `handle` takes the camera from the clipboard: no camera given and a "camera." string pasted. */
  predicate UsesClipboard(cameraID: Option<string>, pasteboard: Option<string>) {
    cameraID.None? && pasteboard.Some? && HasPrefix(pasteboard.value, "camera.")
  }

  /** The intent, whose camera ID `handle` may fill in. */
  class GetCameraImageIntent {
    var cameraID: Option<string>
    /** The camera IDs fetched for this intent, in order. */
    var fetched: seq<string>

    constructor (cameraID: Option<string>)
      ensures this.cameraID == cameraID && fetched == []
    {
      this.cameraID := cameraID;
      fetched := [];
    }
  }

  /**
   * `handle`. `apiAvailable` is whether an authenticated API exists,
   * `pasteboard` the clipboard's string, and `fetch` the outcome the fetch
   * would have. Returns the response and the image put on the clipboard, if any.
   */
  method Handle(intent: GetCameraImageIntent, apiAvailable: bool, pasteboard: Option<string>, fetch: Fetch)
    returns (response: Response, pastedImage: Option<nat>)
    modifies intent
    ensures !apiAvailable ==>
      response == Response(FailureConnectivity, None) && pastedImage.None?
      && intent.cameraID == old(intent.cameraID) && intent.fetched == old(intent.fetched)
    ensures apiAvailable && !UsesClipboard(old(intent.cameraID), pasteboard) ==>
      response == Response(FailureClipboardNotParseable, None) && pastedImage.None?
      && intent.cameraID == old(intent.cameraID) && intent.fetched == old(intent.fetched)
    ensures apiAvailable && UsesClipboard(old(intent.cameraID), pasteboard) ==>
      && intent.cameraID == pasteboard
      && intent.fetched == old(intent.fetched) + [pasteboard.value]
      && (fetch.Frame? ==> response == Response(SuccessViaClipboard, None) && pastedImage == Some(fetch.image))
      && (fetch.FetchError? ==>
            response == Response(Failure, Some(ErrorPrefix + fetch.description)) && pastedImage.None?)
  {
    if !apiAvailable {
      return Response(FailureConnectivity, None), None;
    }
    var successCode := Success;
    if intent.cameraID.None? && pasteboard.Some? && HasPrefix(pasteboard.value, "camera.") {
      intent.cameraID := pasteboard;
      successCode := SuccessViaClipboard;
    } else {
      return Response(FailureClipboardNotParseable, None), None;
    }
    if intent.cameraID.Some? {
      var cameraID := intent.cameraID.value;
      intent.fetched := intent.fetched + [cameraID];
      match fetch {
        case Frame(image) =>
          response, pastedImage := Response(successCode, None), Some(image);
        case FetchError(description) =>
          response, pastedImage := Response(Failure, Some("Error during api.GetCameraImage: " + description)), None;
      }
    } else {
      assert false;
    }
  }

  /** A camera ID already on the intent is never fetched: it is refused as unparseable clipboard content. */
  method GivenCameraRefused(intent: GetCameraImageIntent, pasteboard: Option<string>, fetch: Fetch)
    returns (response: Response)
    requires intent.cameraID.Some?
    modifies intent
    ensures response.code == FailureClipboardNotParseable
    ensures intent.fetched == old(intent.fetched)
  {
    var pasted;
    response, pasted := Handle(intent, true, pasteboard, fetch);
  }

  /**
   * `handle` as evidently intended: a camera ID already on the intent is
   * fetched and answered with `.success`; only an intent without one falls
   * back to the clipboard, and refuses unparseable clipboard content.
   */
  method HandleCorrected(intent: GetCameraImageIntent, apiAvailable: bool, pasteboard: Option<string>, fetch: Fetch)
    returns (response: Response, pastedImage: Option<nat>)
    modifies intent
    ensures !apiAvailable ==>
      response == Response(FailureConnectivity, None) && pastedImage.None?
      && intent.cameraID == old(intent.cameraID) && intent.fetched == old(intent.fetched)
    ensures apiAvailable && old(intent.cameraID).None? && !UsesClipboard(None, pasteboard) ==>
      response == Response(FailureClipboardNotParseable, None) && pastedImage.None?
      && intent.cameraID == old(intent.cameraID) && intent.fetched == old(intent.fetched)
    ensures apiAvailable && (old(intent.cameraID).Some? || UsesClipboard(None, pasteboard)) ==>
      && var camera := if old(intent.cameraID).Some? then old(intent.cameraID).value else pasteboard.value;
         var code := if old(intent.cameraID).Some? then Success else SuccessViaClipboard;
         && intent.cameraID == Some(camera)
         && intent.fetched == old(intent.fetched) + [camera]
         && (fetch.Frame? ==> response == Response(code, None) && pastedImage == Some(fetch.image))
         && (fetch.FetchError? ==>
               response == Response(Failure, Some(ErrorPrefix + fetch.description)) && pastedImage.None?)
  {
    if !apiAvailable {
      return Response(FailureConnectivity, None), None;
    }
    var successCode := Success;
    if intent.cameraID.None? {
      if pasteboard.Some? && HasPrefix(pasteboard.value, "camera.") {
        intent.cameraID := pasteboard;
        successCode := SuccessViaClipboard;
      } else {
        return Response(FailureClipboardNotParseable, None), None;
      }
    }
    var cameraID := intent.cameraID.value;
    intent.fetched := intent.fetched + [cameraID];
    match fetch {
      case Frame(image) =>
        response, pastedImage := Response(successCode, None), Some(image);
      case FetchError(description) =>
        response, pastedImage := Response(Failure, Some(ErrorPrefix + description)), None;
    }
  }

  /** With the corrected handler, a given camera is fetched and a frame answers `.success`. */
  method GivenCameraFetched(intent: GetCameraImageIntent, pasteboard: Option<string>, image: nat)
    returns (response: Response)
    requires intent.cameraID.Some?
    modifies intent
    ensures response.code == Success
    ensures intent.fetched == old(intent.fetched) + [old(intent.cameraID).value]
  {
    var pasted;
    response, pasted := HandleCorrected(intent, true, pasteboard, Frame(image));
  }

  /** Every failed fetch's error text begins with the fixed prefix, followed by the description. */
  lemma FetchErrorPrefixed(description: string)
    ensures HasPrefix(ErrorPrefix + description, "Error during api.GetCameraImage: ")
    ensures (ErrorPrefix + description)[|ErrorPrefix|..] == description
  {
  }
}
