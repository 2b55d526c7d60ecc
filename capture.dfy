/**
 * The capture page (static/script.js): the pending capture and the accept
 * button as a small state machine (initialise camera, capture, retake, accept),
 * the 5,000,000-length threshold that decides whether a capture is re-encoded,
 * the downscale that caps the longer side at 800, the result handling of the
 * upload, and the classification of a failure into the text shown to the user.
 */
module Capture {
  import opened Js

  // ---------------------------------------------------------------------------
  // Texts

  const AcceptCaption := "<i class=\"fas fa-check\"></i> Accept & Save"
  const SavingCaption := "<i class=\"fas fa-spinner fa-spin\"></i> Saving..."

  const CameraReadyText := "Camera initialized successfully!"
  const CameraErrorText := "Error accessing camera. Please check permissions."
  const CameraUnavailableText := "Camera not available. Please refresh the page."
  const CapturedText := "Image captured! Review and accept or retake."
  const CaptureErrorText := "Error capturing image. Please try again."
  const NoImageText := "No image captured. Please capture an image first."
  const SavedText := "✅ Image saved successfully! Your face data is now stored securely."
  const RetakeText := "Ready to capture new image!"

  const GenericErrorText := "Error saving image. Please try again."
  const NetworkErrorText := "Network error. Please check your connection."
  const UnknownServerError := "Unknown server error"
  const ServerErrorPrefix := "Server error: "

  /** The `type` argument of `showMessage`: 'success' or 'error'. */
  datatype MessageKind = Ok | Err

  /** The text and kind of the status line. */
  datatype Message = Message(text: string, kind: MessageKind)

  // ---------------------------------------------------------------------------
  // Size threshold and downscale

  /** A capture longer than this (in `.length` units) is re-encoded before upload. */
  const MaxDataUrlLength := 5000000

  predicate NeedsReencode(data: string) {
    Utf16Length(data) > MaxDataUrlLength
  }

  const MaxSide: real := 800.0

  function MaxReal(a: real, b: real): real {
    if a >= b then a else b
  }

  /**
   * The size the re-encoded image is drawn at, defined by one scale factor:
   * 800 / (longer side) when the longer side exceeds 800, else 1.
   */
  function FitWithin(w: real, h: real): (size: (real, real))
    requires w >= 0.0 && h >= 0.0
  {
    var longer := MaxReal(w, h);
    if longer <= MaxSide then (w, h) else (w * MaxSide / longer, h * MaxSide / longer)
  }

  /**
   * The resize block of the accept handler, step by step: the wider side is
   * compared first and a square image takes the height branch.
   */
  method Downscale(imgWidth: nat, imgHeight: nat) returns (width: real, height: real)
    ensures (width, height) == FitWithin(imgWidth as real, imgHeight as real)
  {
    width, height := imgWidth as real, imgHeight as real;
    ghost var w, h := width, height;
    if width > height {
      if width > MaxSide {
        height := (height * MaxSide) / width;
        width := MaxSide;
        ScaleCancels(w);
      }
    } else {
      if height > MaxSide {
        width := (width * MaxSide) / height;
        height := MaxSide;
        ScaleCancels(h);
      }
    }
  }

  lemma ScaleCancels(x: real)
    requires x > 0.0
    ensures x * MaxSide / x == MaxSide
  {
    assert x * MaxSide / x == MaxSide * (x / x);
  }

  /** An image whose longer side is at most 800 is drawn at its own size. */
  lemma FitWithinSmall(w: real, h: real)
    requires w >= 0.0 && h >= 0.0 && w <= MaxSide && h <= MaxSide
    ensures FitWithin(w, h) == (w, h)
  {
  }

  /**
   * A larger image has its longer side brought to exactly 800, with the aspect
   * ratio kept: newWidth * h == newHeight * w.
   */
  lemma FitWithinLarge(w: real, h: real)
    requires w >= 0.0 && h >= 0.0 && MaxReal(w, h) > MaxSide
    ensures var (nw, nh) := FitWithin(w, h);
      && MaxReal(nw, nh) == MaxSide
      && nw * h == nh * w
  {
    var longer := MaxReal(w, h);
    var (nw, nh) := FitWithin(w, h);
    assert nw == w * (MaxSide / longer) && nh == h * (MaxSide / longer);
    if w >= h {
      assert nw == MaxSide;
      assert nh <= nw;
    } else {
      assert nh == MaxSide;
      assert nw <= nh;
    }
  }

  /** Whatever the image, both drawn sides are at most 800. */
  lemma FitWithinBounded(w: real, h: real)
    requires w >= 0.0 && h >= 0.0
    ensures var (nw, nh) := FitWithin(w, h);
      0.0 <= nw <= MaxSide && 0.0 <= nh <= MaxSide
  {
    if MaxReal(w, h) > MaxSide {
      FitWithinLarge(w, h);
      var (nw, nh) := FitWithin(w, h);
      assert nw == w * (MaxSide / MaxReal(w, h)) && nh == h * (MaxSide / MaxReal(w, h));
    }
  }

  // ---------------------------------------------------------------------------
  // Upload result and error classification

  /**
   * What the upload's `fetch(...)` and `response.json()` produced: a thrown
   * error (network failure, or a body that is not JSON) or the parsed object.
   */
  datatype UploadReply = Rejected(error: JsError) | Reply(json: map<string, JsValue>)

  /** `result.status === 'success'`. */
  predicate UploadSucceeded(reply: UploadReply) {
    reply.Reply? && Get(reply.json, "status") == Str("success")
  }

  /** The detail a refusal carries: `result.message`, or the fallback when it is falsy. */
  function ServerDetail(message: JsValue): (d: string)
    ensures d != ""
    ensures Truthy(message) ==> d == ToText(message)
    ensures !Truthy(message) ==> d == UnknownServerError
  {
    if Truthy(message) then ToText(message) else UnknownServerError
  }

  /** The error `sendImageToServer` throws for a refusal. */
  function ServerError(message: JsValue): JsError {
    JsError("Error", ServerErrorPrefix + ServerDetail(message))
  }

  /** The error `sendImageToServer` ends with, if any. */
  function UploadError(reply: UploadReply): (e: Option<JsError>)
    ensures e.None? <==> UploadSucceeded(reply)
    ensures reply.Rejected? ==> e == Some(reply.error)
    ensures reply.Reply? && !UploadSucceeded(reply) ==>
      e == Some(JsError("Error", ServerErrorPrefix + ServerDetail(Get(reply.json, "message"))))
  {
    match reply
    case Rejected(error) => Some(error)
    case Reply(json) =>
      if Get(json, "status") == Str("success") then None else Some(ServerError(Get(json, "message")))
  }

  /**
   * The text the accept handler's `catch` shows, tried in order: a message that
   * mentions "Server error:" loses its first "Server error: "; a TypeError that
   * mentions "fetch" is a network error; anything else is the generic text.
   */
  function ErrorText(e: JsError): string {
    if Includes(e.message, "Server error:") then ReplaceFirst(e.message, ServerErrorPrefix, "")
    else if e.name == "TypeError" && Includes(e.message, "fetch") then NetworkErrorText
    else GenericErrorText
  }

  /**
   * The round trip through the thrown error: a refusal is shown as exactly the
   * server's message when it is truthy, and as "Unknown server error" otherwise.
   */
  lemma ServerErrorRoundTrip(message: JsValue)
    ensures ErrorText(ServerError(message)) == ServerDetail(message)
    ensures message.Str? && message.s != "" ==> ErrorText(ServerError(message)) == message.s
  {
    var d := ServerDetail(message);
    var m := ServerErrorPrefix + d;
    IndexOfPrefixed(ServerErrorPrefix, d);
    assert OccursAt(m, "Server error:", 0) by {
      assert m[0..13] == "Server error:";
    }
    assert m[|ServerErrorPrefix|..] == d;
  }

  /** The server-error test comes first: it wins over the network test. */
  lemma ServerPrefixCheckedFirst(e: JsError)
    requires Includes(e.message, "Server error:")
    ensures ErrorText(e) == ReplaceFirst(e.message, ServerErrorPrefix, "")
  {
  }

  /** A TypeError about fetch that does not mention a server error reads as a network error. */
  lemma NetworkErrorClassified(e: JsError)
    requires !Includes(e.message, "Server error:") && e.name == "TypeError" && Includes(e.message, "fetch")
    ensures ErrorText(e) == NetworkErrorText
  {
  }

  /** Every other failure reads as the generic text. */
  lemma OtherErrorText(e: JsError)
    requires !Includes(e.message, "Server error:")
    requires e.name != "TypeError" || !Includes(e.message, "fetch")
    ensures ErrorText(e) == GenericErrorText
  {
  }

  // ---------------------------------------------------------------------------
  // The page as a state machine

  /** The page state the handlers read and write. */
  datatype PageState = PageState(
    streamReady: bool,
    captured: Option<string>,
    previewVisible: bool,
    acceptCaption: string,
    acceptDisabled: bool,
    shown: Option<Message>)

  /** `!capturedImageData` is false: a non-empty capture is pending. */
  predicate HasCapture(s: PageState) {
    s.captured.Some? && s.captured.value != ""
  }

  /** The button is only ever disabled while it says "Saving...". */
  predicate ButtonConsistent(s: PageState) {
    s.acceptDisabled ==> s.acceptCaption == SavingCaption
  }

  /** What was posted: the image data, and the canvas size when it was re-encoded. */
  datatype Upload = Upload(data: string, canvas: Option<(real, real)>)

  /** `initializeCamera`: the outcome of `getUserMedia`. */
  function InitStep(s: PageState, granted: bool): PageState {
    if granted then s.(streamReady := true, shown := Some(Message(CameraReadyText, Ok)))
    else s.(shown := Some(Message(CameraErrorText, Err)))
  }

  /** The capture click; `frame` is the data URL of the drawn frame, or None when drawing threw. */
  function CaptureStep(s: PageState, frame: Option<string>): PageState {
    if !s.streamReady then s.(shown := Some(Message(CameraUnavailableText, Err)))
    else match frame
      case None => s.(shown := Some(Message(CaptureErrorText, Err)))
      case Some(data) => s.(captured := Some(data), previewVisible := true, shown := Some(Message(CapturedText, Ok)))
  }

  /** The retake click: the pending capture is dropped. */
  function RetakeStep(s: PageState): PageState {
    s.(previewVisible := false, captured := None, shown := Some(Message(RetakeText, Ok)))
  }

  /** The state after a successful upload (the reset runs two seconds later). */
  function SavedStep(s: PageState): PageState {
    s.(shown := Some(Message(SavedText, Ok)), previewVisible := false, captured := None,
       acceptCaption := AcceptCaption, acceptDisabled := false)
  }

  /** The accept handler's `catch`: the classified text, and the button back. */
  function FailedStep(s: PageState, e: JsError): PageState {
    s.(shown := Some(Message(ErrorText(e), Err)), acceptCaption := AcceptCaption, acceptDisabled := false)
  }

  /**
   * The accept click as written. A disabled button receives no click, so the
   * page is left alone; with no capture only the message changes;
   * otherwise the button goes to "Saving...", a capture over the threshold is
   * re-encoded at the downscaled size, and the upload's result is handled. On
   * the re-encode path the upload runs inside `img.onload`, so its failure
   * escapes the `catch` and the state stays as it was.
   */
  function AcceptStep(s: PageState, imgWidth: nat, imgHeight: nat, reencoded: string, reply: UploadReply)
    : (r: (PageState, Option<Upload>))
  {
    if s.acceptDisabled then (s, None)
    else if !HasCapture(s) then (s.(shown := Some(Message(NoImageText, Err))), None)
    else
      var saving := s.(acceptCaption := SavingCaption, acceptDisabled := true);
      var data := s.captured.value;
      if NeedsReencode(data) then
        var sent := Upload(reencoded, Some(FitWithin(imgWidth as real, imgHeight as real)));
        if UploadError(reply).None? then (SavedStep(saving), Some(sent)) else (saving, Some(sent))
      else
        var sent := Upload(data, None);
        match UploadError(reply)
        case None => (SavedStep(saving), Some(sent))
        case Some(e) => (FailedStep(saving, e), Some(sent))
  }

  /**
   * The capture is posted unmodified exactly when it is within the threshold;
   * above it, the re-encoded data is posted with the downscaled canvas size.
   */
  lemma SentUnmodifiedIffSmall(s: PageState, imgWidth: nat, imgHeight: nat, reencoded: string, reply: UploadReply)
    requires !s.acceptDisabled && HasCapture(s)
    ensures var sent := AcceptStep(s, imgWidth, imgHeight, reencoded, reply).1;
      && sent.Some?
      && (sent.value.canvas.None? <==> Utf16Length(s.captured.value) <= MaxDataUrlLength)
      && (sent.value.canvas.None? ==> sent.value.data == s.captured.value)
      && (sent.value.canvas.Some? ==>
            sent.value.data == reencoded && sent.value.canvas.value == FitWithin(imgWidth as real, imgHeight as real))
  {
  }

  /** Accept without a pending capture only reports it: nothing else changes and nothing is sent. */
  lemma AcceptWithoutCapture(s: PageState, imgWidth: nat, imgHeight: nat, reencoded: string, reply: UploadReply)
    requires !s.acceptDisabled && !HasCapture(s)
    ensures var (t, sent) := AcceptStep(s, imgWidth, imgHeight, reencoded, reply);
      && sent.None?
      && t.shown == Some(Message(NoImageText, Err))
      && t.acceptCaption == s.acceptCaption && t.acceptDisabled == s.acceptDisabled
      && t.captured == s.captured && t.previewVisible == s.previewVisible && t.streamReady == s.streamReady
  {
  }

  /** A successful upload, on either path, clears the capture and re-enables the button. */
  lemma AcceptSuccess(s: PageState, imgWidth: nat, imgHeight: nat, reencoded: string, reply: UploadReply)
    requires !s.acceptDisabled && HasCapture(s) && UploadSucceeded(reply)
    ensures var t := AcceptStep(s, imgWidth, imgHeight, reencoded, reply).0;
      && t.captured.None? && !t.previewVisible
      && !t.acceptDisabled && t.acceptCaption == AcceptCaption
      && t.shown == Some(Message(SavedText, Ok))
  {
  }

  /**
   * A failed upload of a capture within the threshold shows the classified text,
   * puts the button back, and keeps the capture for another try.
   */
  lemma AcceptFailureSmall(s: PageState, imgWidth: nat, imgHeight: nat, reencoded: string, reply: UploadReply)
    requires !s.acceptDisabled && HasCapture(s) && !NeedsReencode(s.captured.value) && !UploadSucceeded(reply)
    ensures var t := AcceptStep(s, imgWidth, imgHeight, reencoded, reply).0;
      && t.shown == Some(Message(ErrorText(UploadError(reply).value), Err))
      && !t.acceptDisabled && t.acceptCaption == AcceptCaption
      && t.captured == s.captured
  {
  }

  /**
   * Finding, as written: a failed upload of a re-encoded capture leaves the
   * button disabled on "Saving..." and shows no error.
   */
  lemma ResizeFailureLeavesButtonStuck(s: PageState, imgWidth: nat, imgHeight: nat, reencoded: string, reply: UploadReply)
    requires !s.acceptDisabled && HasCapture(s) && NeedsReencode(s.captured.value) && !UploadSucceeded(reply)
    ensures var t := AcceptStep(s, imgWidth, imgHeight, reencoded, reply).0;
      && t.acceptDisabled && t.acceptCaption == SavingCaption
      && t.shown == s.shown
  {
  }

  /**
   * The evident intent: the failure of the re-encoded upload is handled by the
   * same `catch` as the other path.
   */
  function AcceptStepCaught(s: PageState, imgWidth: nat, imgHeight: nat, reencoded: string, reply: UploadReply)
    : (r: (PageState, Option<Upload>))
  {
    if s.acceptDisabled then (s, None)
    else if !HasCapture(s) then (s.(shown := Some(Message(NoImageText, Err))), None)
    else
      var saving := s.(acceptCaption := SavingCaption, acceptDisabled := true);
      var data := s.captured.value;
      var sent :=
        if NeedsReencode(data) then Upload(reencoded, Some(FitWithin(imgWidth as real, imgHeight as real)))
        else Upload(data, None);
      match UploadError(reply)
      case None => (SavedStep(saving), Some(sent))
      case Some(e) => (FailedStep(saving, e), Some(sent))
  }

  /**
   * With the failure caught, every accept ends with the button enabled and
   * showing "Accept & Save", and a failure is always reported.
   */
  lemma AcceptCaughtAlwaysRecovers(s: PageState, imgWidth: nat, imgHeight: nat, reencoded: string, reply: UploadReply)
    requires !s.acceptDisabled && HasCapture(s)
    ensures var t := AcceptStepCaught(s, imgWidth, imgHeight, reencoded, reply).0;
      && !t.acceptDisabled && t.acceptCaption == AcceptCaption
      && (!UploadSucceeded(reply) ==> t.shown == Some(Message(ErrorText(UploadError(reply).value), Err)))
  {
  }

  /** The corrected handler agrees with the written one everywhere but the failing re-encode path. */
  lemma AcceptCaughtAgrees(s: PageState, imgWidth: nat, imgHeight: nat, reencoded: string, reply: UploadReply)
    requires !(HasCapture(s) && NeedsReencode(s.captured.value) && !UploadSucceeded(reply))
    ensures AcceptStepCaught(s, imgWidth, imgHeight, reencoded, reply) == AcceptStep(s, imgWidth, imgHeight, reencoded, reply)
  {
  }

  /** Every handler keeps the button's caption consistent with its disabled flag. */
  lemma HandlersKeepButtonConsistent(s: PageState, granted: bool, frame: Option<string>,
                                     imgWidth: nat, imgHeight: nat, reencoded: string, reply: UploadReply)
    requires ButtonConsistent(s)
    ensures ButtonConsistent(InitStep(s, granted))
    ensures ButtonConsistent(CaptureStep(s, frame))
    ensures ButtonConsistent(RetakeStep(s))
    ensures ButtonConsistent(AcceptStep(s, imgWidth, imgHeight, reencoded, reply).0)
  {
  }

  /**
   * Once stuck, no handler releases the button: the other handlers leave it
   * alone, and a click on it is not delivered, so nothing is sent again.
   */
  lemma StuckButtonStaysStuck(s: PageState, granted: bool, frame: Option<string>,
                              imgWidth: nat, imgHeight: nat, reencoded: string, reply: UploadReply)
    requires s.acceptDisabled
    ensures InitStep(s, granted).acceptDisabled
    ensures CaptureStep(s, frame).acceptDisabled
    ensures RetakeStep(s).acceptDisabled
    ensures AcceptStep(s, imgWidth, imgHeight, reencoded, reply) == (s, None)
    ensures AcceptStepCaught(s, imgWidth, imgHeight, reencoded, reply) == (s, None)
  {
  }

  /**
   * After a retake there is nothing to accept: the click only reports it, or
   * is not delivered while the button is disabled.
   */
  lemma RetakeThenAccept(s: PageState, imgWidth: nat, imgHeight: nat, reencoded: string, reply: UploadReply)
    ensures var t := RetakeStep(s);
      && !HasCapture(t)
      && AcceptStep(t, imgWidth, imgHeight, reencoded, reply)
         == (if s.acceptDisabled then t else t.(shown := Some(Message(NoImageText, Err))), None)
  {
  }

  // ---------------------------------------------------------------------------
  // The page itself

  /** The module-level variables and the elements the handlers touch. */
  class CapturePage {
    var streamReady: bool
    var captured: Option<string>
    var previewVisible: bool
    var acceptCaption: string
    var acceptDisabled: bool
    var shown: Option<Message>

    function State(): PageState
      reads this
    {
      PageState(streamReady, captured, previewVisible, acceptCaption, acceptDisabled, shown)
    }

    /** The page as loaded: no stream and no capture yet. */
    constructor(caption: string)
      ensures State() == PageState(false, None, false, caption, false, None)
    {
      streamReady := false;
      captured := None;
      previewVisible := false;
      acceptCaption := caption;
      acceptDisabled := false;
      shown := None;
    }

    method ShowMessage(text: string, kind: MessageKind)
      modifies this
      ensures State() == old(State()).(shown := Some(Message(text, kind)))
    {
      shown := Some(Message(text, kind));
    }

    method InitializeCamera(granted: bool)
      modifies this
      ensures State() == InitStep(old(State()), granted)
    {
      if granted {
        streamReady := true;
        ShowMessage(CameraReadyText, Ok);
      } else {
        ShowMessage(CameraErrorText, Err);
      }
    }

    method CaptureClick(frame: Option<string>)
      modifies this
      ensures State() == CaptureStep(old(State()), frame)
    {
      if !streamReady {
        ShowMessage(CameraUnavailableText, Err);
        return;
      }
      match frame {
        case None =>
          ShowMessage(CaptureErrorText, Err);
        case Some(data) =>
          captured := Some(data);
          previewVisible := true;
          ShowMessage(CapturedText, Ok);
      }
    }

    method RetakeClick()
      modifies this
      ensures State() == RetakeStep(old(State()))
    {
      previewVisible := false;
      captured := None;
      ShowMessage(RetakeText, Ok);
    }

    /** `sendImageToServer`: on success the page is reset; otherwise the error is thrown back. */
    method SendImageToServer(reply: UploadReply) returns (thrown: Option<JsError>)
      modifies this
      ensures thrown == UploadError(reply)
      ensures State() == if thrown.None? then SavedStep(old(State())) else old(State())
    {
      match reply {
        case Rejected(error) =>
          thrown := Some(error);
        case Reply(json) =>
          if Get(json, "status") == Str("success") {
            ShowMessage(SavedText, Ok);
            previewVisible := false;
            captured := None;
            acceptCaption := AcceptCaption;
            acceptDisabled := false;
            thrown := None;
          } else {
            var errorMsg := ServerDetail(Get(json, "message"));
            thrown := Some(JsError("Error", ServerErrorPrefix + errorMsg));
          }
      }
    }

    /** The accept click (delivered only while the button is enabled); on the re-encode path the upload's failure is not caught. */
    method AcceptClick(imgWidth: nat, imgHeight: nat, reencoded: string, reply: UploadReply)
      returns (sent: Option<Upload>)
      modifies this
      ensures (State(), sent) == AcceptStep(old(State()), imgWidth, imgHeight, reencoded, reply)
    {
      if acceptDisabled {
        return None;
      }
      if captured.None? || captured.value == "" {
        ShowMessage(NoImageText, Err);
        return None;
      }
      acceptCaption := SavingCaption;
      acceptDisabled := true;
      var imageToSend := captured.value;
      if Utf16Length(imageToSend) > MaxDataUrlLength {
        var width, height := Downscale(imgWidth, imgHeight);
        imageToSend := reencoded;
        sent := Some(Upload(imageToSend, Some((width, height))));
        var _ := SendImageToServer(reply);
        return;
      }
      sent := Some(Upload(imageToSend, None));
      var thrown := SendImageToServer(reply);
      if thrown.Some? {
        var errorMessage := GenericErrorText;
        if Includes(thrown.value.message, "Server error:") {
          errorMessage := ReplaceFirst(thrown.value.message, ServerErrorPrefix, "");
        } else if thrown.value.name == "TypeError" && Includes(thrown.value.message, "fetch") {
          errorMessage := NetworkErrorText;
        }
        ShowMessage(errorMessage, Err);
        acceptCaption := AcceptCaption;
        acceptDisabled := false;
      }
    }
  }
}
