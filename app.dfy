/** The screen state of the frontend (frontend/src/App.js): the seven React
    state variables as the fields of one object, the event handlers as
    methods that update them, and the two display classifiers. Browser I/O
    (`getUserMedia`, `FileReader`, the canvas, `fetch`) appears as the
    outcome it delivers, given as a parameter; each handler runs to
    completion before the next event, and the notification it shows is
    returned. */
module App {
  import opened Wrappers
  import opened Text
  import opened Diagnosis

  /** A browser `File`. */
  datatype ImageFile = ImageFile(name: string, mimeType: string, content: seq<bv8>)

  /** A camera `MediaStream`: live until its tracks are stopped. */
  class MediaStream {
    var live: bool

    constructor ()
      ensures live
    {
      live := true;
    }

    /** `stream.getTracks().forEach(track => track.stop())`. */
    method StopTracks()
      modifies this
      ensures !live
    {
      live := false;
    }
  }

  /** A toast notification. */
  datatype Toast = ToastSuccess(text: string) | ToastError(text: string)

  /** The parts of the `/api/analyze-upload` reply body that the client reads;
      a field the body lacks is `None`. */
  datatype ServerReply = ServerReply(success: bool, analysis: Option<DiseaseAnalysis>, message: Option<string>)

  /** What `fetch` and `response.json()` deliver: a body, or the message of
      the error one of them threw. */
  datatype FetchOutcome = Replied(body: ServerReply) | Threw(message: string)

  /** `result.success && result.analysis`. */
  predicate Accepted(reply: ServerReply) {
    reply.success && reply.analysis.Some?
  }

  /** `result.message || 'Analysis failed'`: the server's message unless it
      is missing or empty (both falsy), then the generic text. */
  function FailureText(message: Option<string>): (r: string)
    ensures r != []
    ensures message.Some? && message.value != "" ==> r == message.value
    ensures message.None? || message.value == "" ==> r == "Analysis failed"
  {
    if message.Some? && message.value != "" then message.value else "Analysis failed"
  }

  /** `error.message` in the `catch` of `analyzeImage`. */
  function ErrorMessage(outcome: FetchOutcome): string {
    match outcome
    case Threw(m) => m
    case Replied(body) => FailureText(body.message)
  }

  const CaptureName: string := "camera-capture.jpg"
  const CaptureType: string := "image/jpeg"

  class Screen {
    var selectedImage: Option<ImageFile>
    var imagePreview: Option<string>
    var isAnalyzing: bool
    var analysisResult: Option<DiseaseAnalysis>
    var showCamera: bool
    var cameraStream: MediaStream?
    var isCapturing: bool

    /** Between events: the camera view is shown exactly while a stream is
        held, a held stream is live, no analysis is in flight, and the
        selected image has an image type. */
    ghost predicate Valid()
      reads this, cameraStream
    {
      && (showCamera <==> cameraStream != null)
      && (cameraStream != null ==> cameraStream.live)
      && !isAnalyzing
      && (selectedImage.Some? ==> IsImageType(selectedImage.value.mimeType))
    }

    /** The initial `useState` values. */
    constructor ()
      ensures Valid()
      ensures selectedImage == None && imagePreview == None && analysisResult == None
      ensures !isAnalyzing && !showCamera && cameraStream == null && !isCapturing
    {
      selectedImage := None;
      imagePreview := None;
      isAnalyzing := false;
      analysisResult := None;
      showCamera := false;
      cameraStream := null;
      isCapturing := false;
    }

    /** `handleFileUpload`: `file` is `event.target.files[0]`, `preview` the
        data URL the `FileReader` delivers (`None` if it never loads). A
        file is taken only when its type starts with "image/"; otherwise
        nothing changes and no toast is shown. */
    method HandleFileUpload(file: Option<ImageFile>, preview: Option<string>) returns (toast: Option<Toast>)
      requires Valid()
      modifies this`selectedImage, this`imagePreview
      ensures Valid()
      ensures file.Some? && IsImageType(file.value.mimeType) ==>
        && selectedImage == file
        && imagePreview == (if preview.Some? then preview else old(imagePreview))
        && toast == Some(ToastSuccess("Image uploaded successfully!"))
      ensures !(file.Some? && IsImageType(file.value.mimeType)) ==>
        selectedImage == old(selectedImage) && imagePreview == old(imagePreview) && toast == None
    {
      toast := None;
      if file.Some? && IsImageType(file.value.mimeType) {
        selectedImage := file;
        if preview.Some? {
          imagePreview := preview;
        }
        toast := Some(ToastSuccess("Image uploaded successfully!"));
      }
    }

    /** `startCamera`: `granted` is the stream `getUserMedia` resolves to, or
        `None` when it rejects. On success the stream is held and the camera
        view shown; on failure no field changes. A stream already held is
        replaced without being stopped. */
    method StartCamera(granted: Option<MediaStream>) returns (toast: Toast)
      requires Valid()
      requires granted.Some? ==> granted.value.live
      modifies this`cameraStream, this`showCamera
      ensures Valid()
      ensures granted.Some? ==>
        cameraStream == granted.value && showCamera && toast == ToastSuccess("Camera activated!")
      ensures granted.None? ==>
        && cameraStream == old(cameraStream) && showCamera == old(showCamera)
        && toast == ToastError("Camera access denied or not available")
      ensures old(cameraStream) != null ==> old(cameraStream).live
    {
      match granted
      case Some(stream) =>
        cameraStream := stream;
        showCamera := true;
        toast := ToastSuccess("Camera activated!");
      case None =>
        toast := ToastError("Camera access denied or not available");
    }

    /** `stopCamera`: stops the held stream's tracks, if there is one, and
        hides the camera view. With no stream held it changes nothing, so a
        second call is a no-op. */
    method StopCamera()
      requires Valid()
      modifies this`cameraStream, this`showCamera, cameraStream
      ensures Valid()
      ensures cameraStream == null && !showCamera
      ensures old(cameraStream) != null ==> !old(cameraStream).live
      ensures old(cameraStream) == null ==> unchanged(this)
    {
      if cameraStream != null {
        cameraStream.StopTracks();
        cameraStream := null;
      }
      showCamera := false;
    }

    /** `capturePhoto`: nothing happens unless both the video and the canvas
        elements exist; otherwise a capture is pending (`isCapturing`) until
        `FinishCapture` runs. */
    method CapturePhoto(hasVideo: bool, hasCanvas: bool) returns (pending: bool)
      requires Valid()
      modifies this`isCapturing
      ensures Valid()
      ensures pending == (hasVideo && hasCanvas)
      ensures isCapturing == (pending || old(isCapturing))
    {
      pending := hasVideo && hasCanvas;
      if pending {
        isCapturing := true;
      }
    }

    /** The `canvas.toBlob` callback of `capturePhoto`: `blob` is the encoded
        frame, `dataUrl` what `canvas.toDataURL()` returns. The frame becomes
        the selected image, the camera is stopped and the capture is over. */
    method FinishCapture(blob: seq<bv8>, dataUrl: string) returns (toast: Toast)
      requires Valid()
      modifies this`selectedImage, this`imagePreview, this`cameraStream, this`showCamera, this`isCapturing, cameraStream
      ensures Valid()
      ensures selectedImage == Some(ImageFile(CaptureName, CaptureType, blob))
      ensures imagePreview == Some(dataUrl)
      ensures cameraStream == null && !showCamera && !isCapturing
      ensures old(cameraStream) != null ==> !old(cameraStream).live
      ensures toast == ToastSuccess("Photo captured successfully!")
    {
      selectedImage := Some(ImageFile(CaptureName, CaptureType, blob));
      imagePreview := Some(dataUrl);
      StopCamera();
      isCapturing := false;
      toast := ToastSuccess("Photo captured successfully!");
    }

    /** `analyzeImage`: with no selected image it only reports an error.
        Otherwise it clears the previous result, sends the request and keeps
        the reply's analysis only when `success && analysis` holds; on any
        failure the result stays cleared and the toast carries the server's
        message, or "Analysis failed" when there is none. It always ends
        with `isAnalyzing` false. */
    method AnalyzeImage(outcome: FetchOutcome) returns (toast: Toast)
      requires Valid()
      modifies this`isAnalyzing, this`analysisResult
      ensures Valid()
      ensures !isAnalyzing
      ensures selectedImage.None? ==>
        analysisResult == old(analysisResult) && toast == ToastError("Please select an image first")
      ensures selectedImage.Some? && outcome.Replied? && Accepted(outcome.body) ==>
        analysisResult == outcome.body.analysis && toast == ToastSuccess("Analysis completed successfully!")
      ensures selectedImage.Some? && !(outcome.Replied? && Accepted(outcome.body)) ==>
        analysisResult == None && toast == ToastError("Analysis failed: " + ErrorMessage(outcome))
    {
      if selectedImage.None? {
        return ToastError("Please select an image first");
      }
      isAnalyzing := true;
      analysisResult := None;
      match outcome {
        case Replied(body) =>
          if Accepted(body) {
            analysisResult := body.analysis;
            toast := ToastSuccess("Analysis completed successfully!");
          } else {
            toast := ToastError("Analysis failed: " + FailureText(body.message));
          }
        case Threw(m) =>
          toast := ToastError("Analysis failed: " + m);
      }
      isAnalyzing := false;
    }
  }

  const HealthyStyle: string := "bg-green-100 text-green-800"
  const MildStyle: string := "bg-yellow-100 text-yellow-800"
  const ModerateStyle: string := "bg-orange-100 text-orange-800"
  const SevereStyle: string := "bg-red-100 text-red-800"
  const DefaultStyle: string := "bg-gray-100 text-gray-800"

  /** `getSeverityColor`: the lower-cased severity picks one of four badge
      styles; anything else, or no severity at all, gets the gray default. */
  function SeverityColor(severity: Option<string>): (r: string)
    ensures r == HealthyStyle <==> severity.Some? && Lower(severity.value) == "healthy"
    ensures r == MildStyle <==> severity.Some? && Lower(severity.value) == "mild"
    ensures r == ModerateStyle <==> severity.Some? && Lower(severity.value) == "moderate"
    ensures r == SevereStyle <==> severity.Some? && Lower(severity.value) == "severe"
    ensures r == DefaultStyle <==>
      severity.None? || Lower(severity.value) !in {"healthy", "mild", "moderate", "severe"}
  {
    if severity.None? then DefaultStyle
    else
      var key := Lower(severity.value);
      if key == "healthy" then HealthyStyle
      else if key == "mild" then MildStyle
      else if key == "moderate" then ModerateStyle
      else if key == "severe" then SevereStyle
      else DefaultStyle
  }

  /** Lower-casing twice is lower-casing once. */
  lemma LowerIdempotent(s: string)
    ensures Lower(Lower(s)) == Lower(s)
  {
  }

  /** The badge depends on the severity only up to letter case. */
  lemma SeverityCaseInsensitive(s: string)
    ensures SeverityColor(Some(s)) == SeverityColor(Some(Lower(s)))
  {
    LowerIdempotent(s);
  }

  /** The capitalised severities the analysis prompt asks for get their own
      badges. */
  lemma PromptSeveritiesStyled()
    ensures SeverityColor(Some("Healthy")) == HealthyStyle
    ensures SeverityColor(Some("Mild")) == MildStyle
    ensures SeverityColor(Some("Moderate")) == ModerateStyle
    ensures SeverityColor(Some("Severe")) == SevereStyle
    ensures SeverityColor(Some("Unknown")) == DefaultStyle
  {
    assert Lower("Unknown") == "unknown";
  }

  const HighConfidence: string := "text-green-600"
  const MediumConfidence: string := "text-yellow-600"
  const LowConfidence: string := "text-red-600"

  /** `getConfidenceColor`: green from 0.8 up, yellow from 0.6 up (0.6
      itself is yellow), red below. */
  function ConfidenceColor(confidence: real): (r: string)
    ensures r == HighConfidence <==> confidence >= 0.8
    ensures r == MediumConfidence <==> 0.6 <= confidence < 0.8
    ensures r == LowConfidence <==> confidence < 0.6
  {
    if confidence >= 0.8 then HighConfidence
    else if confidence >= 0.6 then MediumConfidence
    else LowConfidence
  }

  /** The rank of a confidence colour, red lowest. */
  function Band(style: string): nat {
    if style == HighConfidence then 2 else if style == MediumConfidence then 1 else 0
  }

  /** A higher confidence never gets a lower colour. */
  lemma ConfidenceColorMonotone(c1: real, c2: real)
    requires c1 <= c2
    ensures Band(ConfidenceColor(c1)) <= Band(ConfidenceColor(c2))
  {
  }
}
