/**
 * The Deface page of the web client: the state it keeps (selected video,
 * processed video, progress, error, processing options) and the handlers
 * that change it. The HTTP exchange is an input: `ProcessVideo` receives the
 * reply that axios produced, `Export` the outcome of the download, and
 * `ReplyFor` says which reply each server response becomes.
 */
module DefaceClient {
  import opened Text
  import opened JsValue
  import opened DefaceServer

  /** A file the browser's file input hands over. */
  datatype SelectedFile = SelectedFile(name: string, mimeType: string, size: nat)

  /** What axios resolves or rejects with: a 2xx reply, an error status with its body, or no response at all. */
  datatype Reply =
    | Success(data: JsonValue)
    | HttpError(status: int, data: JsonValue)
    | NetworkError(message: string)

  /** What the form posts: the file the input holds and the options object. */
  datatype Form = Form(video: Option<SelectedFile>, config: map<string, JsonValue>)

  /** How the download of the processed video ends. */
  datatype Download = Fetched | HttpFailed(status: int, statusText: string) | FetchFailed(message: string)

  /** A string state value is set and truthy (`if (inputVideo)`, `!outputVideo`). */
  predicate Present(v: Option<string>) {
    v.Some? && v.value != ""
  }

  /** `v?.[key]` for a parsed JSON body. */
  function Field(v: JsonValue, key: string): (r: Option<JsonValue>)
    ensures r.Some? <==> v.JObject? && key in v.fields
  {
    if v.JObject? && key in v.fields then Some(v.fields[key]) else None
  }

  predicate TruthyField(f: Option<JsonValue>) {
    f.Some? && Truthy(f.value)
  }

  function DefaultClientConfig(): map<string, JsonValue> {
    map["fps" := JNum(Decimal(60, 0)), "maskType" := JStr("solid"), "keepAudio" := JBool(true),
        "resolution" := JStr("720p"), "threshold" := JNum(Decimal(19, 2)), "maskScale" := JNum(Decimal(13, 1))]
  }

  // ---------------------------------------------------------------------
  // Error messages
  // ---------------------------------------------------------------------

  /** axios's own message for a rejected request. */
  function AxiosMessage(reply: Reply): string
    requires !reply.Success?
  {
    match reply
    case HttpError(status, _) => "Request failed with status code " + IntToString(status)
    case NetworkError(message) => message
  }

  /** The response body a rejection carries, if any. */
  function ErrorBody(reply: Reply): Option<JsonValue> {
    if reply.HttpError? then Some(reply.data) else None
  }

  function BodyField(reply: Reply, key: string): Option<JsonValue> {
    match ErrorBody(reply)
    case None => None
    case Some(data) => Field(data, key)
  }

  /** "\n<name>: <value>" when the body field is truthy, nothing otherwise. */
  function DetailLine(name: string, f: Option<JsonValue>): (line: string)
    ensures !TruthyField(f) <==> line == ""
  {
    if TruthyField(f) then "\n" + name + ": " + JsString(f.value) else ""
  }

  /**
   * The text of `setError` in `processVideo`'s catch: the server's message
   * (or axios's own when the body has none), then a details line and a
   * command line for the body's `error` and `command` fields when truthy.
   */
  function FailureMessage(reply: Reply): string
    requires !reply.Success?
  {
    var message := BodyField(reply, "message");
    "Error processing video: " + (if TruthyField(message) then JsString(message.value) else AxiosMessage(reply)) +
    DetailLine("Details", BodyField(reply, "error")) +
    DetailLine("Command", BodyField(reply, "command"))
  }

  /** The message thrown when the download answers with a status outside 200-299. */
  function DownloadStatusMessage(status: int, statusText: string): string {
    "Failed to download video: " + IntToString(status) + " " + statusText
  }

  // ---------------------------------------------------------------------
  // The page
  // ---------------------------------------------------------------------

  class DefacePage {
    var inputVideo: Option<string>
    var outputVideo: Option<string>
    var isProcessing: bool
    var processingProgress: real
    var error: Option<string>
    var config: map<string, JsonValue>
    /** What the hidden file input currently holds (`fileInputRef.current.files[0]`). */
    var pickedFile: Option<SelectedFile>

    constructor()
      ensures inputVideo == None && outputVideo == None && error == None && pickedFile == None
      ensures !isProcessing && processingProgress == 0.0
      ensures config == DefaultClientConfig()
    {
      inputVideo := None;
      outputVideo := None;
      isProcessing := false;
      processingProgress := 0.0;
      error := None;
      config := DefaultClientConfig();
      pickedFile := None;
    }

    /** The export button is enabled. */
    predicate CanExport()
      reads this
    {
      Present(outputVideo) && !isProcessing
    }

    /**
     * `handleFileSelect`: a video file becomes the input (under the object URL
     * the browser made for it) and clears the output and the error; anything
     * else only sets the error. The file input keeps whatever was chosen.
     */
    method SelectFile(file: Option<SelectedFile>, objectUrl: string)
      modifies this
      ensures pickedFile == file
      ensures file.Some? && "video/" <= file.value.mimeType ==>
        inputVideo == Some(objectUrl) && outputVideo == None && error == None
      ensures !(file.Some? && "video/" <= file.value.mimeType) ==>
        inputVideo == old(inputVideo) && outputVideo == old(outputVideo) &&
        error == Some("Please select a valid video file")
      ensures isProcessing == old(isProcessing) && processingProgress == old(processingProgress)
      ensures config == old(config)
    {
      pickedFile := file;
      if file.Some? && "video/" <= file.value.mimeType {
        inputVideo := Some(objectUrl);
        outputVideo := None;
        error := None;
      } else {
        error := Some("Please select a valid video file");
      }
    }

    /**
     * The upload button and every option control carry `disabled={isProcessing}`:
     * while a video is processed or downloaded, none of them can be used.
     */
    predicate ControlsEnabled()
      reads this
    {
      !isProcessing
    }

    /**
     * The first part of `processVideo`, up to the `await`: without an input it
     * only sets an error; otherwise it marks processing as started (progress
     * 0, no error), which disables export and the controls, and sends the form
     * holding the picked file and the options.
     */
    method StartProcessing() returns (sent: Option<Form>)
      modifies this
      ensures config == old(config) && inputVideo == old(inputVideo) && pickedFile == old(pickedFile)
      ensures outputVideo == old(outputVideo)
      ensures !Present(old(inputVideo)) ==>
        && sent == None
        && error == Some("Please select a video to process")
        && isProcessing == old(isProcessing) && processingProgress == old(processingProgress)
      ensures Present(old(inputVideo)) ==>
        && sent == Some(Form(old(pickedFile), old(config)))
        && isProcessing && processingProgress == 0.0 && error == None
        && !CanExport() && !ControlsEnabled()
    {
      if !Present(inputVideo) {
        error := Some("Please select a video to process");
        return None;
      }
      isProcessing := true;
      processingProgress := 0.0;
      error := None;
      sent := Some(Form(pickedFile, config));
    }

    /**
     * The rest of `processVideo`, once axios settles with `reply`: success
     * sets progress 100 and the output URL; failure sets the error message
     * and leaves progress where the timer had taken it (`simulated`); the
     * `finally` turns processing off either way.
     */
    method FinishProcessing(apiBaseUrl: string, reply: Reply, simulated: real)
      requires isProcessing
      modifies this
      ensures config == old(config) && inputVideo == old(inputVideo) && pickedFile == old(pickedFile)
      ensures !isProcessing && ControlsEnabled()
      ensures CanExport() <==> Present(outputVideo)
      ensures reply.Success? ==>
        && processingProgress == 100.0
        && outputVideo == Some(apiBaseUrl + PropertyKey(Field(reply.data, "processedVideoUrl")))
        && error == old(error)
      ensures !reply.Success? ==>
        && processingProgress == simulated
        && outputVideo == old(outputVideo)
        && error == Some(FailureMessage(reply))
    {
      match reply {
        case Success(data) =>
          processingProgress := 100.0;
          outputVideo := Some(apiBaseUrl + PropertyKey(Field(data, "processedVideoUrl")));
        case _ =>
          processingProgress := simulated;
          error := Some(FailureMessage(reply));
      }
      isProcessing := false;
    }

    /** `processVideo` from start to finish: the start, then, when a form was sent, the finish. */
    method ProcessVideo(apiBaseUrl: string, reply: Reply, simulated: real) returns (sent: Option<Form>)
      modifies this
      ensures config == old(config) && inputVideo == old(inputVideo) && pickedFile == old(pickedFile)
      ensures !Present(old(inputVideo)) ==>
        && sent == None
        && error == Some("Please select a video to process")
        && isProcessing == old(isProcessing) && processingProgress == old(processingProgress)
        && outputVideo == old(outputVideo)
      ensures Present(old(inputVideo)) ==>
        && sent == Some(Form(old(pickedFile), old(config)))
        && !isProcessing
        && (CanExport() <==> Present(outputVideo))
      ensures Present(old(inputVideo)) && reply.Success? ==>
        && processingProgress == 100.0
        && outputVideo == Some(apiBaseUrl + PropertyKey(Field(reply.data, "processedVideoUrl")))
        && error == None
      ensures Present(old(inputVideo)) && !reply.Success? ==>
        && processingProgress == simulated
        && outputVideo == old(outputVideo)
        && error == Some(FailureMessage(reply))
    {
      sent := StartProcessing();
      if sent.Some? {
        FinishProcessing(apiBaseUrl, reply, simulated);
      }
    }

    /** `handleConfigChange`: `{ ...config, [key]: value }`. */
    method ChangeConfig(key: string, value: JsonValue)
      modifies this
      ensures config == old(config)[key := value]
      ensures forall k :: k != key ==> (k in config <==> k in old(config)) && (k in config ==> config[k] == old(config)[k])
      ensures inputVideo == old(inputVideo) && outputVideo == old(outputVideo) && error == old(error)
      ensures isProcessing == old(isProcessing) && processingProgress == old(processingProgress)
      ensures pickedFile == old(pickedFile)
    {
      config := config[key := value];
    }

    /**
     * The first part of `handleExport`: with an output present, processing is
     * turned on while the video downloads, which disables export and the
     * controls; without one nothing happens.
     */
    method StartExport() returns (started: bool)
      modifies this
      ensures inputVideo == old(inputVideo) && outputVideo == old(outputVideo) && config == old(config)
      ensures processingProgress == old(processingProgress) && pickedFile == old(pickedFile) && error == old(error)
      ensures started <==> Present(old(outputVideo))
      ensures started ==> isProcessing && !CanExport() && !ControlsEnabled()
      ensures !started ==> isProcessing == old(isProcessing)
    {
      started := Present(outputVideo);
      if started {
        isProcessing := true;
      }
    }

    /**
     * The rest of `handleExport`, once the download ends: the video is saved
     * as "defaced-video.mp4", or the failure sets the error; the `finally`
     * turns processing off.
     */
    method FinishExport(download: Download) returns (savedAs: Option<string>)
      requires isProcessing
      modifies this
      ensures inputVideo == old(inputVideo) && outputVideo == old(outputVideo) && config == old(config)
      ensures processingProgress == old(processingProgress) && pickedFile == old(pickedFile)
      ensures !isProcessing && ControlsEnabled()
      ensures download.Fetched? ==> savedAs == Some("defaced-video.mp4") && error == old(error)
      ensures download.HttpFailed? ==>
        savedAs == None &&
        error == Some("Error downloading video: " + DownloadStatusMessage(download.status, download.statusText))
      ensures download.FetchFailed? ==> savedAs == None && error == Some("Error downloading video: " + download.message)
    {
      savedAs := None;
      match download {
        case Fetched =>
          savedAs := Some("defaced-video.mp4");
        case HttpFailed(status, statusText) =>
          error := Some("Error downloading video: " + DownloadStatusMessage(status, statusText));
        case FetchFailed(message) =>
          error := Some("Error downloading video: " + message);
      }
      isProcessing := false;
    }

    /** `handleExport` from start to finish: without an output nothing happens. */
    method Export(download: Download) returns (savedAs: Option<string>)
      modifies this
      ensures inputVideo == old(inputVideo) && outputVideo == old(outputVideo) && config == old(config)
      ensures processingProgress == old(processingProgress) && pickedFile == old(pickedFile)
      ensures !Present(old(outputVideo)) ==>
        savedAs == None && error == old(error) && isProcessing == old(isProcessing)
      ensures Present(old(outputVideo)) ==> !isProcessing
      ensures Present(old(outputVideo)) && download.Fetched? ==>
        savedAs == Some("defaced-video.mp4") && error == old(error)
      ensures Present(old(outputVideo)) && download.HttpFailed? ==>
        savedAs == None &&
        error == Some("Error downloading video: " + DownloadStatusMessage(download.status, download.statusText))
      ensures Present(old(outputVideo)) && download.FetchFailed? ==>
        savedAs == None && error == Some("Error downloading video: " + download.message)
    {
      savedAs := None;
      var started := StartExport();
      if started {
        savedAs := FinishExport(download);
      }
    }
  }

  // ---------------------------------------------------------------------
  // The server's responses as the client sees them
  // ---------------------------------------------------------------------

  /**
   * The reply axios produces for each response of the route: 200 resolves
   * with the JSON body, 400 and 500 reject with it; a refusal by the upload
   * middleware is answered by Express's HTML error page, whose body is a
   * string and has no fields.
   */
  function ReplyFor(resp: Response): (r: Reply)
    ensures r.Success? <==> resp.Processed?
    ensures !r.Success? ==> r.HttpError? && r.status == StatusCode(resp)
  {
    match resp
    case Processed(message, url) =>
      Success(JObject(map["message" := JStr(message), "processedVideoUrl" := JStr(url)]))
    case BadRequest(message) =>
      HttpError(400, JObject(map["message" := JStr(message)]))
    case ProcessingError(message, error, command) =>
      var body := map["message" := JStr(message), "error" := JStr(error)];
      HttpError(500, JObject(if command.Some? then body["command" := JStr(command.value)] else body))
    case UnhandledError(error) =>
      HttpError(500, JStr(error))
  }

  /** A missing upload is shown with the server's message. */
  lemma BadRequestShown(message: string)
    requires message != ""
    ensures FailureMessage(ReplyFor(BadRequest(message))) == "Error processing video: " + message
  {
    var reply := ReplyFor(BadRequest(message));
    assert BodyField(reply, "message") == Some(JStr(message));
    assert BodyField(reply, "error") == None;
    assert BodyField(reply, "command") == None;
    assert "Error processing video: " + message + "" + "" == "Error processing video: " + message;
  }

  /**
   * A processing failure is shown as the server's message, a details line
   * with the error, and a command line exactly when the server sent a
   * non-empty command.
   */
  lemma ProcessingErrorShown(message: string, error: string, command: Option<string>)
    requires message != "" && error != ""
    ensures FailureMessage(ReplyFor(ProcessingError(message, error, command))) ==
      "Error processing video: " + message + "\nDetails: " + error +
      (if command.Some? && command.value != "" then "\nCommand: " + command.value else "")
  {
    var reply := ReplyFor(ProcessingError(message, error, command));
    assert BodyField(reply, "message") == Some(JStr(message));
    assert BodyField(reply, "error") == Some(JStr(error));
    var commandLine := DetailLine("Command", BodyField(reply, "command"));
    CommandLineShown(message, error, command);
    LabelledLine("Details", "\nDetails: ", error);
    var prefix, heading := "Error processing video: ", "\nDetails: ";
    assert prefix + message + (heading + error) + commandLine == prefix + message + heading + error + commandLine;
  }

  /** The command line of a processing failure: shown exactly when the command is sent and non-empty. */
  lemma CommandLineShown(message: string, error: string, command: Option<string>)
    ensures DetailLine("Command", BodyField(ReplyFor(ProcessingError(message, error, command)), "command")) ==
      (if command.Some? && command.value != "" then "\nCommand: " + command.value else "")
  {
    var reply := ReplyFor(ProcessingError(message, error, command));
    if command.Some? {
      assert BodyField(reply, "command") == Some(JStr(command.value));
      if command.value != "" {
        LabelledLine("Command", "\nCommand: ", command.value);
      }
    } else {
      assert BodyField(reply, "command") == None;
    }
  }

  /** A truthy string field is shown on its own line after its label. */
  lemma LabelledLine(name: string, heading: string, value: string)
    requires heading == "\n" + name + ": " && value != ""
    ensures DetailLine(name, Some(JStr(value))) == heading + value
  {
  }

  /** A refused upload reaches the client only as axios's status message. */
  lemma RefusedUploadShown(error: string)
    ensures FailureMessage(ReplyFor(UnhandledError(error))) ==
      "Error processing video: " + "Request failed with status code 500"
  {
    var reply := ReplyFor(UnhandledError(error));
    assert reply == HttpError(500, JStr(error));
    assert BodyField(reply, "message") == None;
    assert BodyField(reply, "error") == None;
    assert BodyField(reply, "command") == None;
    var axios := AxiosMessage(reply);
    var shown := "Error processing video: " + axios;
    assert shown + "" + "" == shown;
    StatusText500();
    assert "Request failed with status code " + "500" == "Request failed with status code 500";
  }

  lemma StatusText500()
    ensures IntToString(500) == "500"
  {
    assert NatToString(5) == "5";
    assert NatToString(50) == NatToString(5) + "0";
  }

  /** A processed video's URL becomes the output, prefixed with the API base URL. */
  lemma SuccessGivesOutputUrl(apiBaseUrl: string, message: string, url: string)
    ensures var reply := ReplyFor(Processed(message, url));
      reply.Success? && apiBaseUrl + PropertyKey(Field(reply.data, "processedVideoUrl")) == apiBaseUrl + url
  {
  }

  /**
   * The client's default options, resolved on the server, select the solid
   * mask (where the server's own default is blur), the scale 1.3, the
   * threshold 0.19, kept audio and 60 frames per second.
   */
  lemma DefaultClientConfigOnServer(text: string)
    requires text != ""
    ensures var config := ResolveConfig(ServerDefaults(), Sent(text, Some(JObject(DefaultClientConfig()))));
      && MaskTypeFor(Get(config, "maskType")) == "solid"
      && MaskTypeFor(Get(ServerDefaults(), "maskType")) == "blur"
      && JsString(MaskScale(config)) == "1.3"
      && JsString(Threshold(config)) == "0.19"
      && KeepsAudio(config)
      && ConfigFileFor(config) == JObject(map["fps" := JNum(Decimal(60, 0))])
  {
    ClientDefaultsReplaceServerDefaults(text);
    DefaultClientConfigText();
    assert Get(ServerDefaults(), "maskType") == Some(JStr("blur"));
  }

  /** Every key of the server's defaults is among the client's, so the client's options are used as they are. */
  lemma ClientDefaultsReplaceServerDefaults(text: string)
    requires text != ""
    ensures ResolveConfig(ServerDefaults(), Sent(text, Some(JObject(DefaultClientConfig())))) == DefaultClientConfig()
  {
    var client := DefaultClientConfig();
    assert ServerDefaults().Keys <= client.Keys;
    var config := ResolveConfig(ServerDefaults(), Sent(text, Some(JObject(client))));
    assert config.Keys == client.Keys;
  }

  /** The client's default options as the command sees them. */
  lemma DefaultClientConfigText()
    ensures var config := DefaultClientConfig();
      && MaskTypeFor(Get(config, "maskType")) == "solid"
      && JsString(MaskScale(config)) == "1.3"
      && JsString(Threshold(config)) == "0.19"
      && KeepsAudio(config)
      && ConfigFileFor(config) == JObject(map["fps" := JNum(Decimal(60, 0))])
  {
    var config := DefaultClientConfig();
    assert MaskScale(config) == DefaultMaskScale;
    assert Threshold(config) == DefaultThreshold;
    DefaultMaskScaleText();
    DefaultThresholdText();
  }
}
