/** The browser-side controller that captures from the camera, records into chunks
    and streams frames over a WebSocket, falling back to chunked HTTP upload.
    Browser objects (media streams, the WebSocket, MediaRecorder) are values owned by
    the controller; their callbacks are the event methods of the class. */
module CameraStreaming {
  import opened Wrappers
  import opened Defaults

  type Byte = x: int | 0 <= x < 256

  /** A Blob: its bytes (its `size` is their number) and its MIME type. */
  datatype Blob = Blob(bytes: seq<Byte>, mimeType: string)

  /** The sum of the chunks' sizes. */
  function TotalSize(chunks: seq<Blob>): nat {
    if chunks == [] then 0 else |chunks[0].bytes| + TotalSize(chunks[1..])
  }

  /** The bytes of `new Blob(chunks)`: the chunks' bytes one after another, so the
      Blob's size is the sum of the chunks' sizes. */
  function ConcatBytes(chunks: seq<Blob>): (r: seq<Byte>)
    ensures |r| == TotalSize(chunks)
  {
    if chunks == [] then [] else chunks[0].bytes + ConcatBytes(chunks[1..])
  }

  lemma {:induction false} ConcatBytesAppend(a: seq<Blob>, b: seq<Blob>)
    ensures ConcatBytes(a + b) == ConcatBytes(a) + ConcatBytes(b)
  {
    if a == [] {
      assert a + b == b;
    } else {
      assert (a + b)[0] == a[0];
      assert (a + b)[1..] == a[1..] + b;
      ConcatBytesAppend(a[1..], b);
    }
  }

  /** The chunks a recording keeps of the ones delivered to it, in delivery order:
      those of positive size. */
  function KeepNonEmpty(events: seq<Blob>): (r: seq<Blob>)
    ensures forall i :: 0 <= i < |r| ==> |r[i].bytes| > 0
  {
    if events == [] then []
    else
      var last := events[|events| - 1];
      KeepNonEmpty(events[..|events| - 1]) + (if |last.bytes| > 0 then [last] else [])
  }

  /** Skipping the empty chunks loses no byte: the kept chunks hold exactly the bytes
      of all delivered chunks, in order. */
  lemma {:induction false} KeepNonEmptyLosesNothing(events: seq<Blob>)
    ensures ConcatBytes(KeepNonEmpty(events)) == ConcatBytes(events)
  {
    if events != [] {
      var init, last := events[..|events| - 1], events[|events| - 1];
      assert events == init + [last];
      KeepNonEmptyLosesNothing(init);
      ConcatBytesAppend(KeepNonEmpty(init), if |last.bytes| > 0 then [last] else []);
      ConcatBytesAppend(init, [last]);
      assert ConcatBytes([last]) == last.bytes;
    }
  }

  const MimeCandidates := ["video/webm;codecs=vp9", "video/webm;codecs=vp8", "video/webm", "video/mp4"]
  const DefaultMimeType := "video/webm"
  const DefaultVideoBitrate := 2500000
  const DefaultAudioBitrate := 128000
  /** The fallback recorder delivers a chunk every this many milliseconds. */
  const FallbackTimesliceMs := 100

  /** The first of `types` the browser supports, or `video/webm` when there is none. */
  function PreferredMimeType(types: seq<string>, supported: set<string>): (t: string)
    ensures t == DefaultMimeType || (t in types && t in supported)
  {
    if types == [] then DefaultMimeType
    else if types[0] in supported then types[0]
    else PreferredMimeType(types[1..], supported)
  }

  lemma {:induction false} PreferredMimeTypeIsFirstSupported(types: seq<string>, supported: set<string>)
    ensures var t := PreferredMimeType(types, supported);
      || (exists i :: 0 <= i < |types| && types[i] == t && t in supported
                      && forall j :: 0 <= j < i ==> types[j] !in supported)
      || (t == DefaultMimeType && forall j :: 0 <= j < |types| ==> types[j] !in supported)
  {
    if types != [] && types[0] !in supported {
      PreferredMimeTypeIsFirstSupported(types[1..], supported);
      var t := PreferredMimeType(types, supported);
      if exists i :: 0 <= i < |types[1..]| && types[1..][i] == t && t in supported
                     && forall j :: 0 <= j < i ==> types[1..][j] !in supported {
        var i :| 0 <= i < |types[1..]| && types[1..][i] == t && t in supported
                 && forall j :: 0 <= j < i ==> types[1..][j] !in supported;
        assert types[i + 1] == t;
        forall j | 0 <= j < i + 1 ensures types[j] !in supported {
          if j > 0 { assert types[j] == types[1..][j - 1]; }
        }
      } else {
        forall j | 0 <= j < |types| ensures types[j] !in supported {
          if j > 0 { assert types[j] == types[1..][j - 1]; }
        }
      }
    }
  }

  predicate OccursAt(s: string, pattern: string, i: nat) {
    i + |pattern| <= |s| && s[i..i + |pattern|] == pattern
  }

  /** `s.replace(pattern, replacement)` with a string pattern: only the first
      occurrence is replaced. */
  function ReplaceFirst(s: string, pattern: string, replacement: string): (r: string)
    ensures |r| == |s| || |r| == |s| - |pattern| + |replacement|
    ensures |s| < |pattern| ==> r == s
    decreases |s|
  {
    if |s| < |pattern| then s
    else if s[..|pattern|] == pattern then replacement + s[|pattern|..]
    else [s[0]] + ReplaceFirst(s[1..], pattern, replacement)
  }

  /** An occurrence in the tail of `s` is an occurrence in `s`, one place later. */
  lemma OccursInTail(s: string, pattern: string, j: nat)
    requires |s| > 0
    ensures OccursAt(s[1..], pattern, j) <==> OccursAt(s, pattern, j + 1)
  {
    if j + |pattern| <= |s[1..]| {
      assert s[1..][j..j + |pattern|] == s[j + 1..j + 1 + |pattern|];
    }
  }

  lemma {:induction false} ReplaceFirstAt(s: string, pattern: string, replacement: string, i: nat)
    requires OccursAt(s, pattern, i)
    requires forall j :: 0 <= j < i ==> !OccursAt(s, pattern, j)
    ensures ReplaceFirst(s, pattern, replacement) == s[..i] + replacement + s[i + |pattern|..]
    decreases i
  {
    if i == 0 {
      assert s[..|pattern|] == pattern;
    } else {
      assert !OccursAt(s, pattern, 0);
      assert s[..|pattern|] != pattern;
      var tail := s[1..];
      forall j | 0 <= j < i - 1
        ensures !OccursAt(tail, pattern, j)
      {
        OccursInTail(s, pattern, j);
      }
      OccursInTail(s, pattern, i - 1);
      ReplaceFirstAt(tail, pattern, replacement, i - 1);
      assert ReplaceFirst(s, pattern, replacement) == [s[0]] + ReplaceFirst(tail, pattern, replacement);
      assert s[..i] == [s[0]] + tail[..i - 1];
      assert tail[i - 1 + |pattern|..] == s[i + |pattern|..];
    }
  }

  lemma {:induction false} ReplaceFirstAbsent(s: string, pattern: string, replacement: string)
    requires forall j :: 0 <= j <= |s| ==> !OccursAt(s, pattern, j)
    ensures ReplaceFirst(s, pattern, replacement) == s
    decreases |s|
  {
    if |s| >= |pattern| {
      assert !OccursAt(s, pattern, 0);
      forall j | 0 <= j <= |s[1..]| ensures !OccursAt(s[1..], pattern, j) {
        OccursInTail(s, pattern, j);
      }
      ReplaceFirstAbsent(s[1..], pattern, replacement);
    }
  }

  /** `endpoint.replace("http", "ws")`, the WebSocket address of a streaming endpoint. */
  function SocketUrl(endpoint: string): (url: string)
    ensures |url| == |endpoint| || |url| == |endpoint| - 2
    ensures |endpoint| >= 4 && endpoint[..4] == "http" ==> url == "ws" + endpoint[4..]
    ensures (forall j :: 0 <= j <= |endpoint| ==> !OccursAt(endpoint, "http", j)) ==> url == endpoint
  {
    var url := ReplaceFirst(endpoint, "http", "ws");
    if |endpoint| >= 4 && endpoint[..4] == "http" then
      ReplaceFirstAt(endpoint, "http", "ws", 0);
      url
    else if forall j :: 0 <= j <= |endpoint| ==> !OccursAt(endpoint, "http", j) then
      ReplaceFirstAbsent(endpoint, "http", "ws");
      url
    else
      url
  }

  /** The scheme of an `http://` or `https://` endpoint becomes `ws://` or `wss://`. */
  lemma SocketUrlOfHttp(rest: string)
    ensures SocketUrl("http" + rest) == "ws" + rest
  {
    var s := "http" + rest;
    assert s[..4] == "http";
    assert s[4..] == rest;
  }

  datatype FacingMode = User | Environment

  datatype CameraStreamConfig = CameraStreamConfig(
    deviceId: Option<string>,
    width: Option<int>,
    height: Option<int>,
    frameRate: Option<int>,
    facingMode: Option<FacingMode>)

  /** `deviceId` is `{ exact: id }` when Some and `undefined` when None. */
  datatype VideoConstraints = VideoConstraints(
    deviceId: Option<string>,
    width: int,
    height: int,
    frameRate: int,
    facingMode: FacingMode)

  datatype MediaStreamConstraints = MediaStreamConstraints(video: VideoConstraints, audio: bool)

  const DefaultWidth := 1920
  const DefaultHeight := 1080
  const DefaultFrameRate := 30

  /** The constraints `initializeCamera` asks `getUserMedia` for: audio on, the device
      pinned exactly only when an id is given, and each unset (or zero) video setting
      replaced by 1920 x 1080 at 30 frames per second facing the environment. */
  function BuildConstraints(config: CameraStreamConfig): (c: MediaStreamConstraints)
    ensures c.audio
    ensures c.video.deviceId.Some? <==> config.deviceId.Some? && config.deviceId.value != ""
    ensures c.video.deviceId.Some? ==> c.video.deviceId == config.deviceId
    ensures config.width.None? || config.width.value == 0 ==> c.video.width == DefaultWidth
    ensures config.height.None? || config.height.value == 0 ==> c.video.height == DefaultHeight
    ensures config.frameRate.None? || config.frameRate.value == 0 ==> c.video.frameRate == DefaultFrameRate
    ensures config.facingMode.None? ==> c.video.facingMode == Environment
    ensures config.width.Some? && config.width.value != 0 ==> c.video.width == config.width.value
    ensures config.height.Some? && config.height.value != 0 ==> c.video.height == config.height.value
    ensures config.frameRate.Some? && config.frameRate.value != 0 ==> c.video.frameRate == config.frameRate.value
    ensures config.facingMode.Some? ==> c.video.facingMode == config.facingMode.value
  {
    MediaStreamConstraints(
      VideoConstraints(
        if config.deviceId.Some? && config.deviceId.value != "" then config.deviceId else None,
        OrDefaultInt(config.width, DefaultWidth),
        OrDefaultInt(config.height, DefaultHeight),
        OrDefaultInt(config.frameRate, DefaultFrameRate),
        if config.facingMode.Some? then config.facingMode.value else Environment),
      true)
  }

  datatype StreamingOptions = StreamingOptions(
    videoBitrate: Option<int>,
    audioBitrate: Option<int>,
    codec: Option<string>,
    resolution: Option<string>)

  /** A detection box (`label` is named `labelText`, `label` being a Dafny keyword);
      coordinates are fractions of the frame and are stored, not interpreted. */
  datatype DetectionBox = DetectionBox(
    id: string, x: real, y: real, width: real, height: real,
    confidence: real, labelText: string, color: string)

  /** An opaque handle for a MediaStream. */
  datatype MediaStream = MediaStream(handle: nat)

  datatype VideoElement = VideoElement(handle: nat, srcObject: Option<MediaStream>)

  datatype ReadyState = Connecting | Open | Closing | Closed

  /** A WebSocket, with the endpoint and options its event handlers captured. */
  datatype Socket = Socket(url: string, readyState: ReadyState, endpoint: string, options: StreamingOptions)

  /** `pause()` is never called, so a recorder is either recording or inactive. */
  datatype RecorderState = Inactive | Recording

  /** The `ondataavailable` handler a recorder was given. */
  datatype DataHandler = AppendToRecording | ForwardToServer(endpoint: string)

  /** The `onstop` handler a recorder was given. */
  datatype StopHandler = NoStopHandler | LogStop | ResolveRecording

  /** A MediaRecorder. `stopQueued` holds between `stop()` and the `stop` event. */
  datatype Recorder = Recorder(
    stream: MediaStream,
    mimeType: string,
    videoBitsPerSecond: Option<int>,
    audioBitsPerSecond: Option<int>,
    timeslice: Option<nat>,
    state: RecorderState,
    stopQueued: bool,
    onData: DataHandler,
    onStop: StopHandler)

  /** The recorder `startRecording` creates and starts. */
  function RecordingRecorder(stream: MediaStream, mimeType: string): (r: Recorder)
    ensures r.state == Recording && !r.stopQueued && r.stream == stream && r.mimeType == mimeType
    ensures r.onData == AppendToRecording && r.onStop == LogStop
    ensures r.timeslice.None? && r.videoBitsPerSecond.None? && r.audioBitsPerSecond.None?
  {
    Recorder(stream, mimeType, None, None, None, Recording, false, AppendToRecording, LogStop)
  }

  /** The recorder the HTTP fallback creates and starts with a 100 ms timeslice. */
  function FallbackRecorder(stream: MediaStream, mimeType: string, options: StreamingOptions, endpoint: string): (r: Recorder)
    ensures r.state == Recording && !r.stopQueued && r.stream == stream && r.mimeType == mimeType
    ensures r.onData == ForwardToServer(endpoint) && r.onStop == NoStopHandler
    ensures r.timeslice == Some(FallbackTimesliceMs)
    ensures options.videoBitrate.Some? && options.videoBitrate.value != 0 ==> r.videoBitsPerSecond == options.videoBitrate
    ensures options.videoBitrate.None? || options.videoBitrate.value == 0 ==> r.videoBitsPerSecond == Some(DefaultVideoBitrate)
    ensures options.audioBitrate.Some? && options.audioBitrate.value != 0 ==> r.audioBitsPerSecond == options.audioBitrate
    ensures options.audioBitrate.None? || options.audioBitrate.value == 0 ==> r.audioBitsPerSecond == Some(DefaultAudioBitrate)
  {
    Recorder(stream, mimeType,
             Some(OrDefaultInt(options.videoBitrate, DefaultVideoBitrate)),
             Some(OrDefaultInt(options.audioBitrate, DefaultAudioBitrate)),
             Some(FallbackTimesliceMs), Recording, false, ForwardToServer(endpoint), NoStopHandler)
  }

  /** `recorder.stop()`: an inactive recorder ignores it; otherwise the recorder goes
      inactive and its `stop` event is queued. */
  function StopRecorder(r: Recorder): (s: Recorder)
    ensures s.state == Inactive
    ensures r.state == Inactive ==> s == r
    ensures r.state != Inactive ==> s == r.(state := Inactive, stopQueued := true)
  {
    if r.state == Inactive then r else r.(state := Inactive, stopQueued := true)
  }

  /** A `requestAnimationFrame` handle; browsers hand out positive integers, so a
      handle is always truthy. */
  type FrameHandle = x: int | x > 0 witness 1

  /** What the controller hands to its transports. */
  datatype Outgoing =
    | FrameSent(bytes: seq<Byte>)
    | SocketClosed(url: string)
    | ChunkPosted(url: string, chunk: Blob, timestamp: int)

  datatype ServiceError =
    | CameraAccessFailed
    | NoCameraStream
      /** The MediaRecorder constructor threw; its exception is passed on unchanged. */
    | RecorderNotCreated
    | NoActiveRecording

  /** The message of the Error a rejection carries. A MediaRecorder constructor
      failure rejects with the browser's own exception, whose message is not modelled. */
  function ErrorMessage(e: ServiceError): (m: Option<string>)
    ensures m.None? <==> e == RecorderNotCreated
    ensures m.Some? ==> m.value != ""
  {
    match e
    case CameraAccessFailed => Some("Failed to access camera. Please check permissions.")
    case NoCameraStream => Some("No camera stream available. Initialize camera first.")
    case RecorderNotCreated => None
    case NoActiveRecording => Some("No active recording")
  }

  class CameraStreamingService {
    /** The MIME types `MediaRecorder.isTypeSupported` accepts in this browser. */
    const supportedMimeTypes: set<string>
    /** Whether the canvas gave a 2D context; the canvas itself always exists. */
    const hasCanvasContext: bool

    var mediaStream: Option<MediaStream>
    var videoElement: Option<VideoElement>
    var recordingStream: Option<MediaStream>
    var mediaRecorder: Option<Recorder>
    var recordedChunks: seq<Blob>
    var isRecording: bool
    var isStreaming: bool
    var detectionBoxes: seq<DetectionBox>
    var animationFrameId: Option<FrameHandle>
    var websocket: Option<Socket>
    var streamEndpoint: string
    /** Browser side: an animation-frame callback is queued. */
    var framePending: bool
    /** Browser side: everything handed to the WebSocket or to `fetch`, in order. */
    var outbox: seq<Outgoing>

    ghost predicate Valid()
      reads this
    {
      && (framePending ==> animationFrameId.Some?)
      && (isRecording ==> mediaRecorder.Some?)
      && forall i :: 0 <= i < |recordedChunks| ==> |recordedChunks[i].bytes| > 0
    }

    /** The frame loop runs only while streaming over an existing socket on a canvas with a context. */
    predicate FrameLoopRuns()
      reads this
      ensures FrameLoopRuns() ==> isStreaming && websocket.Some?
      ensures !hasCanvasContext ==> !FrameLoopRuns()
    {
      isStreaming && websocket.Some? && hasCanvasContext
    }

    constructor (supported: set<string>, contextAvailable: bool)
      ensures Valid()
      ensures supportedMimeTypes == supported && hasCanvasContext == contextAvailable
      ensures mediaStream.None? && videoElement.None? && recordingStream.None? && mediaRecorder.None?
      ensures recordedChunks == [] && !isRecording && !isStreaming && detectionBoxes == []
      ensures animationFrameId.None? && websocket.None? && streamEndpoint == ""
      ensures !framePending && outbox == []
    {
      supportedMimeTypes := supported;
      hasCanvasContext := contextAvailable;
      mediaStream, videoElement, recordingStream, mediaRecorder := None, None, None, None;
      recordedChunks, isRecording, isStreaming, detectionBoxes := [], false, false, [];
      animationFrameId, websocket, streamEndpoint := None, None, "";
      framePending, outbox := false, [];
    }

    /** Asks for the camera with BuildConstraints(config); `granted` is what
        `getUserMedia` answers (None when it rejects). */
    method InitializeCamera(config: CameraStreamConfig, granted: Option<MediaStream>)
      returns (constraints: MediaStreamConstraints, r: Result<MediaStream, ServiceError>)
      requires Valid()
      modifies this`mediaStream
      ensures Valid()
      ensures constraints == BuildConstraints(config)
      ensures granted.Some? ==> r == Ok(granted.value) && mediaStream == granted
      ensures granted.None? ==> r == Err(CameraAccessFailed) && mediaStream == old(mediaStream)
    {
      constraints := BuildConstraints(config);
      if granted.None? {
        return constraints, Err(CameraAccessFailed);
      }
      mediaStream := granted;
      r := Ok(granted.value);
    }

    method AttachStreamToVideo(element: nat, stream: MediaStream)
      requires Valid()
      modifies this`videoElement
      ensures Valid()
      ensures videoElement == Some(VideoElement(element, Some(stream)))
    {
      videoElement := Some(VideoElement(element, Some(stream)));
    }

    /** Starts streaming: fails and changes nothing without a camera stream; otherwise
        records the endpoint, sets isStreaming and opens a WebSocket. `socketCreated`
        says whether the WebSocket constructor succeeded; when it threw, the HTTP
        fallback is tried at once. */
    method StartStreaming(endpoint: string, options: StreamingOptions, socketCreated: bool, recorderOk: bool)
      returns (r: Outcome<ServiceError>)
      requires Valid()
      modifies this`streamEndpoint, this`isStreaming, this`websocket, this`mediaRecorder
      ensures Valid()
      ensures mediaStream.None? ==>
        && r == Fail(NoCameraStream)
        && streamEndpoint == old(streamEndpoint) && isStreaming == old(isStreaming)
        && websocket == old(websocket) && mediaRecorder == old(mediaRecorder)
      ensures mediaStream.Some? ==>
        && r == Pass && streamEndpoint == endpoint && isStreaming
        && (socketCreated ==> websocket == Some(Socket(SocketUrl(endpoint), Connecting, endpoint, options))
                              && mediaRecorder == old(mediaRecorder))
        && (!socketCreated ==>
              && websocket == old(websocket)
              && mediaRecorder == if recorderOk
                                  then Some(FallbackRecorder(mediaStream.value, PreferredMimeType(MimeCandidates, supportedMimeTypes), options, endpoint))
                                  else old(mediaRecorder))
    {
      if mediaStream.None? {
        return Fail(NoCameraStream);
      }
      streamEndpoint := endpoint;
      isStreaming := true;
      if socketCreated {
        websocket := Some(Socket(SocketUrl(endpoint), Connecting, endpoint, options));
      } else {
        FallbackToHttpStreaming(endpoint, options, recorderOk);
      }
      r := Pass;
    }

    /** Replaces the recorder by one that uploads its chunks over HTTP. Nothing happens
        without a camera stream, or when the MediaRecorder cannot be created
        (`recorderOk` false; the error is only logged). */
    method FallbackToHttpStreaming(endpoint: string, options: StreamingOptions, recorderOk: bool)
      requires Valid()
      modifies this`mediaRecorder
      ensures Valid()
      ensures mediaRecorder == if mediaStream.Some? && recorderOk
                               then Some(FallbackRecorder(mediaStream.value, PreferredMimeType(MimeCandidates, supportedMimeTypes), options, endpoint))
                               else old(mediaRecorder)
    {
      if mediaStream.None? {
        return;
      }
      var mimeType := GetSupportedMimeType();
      if !recorderOk {
        return;
      }
      mediaRecorder := Some(FallbackRecorder(mediaStream.value, mimeType, options, endpoint));
    }

    /** One pass of the frame loop. `frame` is the JPEG the canvas encodes (None when
        encoding yields no blob) and `nextFrame` the handle `requestAnimationFrame`
        returns. The frame goes out only over an open socket. */
    method SendFrames(frame: Option<Blob>, nextFrame: FrameHandle)
      requires Valid()
      modifies this`animationFrameId, this`framePending, this`outbox
      ensures Valid()
      ensures !FrameLoopRuns() ==>
        animationFrameId == old(animationFrameId) && framePending == old(framePending) && outbox == old(outbox)
      ensures FrameLoopRuns() ==>
        && animationFrameId == Some(nextFrame) && framePending
        && outbox == old(outbox) + (if frame.Some? && websocket.value.readyState == Open
                                    then [FrameSent(frame.value.bytes)] else [])
    {
      if !isStreaming || websocket.None? || !hasCanvasContext {
        return;
      }
      if frame.Some? && websocket.value.readyState == Open {
        outbox := outbox + [FrameSent(frame.value.bytes)];
      }
      animationFrameId := Some(nextFrame);
      framePending := true;
    }

    /** The socket's `open` event, which only a connecting socket fires: the socket is open and, when there is a camera
        stream, the frame loop starts (the video's metadata is taken to be loaded). */
    method OnSocketOpen(frame: Option<Blob>, nextFrame: FrameHandle)
      requires Valid() && websocket.Some? && websocket.value.readyState == Connecting
      modifies this`websocket, this`animationFrameId, this`framePending, this`outbox
      ensures Valid()
      ensures websocket == Some(old(websocket).value.(readyState := Open))
      ensures !(mediaStream.Some? && FrameLoopRuns()) ==>
        animationFrameId == old(animationFrameId) && framePending == old(framePending) && outbox == old(outbox)
      ensures mediaStream.Some? && FrameLoopRuns() ==>
        && animationFrameId == Some(nextFrame) && framePending
        && outbox == old(outbox) + (if frame.Some? then [FrameSent(frame.value.bytes)] else [])
    {
      websocket := Some(websocket.value.(readyState := Open));
      if mediaStream.None? || !hasCanvasContext {
        return;
      }
      SendFrames(frame, nextFrame);
    }

    /** A queued animation-frame callback runs the next pass of the frame loop. */
    method OnAnimationFrame(frame: Option<Blob>, nextFrame: FrameHandle)
      requires Valid()
      modifies this`animationFrameId, this`framePending, this`outbox
      ensures Valid()
      ensures !old(framePending) ==>
        animationFrameId == old(animationFrameId) && !framePending && outbox == old(outbox)
      ensures old(framePending) && !FrameLoopRuns() ==>
        animationFrameId == old(animationFrameId) && !framePending && outbox == old(outbox)
      ensures old(framePending) && FrameLoopRuns() ==>
        && animationFrameId == Some(nextFrame) && framePending
        && outbox == old(outbox) + (if frame.Some? && websocket.value.readyState == Open
                                    then [FrameSent(frame.value.bytes)] else [])
    {
      if !framePending {
        return;
      }
      framePending := false;
      SendFrames(frame, nextFrame);
    }

    /** The socket's `error` event. The browser has already marked the socket closed;
        the handler switches to the HTTP fallback with the endpoint and options the
        socket was opened with. */
    method OnSocketError(recorderOk: bool)
      requires Valid() && websocket.Some?
      modifies this`websocket, this`mediaRecorder
      ensures Valid()
      ensures websocket == Some(old(websocket).value.(readyState := Closed))
      ensures mediaRecorder == if mediaStream.Some? && recorderOk
                               then Some(FallbackRecorder(mediaStream.value, PreferredMimeType(MimeCandidates, supportedMimeTypes),
                                                          websocket.value.options, websocket.value.endpoint))
                               else old(mediaRecorder)
    {
      websocket := Some(websocket.value.(readyState := Closed));
      FallbackToHttpStreaming(websocket.value.endpoint, websocket.value.options, recorderOk);
    }

    /** The socket's `close` event. The browser has already marked the socket closed
        (a socket dropped by StopStreaming is no longer held); the handler ends streaming. */
    method OnSocketClose()
      requires Valid()
      modifies this`isStreaming, this`websocket
      ensures Valid()
      ensures !isStreaming
      ensures websocket == if old(websocket).Some? then Some(old(websocket).value.(readyState := Closed)) else None
    {
      if websocket.Some? {
        websocket := Some(websocket.value.(readyState := Closed));
      }
      isStreaming := false;
    }

    /** A recorder's `dataavailable` event, dispatched to the handler that recorder was
        given: a recording keeps the chunk, the fallback uploads it while streaming;
        both ignore empty chunks. `now` is the upload's timestamp. */
    method OnRecorderData(chunk: Blob, now: int)
      requires Valid() && mediaRecorder.Some?
      modifies this`recordedChunks, this`outbox
      ensures Valid()
      ensures mediaRecorder.value.onData == AppendToRecording ==>
        && recordedChunks == old(recordedChunks) + (if |chunk.bytes| > 0 then [chunk] else [])
        && outbox == old(outbox)
      ensures mediaRecorder.value.onData.ForwardToServer? ==>
        && recordedChunks == old(recordedChunks)
        && outbox == old(outbox) + (if |chunk.bytes| > 0 && isStreaming
                                    then [ChunkPosted(mediaRecorder.value.onData.endpoint + "/stream-chunk", chunk, now)]
                                    else [])
    {
      match mediaRecorder.value.onData
      case AppendToRecording =>
        if |chunk.bytes| > 0 {
          recordedChunks := recordedChunks + [chunk];
        }
      case ForwardToServer(endpoint) =>
        if |chunk.bytes| > 0 && isStreaming {
          outbox := outbox + [ChunkPosted(endpoint + "/stream-chunk", chunk, now)];
        }
    }

    /** Stops streaming: clears the flag, cancels the queued frame, closes and drops the
        socket, and stops the recorder unless it is already inactive. */
    method StopStreaming()
      requires Valid()
      modifies this`isStreaming, this`animationFrameId, this`framePending, this`websocket,
               this`mediaRecorder, this`outbox
      ensures Valid()
      ensures !isStreaming && animationFrameId.None? && !framePending && websocket.None?
      ensures outbox == old(outbox) + (if old(websocket).Some? then [SocketClosed(old(websocket).value.url)] else [])
      ensures mediaRecorder == if old(mediaRecorder).Some? then Some(StopRecorder(old(mediaRecorder).value)) else None
    {
      isStreaming := false;
      if animationFrameId.Some? {
        framePending := false;
        animationFrameId := None;
      }
      if websocket.Some? {
        outbox := outbox + [SocketClosed(websocket.value.url)];
        websocket := None;
      }
      if mediaRecorder.Some? && mediaRecorder.value.state != Inactive {
        mediaRecorder := Some(StopRecorder(mediaRecorder.value));
      }
    }

    /** Starts a recording: fails without a camera stream, or when the MediaRecorder
        cannot be created; otherwise the chunk list is emptied and isRecording set.
        The MIME type is the caller's, or the preferred supported one. */
    method StartRecording(mimeType: Option<string>, recorderOk: bool) returns (r: Outcome<ServiceError>)
      requires Valid()
      modifies this`mediaRecorder, this`recordedChunks, this`isRecording
      ensures Valid()
      ensures mediaStream.None? ==>
        && r == Fail(NoCameraStream)
        && mediaRecorder == old(mediaRecorder) && recordedChunks == old(recordedChunks) && isRecording == old(isRecording)
      ensures mediaStream.Some? && !recorderOk ==>
        && r == Fail(RecorderNotCreated)
        && mediaRecorder == old(mediaRecorder) && recordedChunks == old(recordedChunks) && isRecording == old(isRecording)
      ensures mediaStream.Some? && recorderOk ==>
        && r == Pass
        && mediaRecorder == Some(RecordingRecorder(mediaStream.value, OrDefault(mimeType, PreferredMimeType(MimeCandidates, supportedMimeTypes))))
        && recordedChunks == [] && isRecording
    {
      if mediaStream.None? {
        return Fail(NoCameraStream);
      }
      var chosen: string;
      if mimeType.Some? && mimeType.value != "" {
        chosen := mimeType.value;
      } else {
        chosen := GetSupportedMimeType();
      }
      if !recorderOk {
        return Fail(RecorderNotCreated);
      }
      mediaRecorder := Some(RecordingRecorder(mediaStream.value, chosen));
      recordedChunks := [];
      isRecording := true;
      r := Pass;
    }

    /** Asks the recorder to stop and arranges for its `stop` event to finish the
        recording; rejects when there is no recorder or no recording in progress. */
    method StopRecording() returns (r: Outcome<ServiceError>)
      requires Valid()
      modifies this`mediaRecorder
      ensures Valid()
      ensures old(mediaRecorder).None? || !isRecording ==>
        r == Fail(NoActiveRecording) && mediaRecorder == old(mediaRecorder)
      ensures old(mediaRecorder).Some? && isRecording ==>
        r == Pass && mediaRecorder == Some(StopRecorder(old(mediaRecorder).value.(onStop := ResolveRecording)))
    {
      if mediaRecorder.None? || !isRecording {
        return Fail(NoActiveRecording);
      }
      mediaRecorder := Some(StopRecorder(mediaRecorder.value.(onStop := ResolveRecording)));
      r := Pass;
    }

    /** The recorder's queued `stop` event. When the recording is being finished, the
        result is one Blob of all recorded chunks in order, after which the chunk list
        is empty and isRecording false. */
    method OnRecorderStop() returns (result: Option<Blob>)
      requires Valid() && mediaRecorder.Some?
      modifies this`mediaRecorder, this`recordedChunks, this`isRecording
      ensures Valid()
      ensures !old(mediaRecorder).value.stopQueued ==>
        && result.None? && mediaRecorder == old(mediaRecorder)
        && recordedChunks == old(recordedChunks) && isRecording == old(isRecording)
      ensures old(mediaRecorder).value.stopQueued ==>
        mediaRecorder == Some(old(mediaRecorder).value.(stopQueued := false))
      ensures old(mediaRecorder).value.stopQueued && old(mediaRecorder).value.onStop == ResolveRecording ==>
        && result == Some(Blob(ConcatBytes(old(recordedChunks)), OrDefault(Some(old(mediaRecorder).value.mimeType), DefaultMimeType)))
        && recordedChunks == [] && !isRecording
      ensures old(mediaRecorder).value.stopQueued && old(mediaRecorder).value.onStop != ResolveRecording ==>
        result.None? && recordedChunks == old(recordedChunks) && isRecording == old(isRecording)
    {
      var recorder := mediaRecorder.value;
      if !recorder.stopQueued {
        return None;
      }
      mediaRecorder := Some(recorder.(stopQueued := false));
      if recorder.onStop != ResolveRecording {
        return None;
      }
      result := Some(Blob(ConcatBytes(recordedChunks), OrDefault(Some(recorder.mimeType), DefaultMimeType)));
      recordedChunks := [];
      isRecording := false;
    }

    /** The first of MimeCandidates this browser supports, or `video/webm`. */
    method GetSupportedMimeType() returns (t: string)
      ensures t == PreferredMimeType(MimeCandidates, supportedMimeTypes)
    {
      var types := MimeCandidates;
      for i := 0 to |types|
        invariant PreferredMimeType(types[i..], supportedMimeTypes) == PreferredMimeType(types, supportedMimeTypes)
      {
        assert types[i..][1..] == types[i + 1..];
        if types[i] in supportedMimeTypes {
          return types[i];
        }
      }
      return DefaultMimeType;
    }

    method UpdateDetectionBoxes(boxes: seq<DetectionBox>)
      requires Valid()
      modifies this`detectionBoxes
      ensures Valid()
      ensures detectionBoxes == boxes
    {
      detectionBoxes := boxes;
    }

    /** Stops streaming, then releases the camera and recording streams and detaches
        the video element from its source. */
    method Cleanup()
      requires Valid()
      modifies this`isStreaming, this`animationFrameId, this`framePending, this`websocket,
               this`mediaRecorder, this`outbox, this`mediaStream, this`recordingStream, this`videoElement
      ensures Valid()
      ensures !isStreaming && animationFrameId.None? && !framePending && websocket.None?
      ensures outbox == old(outbox) + (if old(websocket).Some? then [SocketClosed(old(websocket).value.url)] else [])
      ensures mediaRecorder == if old(mediaRecorder).Some? then Some(StopRecorder(old(mediaRecorder).value)) else None
      ensures mediaStream.None? && recordingStream.None?
      ensures videoElement == if old(videoElement).Some? then Some(old(videoElement).value.(srcObject := None)) else None
    {
      StopStreaming();
      mediaStream := None;
      recordingStream := None;
      if videoElement.Some? {
        videoElement := Some(videoElement.value.(srcObject := None));
      }
    }
  }

  const NoConfig := CameraStreamConfig(None, None, None, None, None)
  const NoOptions := StreamingOptions(None, None, None, None)

  /** Recording from start to stop: whatever chunks the recorder delivers, in whatever
      sizes, the result holds all their bytes in delivery order. */
  method RecordAndStop(supported: set<string>, stream: MediaStream, events: seq<Blob>) returns (result: Option<Blob>)
    ensures result.Some? && result.value.bytes == ConcatBytes(events)
    ensures result.value.mimeType == PreferredMimeType(MimeCandidates, supported)
  {
    var service := new CameraStreamingService(supported, true);
    var _, _ := service.InitializeCamera(NoConfig, Some(stream));
    var started := service.StartRecording(None, true);
    var mimeType := PreferredMimeType(MimeCandidates, supported);
    var i := 0;
    while i < |events|
      invariant 0 <= i <= |events|
      invariant service.Valid() && service.isRecording
      invariant service.mediaRecorder == Some(RecordingRecorder(stream, mimeType))
      invariant service.recordedChunks == KeepNonEmpty(events[..i])
    {
      assert events[..i + 1][..i] == events[..i];
      service.OnRecorderData(events[i], 0);
      i := i + 1;
    }
    assert events[..|events|] == events;
    var stopping := service.StopRecording();
    result := service.OnRecorderStop();
    KeepNonEmptyLosesNothing(events);
    assert PreferredMimeType(MimeCandidates, supported) != "" by {
      PreferredMimeTypeIsFirstSupported(MimeCandidates, supported);
    }
  }

  /** A recorder started without a timeslice may deliver chunks after `stop()` and
      before its `stop` event; the result then holds the bytes delivered before the
      stop followed by those delivered after it. */
  method RecordWithFinalChunks(supported: set<string>, stream: MediaStream, before: seq<Blob>, after: seq<Blob>)
    returns (result: Option<Blob>)
    ensures result.Some? && result.value.bytes == ConcatBytes(before + after)
    ensures result.value.mimeType == PreferredMimeType(MimeCandidates, supported)
  {
    var service := new CameraStreamingService(supported, true);
    var _, _ := service.InitializeCamera(NoConfig, Some(stream));
    var started := service.StartRecording(None, true);
    var recorder := RecordingRecorder(stream, PreferredMimeType(MimeCandidates, supported));
    var i := 0;
    while i < |before|
      invariant 0 <= i <= |before|
      invariant service.Valid() && service.isRecording
      invariant service.mediaRecorder == Some(recorder)
      invariant service.recordedChunks == KeepNonEmpty(before[..i])
    {
      assert before[..i + 1][..i] == before[..i];
      service.OnRecorderData(before[i], 0);
      i := i + 1;
    }
    assert before[..|before|] == before;
    var stopping := service.StopRecording();
    var stopped := StopRecorder(recorder.(onStop := ResolveRecording));
    var j := 0;
    while j < |after|
      invariant 0 <= j <= |after|
      invariant service.Valid() && service.isRecording
      invariant service.mediaRecorder == Some(stopped)
      invariant service.recordedChunks == KeepNonEmpty(before) + KeepNonEmpty(after[..j])
    {
      assert after[..j + 1][..j] == after[..j];
      service.OnRecorderData(after[j], 0);
      j := j + 1;
    }
    assert after[..|after|] == after;
    result := service.OnRecorderStop();
    KeepNonEmptyLosesNothing(before);
    KeepNonEmptyLosesNothing(after);
    ConcatBytesAppend(KeepNonEmpty(before), KeepNonEmpty(after));
    ConcatBytesAppend(before, after);
    assert PreferredMimeType(MimeCandidates, supported) != "" by {
      PreferredMimeTypeIsFirstSupported(MimeCandidates, supported);
    }
  }

  /** A failed connection fires the socket's `error` event and then its `close` event.
      The first starts the HTTP fallback; the second clears isStreaming, so the
      fallback then uploads none of the chunks it records. */
  method ErrorThenCloseUploadsNothing(supported: set<string>, stream: MediaStream, endpoint: string, chunk: Blob, now: int)
    returns (uploaded: seq<Outgoing>)
    ensures uploaded == []
  {
    var service := new CameraStreamingService(supported, true);
    var _, _ := service.InitializeCamera(NoConfig, Some(stream));
    var started := service.StartStreaming(endpoint, NoOptions, true, true);
    service.OnSocketError(true);
    service.OnSocketClose();
    service.OnRecorderData(chunk, now);
    uploaded := service.outbox;
  }

  /** When the WebSocket constructor throws, the fallback starts at once and streaming
      stays on, so each non-empty chunk is uploaded to the endpoint's `/stream-chunk`
      route with its timestamp. */
  method SocketFailureChunkUploads(supported: set<string>, stream: MediaStream, endpoint: string, chunk: Blob, now: int)
    returns (uploaded: seq<Outgoing>)
    requires |chunk.bytes| > 0
    ensures uploaded == [ChunkPosted(endpoint + "/stream-chunk", chunk, now)]
  {
    var service := new CameraStreamingService(supported, true);
    var _, _ := service.InitializeCamera(NoConfig, Some(stream));
    var started := service.StartStreaming(endpoint, NoOptions, false, true);
    service.OnRecorderData(chunk, now);
    uploaded := service.outbox;
  }

  /** A socket that has failed sends no frame: a loop pass queued before the failure
      finds the socket closed. */
  method ClosedSocketSendsNoFrame(supported: set<string>, stream: MediaStream, endpoint: string, frame: Blob,
                                  first: FrameHandle, second: FrameHandle)
    returns (sent: seq<Outgoing>)
    ensures sent == [FrameSent(frame.bytes)]
  {
    var service := new CameraStreamingService(supported, true);
    var _, _ := service.InitializeCamera(NoConfig, Some(stream));
    var started := service.StartStreaming(endpoint, NoOptions, true, true);
    service.OnSocketOpen(Some(frame), first);
    service.OnSocketClose();
    var restarted := service.StartStreaming(endpoint, NoOptions, false, false);
    service.OnAnimationFrame(Some(frame), second);
    sent := service.outbox;
  }
}
