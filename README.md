# Camera capture, recording and streaming: a Dafny model

This project models both halves of the camera subsystem of a web application.

- **Server: the camera routes** (`server/routes/camera.ts`). Express handlers keep two in-memory `Map`s, one of recording sessions and one of streaming sessions. They:
  - start and stop sessions, reporting each session's duration both as rounded seconds and as `HH:MM:SS`;
  - accept recording chunks (the last one completes the recording) and acknowledge live-stream chunks;
  - name screenshot, recording and chunk files;
  - report the camera status;
  - remove a stopped session after a grace period: 5 s for a recording, 1 s for a stream.
- **Client: the browser's capture controller** (`client/services/CameraStreamingService.ts`). It:
  - opens the camera with default constraints;
  - streams canvas frames over a WebSocket and falls back to uploading MediaRecorder chunks over HTTP;
  - records into a list of chunks, then joins them into one Blob;
  - chooses the first supported recording MIME type;
  - tears everything down.

Both stateful entities are classes:
- `CameraRoutes.SessionRegistry` holds the two maps and the queue of scheduled deletes. Each route handler is a method that returns the response it sends.
- `CameraStreaming.CameraStreamingService` holds the controller's fields. Its public methods and the browser callbacks it installs (socket `open`/`error`/`close`, animation frames, recorder `dataavailable`/`stop`) are methods of the class.
- The browser objects (socket, recorder, media stream) are values owned by the controller.
- An `outbox` field records, in order, what is handed to the WebSocket or to `fetch`.

Supporting modules:

| module | models |
|---|---|
| `Wrappers` | `Option`, `Result`, `Outcome` |
| `Defaults` | JavaScript's `x \|\| fallback` on an optional string or number |
| `Decimal` | `${n}` for a natural number |
| `Durations` | `Math.round(ms / 1000)` and `new Date(s * 1000).toISOString().substr(11, 8)` |
| `Naming` | the ids and file names |
| `OrderedMaps` | a JavaScript `Map`, keeping its insertion order so that `Array.from(map.keys())` has a defined value |

Environment inputs become parameters of the methods:
- **Clock:** `Date.now()` is `now`, in milliseconds.
- **Server filesystem:** `storageOk` says whether `mkdirSync` / `mv` succeed.
- **Upload:** `hasChunk` says whether the upload carries its file.
- **Browser:** `granted` is what `getUserMedia` yields, and `socketCreated` / `recorderOk` say whether the WebSocket / MediaRecorder constructor succeeds. `frame` is the JPEG a canvas encodes, and `nextFrame` a `requestAnimationFrame` handle.
- **Timer callbacks:** `setTimeout` becomes the registry's `pendingDeletes` queue. `RunDueDeletes(now)` fires the deletes that are due.

A few behaviours of the code are proved as stated below even where a reader might expect otherwise. Each item says what the code does:
- A stopped session stays in its map, inactive, until its delete fires. No stop time is stored, so stopping it again succeeds and recomputes the duration.
- Uploading a chunk does not check `isActive`. A chunk for a stopped recording is accepted until the scheduled delete.
- Two sessions started in the same millisecond for the same camera get the same id. The second `set` overwrites the first, and the key keeps its place in the map.
- The status report counts only active sessions, but it lists the ids of all registered sessions, inactive ones included.
- A WebSocket that fails fires `error` and then `close`. The error handler starts the HTTP fallback. The close handler clears `isStreaming`, and the fallback uploads only while `isStreaming` holds, so after such a failure it uploads nothing (`ErrorThenCloseUploadsNothing`).
- The fallback's chunk upload sends no `streamId`, so `/stream-chunk` answers it with 404.

## Model

| member | source | states |
|---|---|---|
| Defaults.OrDefault | server/routes/camera.ts:37-38 | `v \|\| d` on an optional string: the value when present and non-empty, otherwise the fallback; a non-empty fallback makes the result non-empty |
| Defaults.OrDefaultInt | server/routes/camera.ts:110-111 | `v \|\| d` on an optional number: a missing value or 0 selects the fallback, any other value is kept |
| Decimal.NatToString | server/routes/camera.ts:77 | the decimal text of a timestamp is a non-empty digit string with no leading zero |
| Decimal.NatToStringValue | server/routes/camera.ts:77 | reading the decimal text back gives the number again |
| Decimal.NatToStringInjective | server/routes/camera.ts:77 | distinct timestamps have distinct decimal texts |
| Durations.RoundToSeconds | server/routes/camera.ts:142-144 | the rounded duration s satisfies `1000s - 500 <= ms < 1000s + 500` (half rounds up, as `Math.round`), and is non-negative for a non-negative duration |
| Durations.RoundToSecondsUnique | server/routes/camera.ts:142-144 | exactly one integer satisfies that bracket, so the rounding is the one `Math.round` performs |
| Durations.FormatHMS | server/routes/camera.ts:145-147 | the formatted duration is eight characters: two digits, colon, two digits, colon, two digits |
| Durations.FormatHMSRoundTrip | server/routes/camera.ts:145-147 | parsing `HH:MM:SS` back gives the seconds modulo one day: hours, minutes and seconds are encoded exactly |
| Durations.FormatHMSAgrees | server/routes/camera.ts:145-147 | two durations format alike exactly when they agree modulo a day (longer sessions wrap) |
| Naming.RecordingId | server/routes/camera.ts:77 | a recording id starts with `rec_` |
| Naming.StreamId | server/routes/camera.ts:189 | a stream id starts with `stream_` |
| Naming.RecordingAndStreamIdsDisjoint | server/routes/camera.ts:189 | no string is both a recording id and a stream id |
| Naming.SessionIdInjective | server/routes/camera.ts:77 | two ids of one kind are equal iff they were made in the same millisecond for the same defaulted camera tag |
| Naming.RecordingIdInjective | server/routes/camera.ts:77 | recording ids collide iff timestamp and camera tag coincide |
| Naming.StreamIdInjective | server/routes/camera.ts:189 | stream ids collide iff timestamp and camera tag coincide |
| Naming.ChunkFileName | server/routes/camera.ts:362-365 | a chunk's file name starts with its session id and ends in `.webm` |
| Naming.ChunkFileNameInjective | server/routes/camera.ts:364 | chunks of one session uploaded at different milliseconds get different file names |
| Naming.ScreenshotFileName | server/routes/camera.ts:37 | a screenshot name starts with `screenshot_` and ends in `.jpg` |
| Naming.ScreenshotFileNameInjective | server/routes/camera.ts:37 | screenshot names are equal iff camera tag and timestamp are equal |
| Naming.RecordingFileName | server/routes/camera.ts:105 | the announced artifact name is `recording_`, the session id, `.webm`; the session id can be read back from it |
| Naming.StreamUrl | server/routes/camera.ts:210 | the announced WebSocket address is the fixed `ws://localhost:8080/api/camera/stream/` base followed by exactly the stream id |
| OrderedMaps.OrderedMap.Get | server/routes/camera.ts:132 | `map.get(k)` yields a value exactly when k is a key, and then the value stored under it |
| OrderedMaps.OrderedMap.Set | server/routes/camera.ts:94 | `map.set`: the key maps to the value, other keys are unchanged, a new key goes last in iteration order, an existing key keeps its place |
| OrderedMaps.OrderedMap.DeleteAll | server/routes/camera.ts:171 | deleting a set of keys removes exactly them, keeps the order of the rest, and ignores absent keys |
| OrderedMaps.OrderedMap.Delete | server/routes/camera.ts:171 | `map.delete(k)`: k is gone, everything else is unchanged and in order |
| OrderedMaps.EmptyMap | server/routes/camera.ts:29-30 | the maps start empty and well formed |
| OrderedMaps.DeleteAllThenDelete | server/routes/camera.ts:170-172 | deleting one more key after a set of keys is deleting the enlarged set |
| CameraRoutes.Lookup | server/routes/camera.ts:351 | looking up a body field finds a session exactly when the field is present and names a registered id, and then it is that id's session; a missing field finds nothing |
| CameraRoutes.RequestSettings | server/routes/camera.ts:109-112 | the echoed resolution and bitrate are the requested ones, or `1920x1080` and 2500000 when absent, empty or zero |
| CameraRoutes.Screenshot | server/routes/camera.ts:33-71 | the whole 200 response: the ready message, the file `screenshot_<camera>_<ms>.jpg` inside the requested or default directory, the instant and the upload endpoint; a storage failure is the 500 "Failed to prepare screenshot" |
| CameraRoutes.StopReport | server/routes/camera.ts:141-166 | the stop report carries the session's start, the stop instant, the rounded duration in seconds within half a second of the real one, and an `HH:MM:SS` text that decodes to those seconds modulo a day |
| CameraRoutes.CountActive | server/routes/camera.ts:493-498 | `filter(s => s.isActive).length` never exceeds the number of sessions |
| CameraRoutes.CountActiveIsCardinality | server/routes/camera.ts:493-498 | over distinct ids the count is the number of active sessions among them |
| CameraRoutes.ActiveCount | server/routes/camera.ts:493-525 | the count equals the number of active sessions, and it is positive iff some session is active (`isRecording` / `isStreaming`) |
| CameraRoutes.Fire | server/routes/camera.ts:170-172 | one timer callback: when due and of the map's kind it removes exactly its id, keeping the rest in order; otherwise the map is unchanged |
| CameraRoutes.NotDue | server/routes/camera.ts:170-172 | the timers left pending are exactly those not yet due |
| CameraRoutes.RecordingsWellFormedAfterDelete | server/routes/camera.ts:170-172 | removing recordings keeps every remaining entry stored under its own recording id with a path |
| CameraRoutes.StreamsWellFormedAfterDelete | server/routes/camera.ts:273-275 | removing streams keeps every remaining entry stored under its own stream id without a path |
| CameraRoutes.SessionRegistry.constructor | server/routes/camera.ts:29-30 | both maps and the timer queue start empty |
| CameraRoutes.SessionRegistry.StartRecording | server/routes/camera.ts:74-125 | registers an active session under `rec_<ms>_<camera>` with the defaulted camera id and path, and reports it with its file name, upload endpoint and defaulted settings; a storage failure is a 500 that registers nothing |
| CameraRoutes.SessionRegistry.StopRecording | server/routes/camera.ts:128-183 | an unknown or missing id is a 404 that changes nothing; otherwise the session, left in place, becomes inactive, a delete 5000 ms later is scheduled, and the report is StopReport's |
| CameraRoutes.SessionRegistry.StartStreaming | server/routes/camera.ts:186-229 | registers an active stream under `stream_<ms>_<camera>` and reports its WebSocket URL, HTTP endpoint and defaulted settings |
| CameraRoutes.SessionRegistry.StopStreaming | server/routes/camera.ts:232-286 | an unknown id is a 404 that changes nothing; otherwise the stream becomes inactive, a delete 1000 ms later is scheduled, and the report has no path |
| CameraRoutes.SessionRegistry.UploadRecordingChunk | server/routes/camera.ts:340-398 | no file: 400; unknown session: 404; failed save: 500; otherwise the chunk is named `<id>_chunk_<ms>.webm` in the session's directory, and `isLastChunk == "true"` (and only that) marks the session inactive and reports completion |
| CameraRoutes.SessionRegistry.StreamChunk | server/routes/camera.ts:401-447 | no file: 400; unknown stream: 404; otherwise it acknowledges with the stream id and the client's timestamp, changing nothing |
| CameraRoutes.SessionRegistry.CameraStatus | server/routes/camera.ts:492-534 | the three fixed cameras; the active-recording and active-stream counts are the numbers of active sessions; the flags hold iff some session is active; the id lists are all registered ids in insertion order |
| CameraRoutes.SessionRegistry.RunDueDeletes | server/routes/camera.ts:170-172 | firing the due timers removes exactly the due ids from their own map, leaves the rest in order, and keeps exactly the timers not yet due |
| CameraRoutes.SessionMapsDisjoint | server/routes/camera.ts:29-30 | no id is registered in both maps |
| CameraRoutes.GracePeriodScenario | server/routes/camera.ts:169-172 | a stopped recording is still present, inactive, 1 ms before its grace period ends, and gone when it ends |
| CameraStreaming.ConcatBytes | client/services/CameraStreamingService.ts:294-296 | the Blob built from the recorded chunks has the sum of their sizes |
| CameraStreaming.ConcatBytesAppend | client/services/CameraStreamingService.ts:294-296 | the bytes of a Blob built from two runs of chunks are the first run's followed by the second's |
| CameraStreaming.KeepNonEmpty | client/services/CameraStreamingService.ts:271-275 | the chunks a recording keeps all have positive size |
| CameraStreaming.KeepNonEmptyLosesNothing | client/services/CameraStreamingService.ts:271-275 | skipping empty chunks loses no byte: the kept chunks hold all delivered bytes in order |
| CameraStreaming.PreferredMimeType | client/services/CameraStreamingService.ts:368-383 | the chosen type is `video/webm` or a supported candidate |
| CameraStreaming.PreferredMimeTypeIsFirstSupported | client/services/CameraStreamingService.ts:368-383 | the chosen type is the first supported candidate, or `video/webm` when none is supported |
| CameraStreaming.ReplaceFirst | client/services/CameraStreamingService.ts:109 | `replace` with a string pattern replaces at most once: the length is unchanged or changes by one replacement, and a string shorter than the pattern is unchanged |
| CameraStreaming.SocketUrl | client/services/CameraStreamingService.ts:109 | an endpoint starting with `http` gets `ws` in its place, the rest kept; an endpoint without `http` is unchanged; in every case the length is kept or shortened by two |
| CameraStreaming.ReplaceFirstAt | client/services/CameraStreamingService.ts:109 | `replace` with a string pattern rewrites only the first occurrence |
| CameraStreaming.ReplaceFirstAbsent | client/services/CameraStreamingService.ts:109 | a string with no occurrence is left unchanged |
| CameraStreaming.SocketUrlOfHttp | client/services/CameraStreamingService.ts:109 | an `http…` endpoint becomes `ws…` (so `https` becomes `wss`) |
| CameraStreaming.BuildConstraints | client/services/CameraStreamingService.ts:52-61 | audio on; the device pinned exactly iff a non-empty id is given; width, height and frame rate default to 1920, 1080, 30 when unset or zero; facing mode defaults to environment |
| CameraStreaming.RecordingRecorder | client/services/CameraStreamingService.ts:268-281 | the recording recorder records the camera stream with the chosen MIME type, no timeslice and no bitrates, keeps its chunks and only logs its stop |
| CameraStreaming.FallbackRecorder | client/services/CameraStreamingService.ts:141-153 | the fallback recorder records with the chosen MIME type, a 100 ms timeslice, the requested bitrates or 2500000 / 128000 when absent or zero, uploads its chunks to the endpoint and has no stop handler |
| CameraStreaming.ErrorMessage | client/services/CameraStreamingService.ts:262-291 | each rejection carries its fixed, non-empty message, except a recorder constructor failure, which passes on the browser's exception |
| CameraStreaming.StopRecorder | client/services/CameraStreamingService.ts:256-258 | stopping leaves the recorder inactive; an already inactive recorder is unchanged and queues no stop event |
| CameraStreaming.CameraStreamingService.constructor | client/services/CameraStreamingService.ts:27-45 | all fields start empty or false |
| CameraStreaming.CameraStreamingService.InitializeCamera | client/services/CameraStreamingService.ts:48-69 | asks for BuildConstraints(config); success stores and returns the stream; failure is "Failed to access camera…" and leaves the stream unchanged |
| CameraStreaming.CameraStreamingService.AttachStreamToVideo | client/services/CameraStreamingService.ts:84-93 | the element is remembered with the stream as its source |
| CameraStreaming.CameraStreamingService.StartStreaming | client/services/CameraStreamingService.ts:96-129 | without a camera stream it fails and changes nothing; otherwise sets endpoint and isStreaming and opens a connecting socket to the `ws` URL, or, when the socket cannot be created, installs the HTTP fallback at once |
| CameraStreaming.CameraStreamingService.FallbackToHttpStreaming | client/services/CameraStreamingService.ts:132-157 | with a camera stream and a constructible recorder, installs a recorder using the preferred MIME type, the defaulted bitrates (2500000 / 128000), a 100 ms timeslice and an upload handler for this endpoint; otherwise the recorder is unchanged |
| CameraStreaming.CameraStreamingService.FrameLoopRuns | client/services/CameraStreamingService.ts:183-188 | the frame loop's guard: it passes only while streaming over a held socket, and never without a canvas context |
| CameraStreaming.CameraStreamingService.SendFrames | client/services/CameraStreamingService.ts:182-221 | outside the loop's guard nothing changes; inside it the next frame is scheduled, and an encoded frame is sent iff the socket is open |
| CameraStreaming.CameraStreamingService.OnSocketOpen | client/services/CameraStreamingService.ts:160-179 | a connecting socket becomes open and, given a camera stream and a canvas context while streaming, the first frame is sent and the loop scheduled |
| CameraStreaming.CameraStreamingService.OnAnimationFrame | client/services/CameraStreamingService.ts:218-220 | a queued frame callback runs one pass of SendFrames; without one nothing is sent |
| CameraStreaming.CameraStreamingService.OnSocketError | client/services/CameraStreamingService.ts:116-119 | the socket is closed, and the HTTP fallback is installed for the socket's endpoint and options |
| CameraStreaming.CameraStreamingService.OnSocketClose | client/services/CameraStreamingService.ts:121-124 | the socket is closed and streaming ends |
| CameraStreaming.CameraStreamingService.OnRecorderData | client/services/CameraStreamingService.ts:147-151 | a recording recorder appends a non-empty chunk and uploads nothing; a fallback recorder uploads a non-empty chunk to `<endpoint>/stream-chunk` iff streaming, and records nothing |
| CameraStreaming.CameraStreamingService.StopStreaming | client/services/CameraStreamingService.ts:243-259 | streaming off, the frame callback cancelled, the socket closed once and dropped, and the recorder stopped unless already inactive |
| CameraStreaming.CameraStreamingService.StartRecording | client/services/CameraStreamingService.ts:262-283 | without a camera stream or a constructible recorder it fails and changes nothing; otherwise a recorder with the given or preferred MIME type starts, the chunk list is emptied and isRecording set |
| CameraStreaming.CameraStreamingService.StopRecording | client/services/CameraStreamingService.ts:286-304 | no recorder or not recording: "No active recording", nothing changes; otherwise the stop handler becomes the one that finishes the recording and the recorder is stopped |
| CameraStreaming.CameraStreamingService.OnRecorderStop | client/services/CameraStreamingService.ts:293-300 | a queued stop event that finishes a recording yields one Blob of all recorded chunks in order, typed by the recorder's MIME type or `video/webm`, and empties the list and clears isRecording |
| CameraStreaming.CameraStreamingService.GetSupportedMimeType | client/services/CameraStreamingService.ts:368-383 | the loop returns the first supported candidate, or `video/webm` |
| CameraStreaming.CameraStreamingService.UpdateDetectionBoxes | client/services/CameraStreamingService.ts:338-340 | the boxes are replaced |
| CameraStreaming.CameraStreamingService.Cleanup | client/services/CameraStreamingService.ts:425-441 | everything StopStreaming does, then the camera and recording streams are released and the video element loses its source |
| CameraStreaming.RecordAndStop | client/services/CameraStreamingService.ts:271-300 | start, any sequence of delivered chunks, stop: the resulting Blob holds exactly all delivered bytes in delivery order, typed with the preferred MIME type |
| CameraStreaming.RecordWithFinalChunks | client/services/CameraStreamingService.ts:277-302 | chunks delivered after `stop()` and before the `stop` event still reach the result: the Blob holds the bytes delivered before the stop followed by those delivered after it |
| CameraStreaming.ErrorThenCloseUploadsNothing | client/services/CameraStreamingService.ts:116-124 | after a socket error followed by its close, the fallback uploads nothing |
| CameraStreaming.SocketFailureChunkUploads | client/services/CameraStreamingService.ts:125-151 | when the WebSocket constructor throws, the fallback starts at once and a non-empty chunk is uploaded to `<endpoint>/stream-chunk` with its timestamp |
| CameraStreaming.ClosedSocketSendsNoFrame | client/services/CameraStreamingService.ts:204-211 | a frame pass queued before the socket closed sends nothing when it runs, even after a restart whose socket could not be created |

## Left out

- Clock reads: the start handlers read the clock twice, `Date.now()` for the id and `new Date()` for the start time, and the screenshot handler reads it for the file name and again for the timestamp. The model takes both reads of one request to give the same instant, `now`.
- Dates: `new Date()` and its `toISOString()` on start and end times are kept as integer milliseconds. The ISO text of an instant is not modelled; only the `HH:MM:SS` duration text is.
- FormatHMS: durations of a day or more wrap modulo a day, as `substr(11, 8)` does. The extended-year form and the RangeError for durations beyond the Date range are not modelled.
- RoundToSeconds: rounding is exact integer arithmetic. Floating-point error in `ms / 1000` is not modelled; it does not change the result for realistic durations.
- `path.join` is a (directory, file name) pair; its normalisation of separators and `..` is not modelled.
- Filesystem and upload effects (`existsSync`, `mkdirSync`, `mv`) are reduced to the `storageOk` and `hasChunk` parameters. The messages of caught exceptions are not modelled.
- The `handleUploadScreenshot`, `handleCameraStream` and `handleCameraLiveFeed` handlers are not part of this model.
- On the client, `getAvailableCameras`, `takeScreenshot`, `drawDetectionBoxes` and `saveToFile` talk only to device enumeration, the canvas and the file system. They are not part of this model, and a frame's pixels are the opaque `frame` parameter.
- `sendStreamData` waits for the video element's metadata. The model takes the metadata as already loaded, so the first frame is sent inside OnSocketOpen. Likewise `toBlob` and `arrayBuffer` are taken to complete before the next event.
- Events from a socket or recorder that has since been replaced are not modelled. The open and error events require the current socket, a close event acts on the current socket if there is one, and recorder events require the current recorder.
- `mediaRecorder.start()` throwing is not modelled. Only the constructor's failure (`recorderOk`) is.
- Errors of the fallback's `fetch` are only logged by the source, so an upload is modelled as handed to `fetch`, whatever the outcome.
- Stopping media tracks in `cleanup` is a browser effect. The model records only that the streams are released.
- The getters `isCurrentlyRecording`, `isCurrentlyStreaming` and `currentStream` read a field. The fields are public in the model.
- Concurrency between requests, and between browser callbacks, is not modelled. Each handler and callback runs to completion.
