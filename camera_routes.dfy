/** The camera route handlers of the server: an in-memory registry of recording
    sessions and of streaming sessions, each a JavaScript `Map` from session id to
    session record, and the responses the handlers send. */
module CameraRoutes {
  import opened Wrappers
  import opened Defaults
  import opened Durations
  import opened Naming
  import opened OrderedMaps

  const DefaultCameraId := "camera1"
  const DefaultRecordingsPath := "./uploads/recordings/"
  const DefaultScreenshotsPath := "./uploads/screenshots/"
  const DefaultResolution := "1920x1080"
  const DefaultBitrate := 2500000
  /** Delay before a stopped recording is removed from the registry, in milliseconds. */
  const RecordingGraceMs := 5000
  /** Delay before a stopped stream is removed from the registry, in milliseconds. */
  const StreamGraceMs := 1000

  /** The body fields the start and screenshot handlers read; absent fields are None. */
  datatype CameraRequest = CameraRequest(
    path: Option<string>,
    cameraId: Option<string>,
    resolution: Option<string>,
    bitrate: Option<int>)

  /** A session record. `startTime` is in milliseconds since the epoch; `path` is set
      for recordings only. */
  datatype StreamSession = StreamSession(
    id: string,
    cameraId: string,
    startTime: nat,
    path: Option<string>,
    isActive: bool)

  /** `path.join(directory, fileName)`. */
  datatype FilePath = FilePath(directory: string, fileName: string)

  datatype Settings = Settings(resolution: string, bitrate: int)

  datatype CameraInfo = CameraInfo(id: string, name: string, status: string, resolution: string)

  /** The `data` member of a response. Instants are milliseconds since the epoch. Field
      names follow the JSON keys, except `fullPath` and `savePath` (both `path`),
      `clientTimestamp` (`timestamp`) and SessionStopped's `id` (`sessionId` for a
      recording, `streamId` for a stream). */
  datatype ResponseData =
    | NoData
      /** `{ error: message }` of a caught exception; the message is not modelled. */
    | ErrorDetail
    | ScreenshotReady(filename: string, fullPath: FilePath, timestamp: nat, uploadEndpoint: string)
    | RecordingStarted(sessionId: string, filename: string, savePath: string, startTime: nat,
                       uploadEndpoint: string, settings: Settings)
    | StreamingStarted(streamId: string, streamUrl: string, httpEndpoint: string, startTime: nat,
                       settings: Settings)
    | SessionStopped(id: string, startTime: nat, endTime: nat, duration: string,
                     durationSeconds: int, path: Option<string>)
    | ChunkSaved(sessionId: string, chunkPath: FilePath, isCompleted: bool)
    | StreamChunkProcessed(streamId: string, clientTimestamp: Option<string>, processed: bool)
    | CameraStatusReport(cameras: seq<CameraInfo>, isRecording: bool, isStreaming: bool,
                         activeRecordings: nat, activeStreams: nat,
                         activeSessions: seq<string>, streamingSessions: seq<string>)

  /** A `CameraResponse` together with the HTTP status it is sent with. */
  datatype Response = Response(status: nat, success: bool, message: string, data: ResponseData)

  const Cameras := [
    CameraInfo("camera1", "Camera 1 (Main Entrance)", "active", "1920x1080"),
    CameraInfo("camera2", "Camera 2 (Side View)", "active", "1280x720"),
    CameraInfo("camera3", "Camera 3 (Rear View)", "inactive", "1920x1080")
  ]

  /** The settings a start response echoes: the requested ones, or 1920x1080 at
      2500000 bit/s for those absent or falsy. */
  function RequestSettings(req: CameraRequest): (s: Settings)
    ensures req.resolution.Some? && req.resolution.value != "" ==> s.resolution == req.resolution.value
    ensures req.resolution.None? || req.resolution.value == "" ==> s.resolution == DefaultResolution
    ensures req.bitrate.Some? && req.bitrate.value != 0 ==> s.bitrate == req.bitrate.value
    ensures req.bitrate.None? || req.bitrate.value == 0 ==> s.bitrate == DefaultBitrate
  {
    Settings(OrDefault(req.resolution, DefaultResolution), OrDefaultInt(req.bitrate, DefaultBitrate))
  }

  /** `map.get(key)` where the body field may be missing. */
  function Lookup(m: OrderedMap<string, StreamSession>, key: Option<string>): (r: Option<StreamSession>)
    ensures r.Some? <==> key.Some? && key.value in m.entries
    ensures r.Some? ==> r.value == m.entries[key.value]
  {
    if key.Some? then m.Get(key.value) else None
  }

  /** The screenshot handler: names the file the client is to upload and touches no
      session. `storageOk` says whether the target directory exists or could be made. */
  function Screenshot(req: CameraRequest, now: nat, storageOk: bool): (r: Response)
    ensures storageOk ==>
      var filename := ScreenshotFileName(req.cameraId, now);
      r == Response(200, true, "Screenshot endpoint ready - send image data to /api/camera/upload-screenshot",
                    ScreenshotReady(filename, FilePath(OrDefault(req.path, DefaultScreenshotsPath), filename),
                                    now, "/api/camera/upload-screenshot"))
    ensures !storageOk ==> r == Response(500, false, "Failed to prepare screenshot", ErrorDetail)
  {
    var filename := ScreenshotFileName(req.cameraId, now);
    var savePath := OrDefault(req.path, DefaultScreenshotsPath);
    if !storageOk then Response(500, false, "Failed to prepare screenshot", ErrorDetail)
    else
      Response(200, true,
               "Screenshot endpoint ready - send image data to /api/camera/upload-screenshot",
               ScreenshotReady(filename, FilePath(savePath, filename), now, "/api/camera/upload-screenshot"))
  }

  /** What a stop handler reports for session s stopped at `now`. */
  function StopReport(id: string, s: StreamSession, now: nat, path: Option<string>): (r: ResponseData)
    ensures r.SessionStopped? && r.id == id && r.startTime == s.startTime && r.endTime == now && r.path == path
    ensures r.durationSeconds * 1000 - 500 <= now - s.startTime < r.durationSeconds * 1000 + 500
    ensures now >= s.startTime ==> r.durationSeconds >= 0
    ensures ParseHMS(r.duration) == Some(r.durationSeconds % SecondsPerDay)
  {
    var seconds := RoundToSeconds(now - s.startTime);
    FormatHMSRoundTrip(seconds);
    SessionStopped(id, s.startTime, now, FormatHMS(seconds), seconds, path)
  }

  /** Every recording entry is stored under its own id, which is a recording id, and has a path. */
  ghost predicate RecordingsWellFormed(m: OrderedMap<string, StreamSession>) {
    m.Valid() &&
    forall k :: k in m.entries ==> IsRecordingId(k) && m.entries[k].id == k && m.entries[k].path.Some?
  }

  /** Every stream entry is stored under its own id, which is a stream id, and has no path. */
  ghost predicate StreamsWellFormed(m: OrderedMap<string, StreamSession>) {
    m.Valid() &&
    forall k :: k in m.entries ==> IsStreamId(k) && m.entries[k].id == k && m.entries[k].path.None?
  }

  /** `Array.from(map.values()).filter((s) => s.isActive).length`, over the keys in map order. */
  function CountActive(ids: seq<string>, sessions: map<string, StreamSession>): (n: nat)
    ensures n <= |ids|
  {
    if ids == [] then 0
    else
      var last := ids[|ids| - 1];
      CountActive(ids[..|ids| - 1], sessions) + (if last in sessions && sessions[last].isActive then 1 else 0)
  }

  ghost function ActiveAmong(ids: seq<string>, sessions: map<string, StreamSession>): set<string> {
    set k | k in ids && k in sessions && sessions[k].isActive
  }

  /** The ids of the active sessions. */
  ghost function ActiveIds(sessions: map<string, StreamSession>): set<string> {
    set k | k in sessions && sessions[k].isActive
  }

  lemma {:induction false} CountActiveIsCardinality(ids: seq<string>, sessions: map<string, StreamSession>)
    requires NoDuplicates(ids)
    ensures CountActive(ids, sessions) == |ActiveAmong(ids, sessions)|
  {
    if ids != [] {
      var init, last := ids[..|ids| - 1], ids[|ids| - 1];
      assert ids == init + [last];
      assert NoDuplicates(init);
      assert last !in init;
      CountActiveIsCardinality(init, sessions);
      if last in sessions && sessions[last].isActive {
        assert ActiveAmong(ids, sessions) == ActiveAmong(init, sessions) + {last};
      } else {
        assert ActiveAmong(ids, sessions) == ActiveAmong(init, sessions);
      }
    }
  }

  /** Counting over a map's keys counts exactly its active sessions, and the count is
      positive exactly when some session is active. */
  lemma ActiveCount(m: OrderedMap<string, StreamSession>)
    requires m.Valid()
    ensures CountActive(m.order, m.entries) == |ActiveIds(m.entries)|
    ensures CountActive(m.order, m.entries) > 0 <==> exists k :: k in m.entries && m.entries[k].isActive
  {
    CountActiveIsCardinality(m.order, m.entries);
    assert ActiveAmong(m.order, m.entries) == ActiveIds(m.entries);
    if exists k :: k in m.entries && m.entries[k].isActive {
      var k :| k in m.entries && m.entries[k].isActive;
      assert k in ActiveIds(m.entries);
    }
  }

  datatype DeleteKind = RecordingDelete | StreamDelete

  /** A `setTimeout(() => map.delete(id), delay)` that has not fired yet; `due` is the
      instant it fires at. */
  datatype PendingDelete = PendingDelete(kind: DeleteKind, id: string, due: int)

  /** The ids that the pending deletes of one kind due by `now` remove. */
  ghost function DueIds(ps: seq<PendingDelete>, now: int, kind: DeleteKind): set<string> {
    set p | p in ps && p.kind == kind && p.due <= now :: p.id
  }

  /** The pending deletes not yet due at `now`, in their order. */
  function NotDue(ps: seq<PendingDelete>, now: int): (r: seq<PendingDelete>)
    ensures forall p :: p in r <==> p in ps && p.due > now
  {
    if ps == [] then []
    else NotDue(ps[..|ps| - 1], now) + (if ps[|ps| - 1].due > now then [ps[|ps| - 1]] else [])
  }

  lemma DueIdsStep(ps: seq<PendingDelete>, p: PendingDelete, now: int, kind: DeleteKind)
    ensures DueIds(ps + [p], now, kind)
         == DueIds(ps, now, kind) + (if p.kind == kind && p.due <= now then {p.id} else {})
  {
    var lhs, rhs := DueIds(ps + [p], now, kind), DueIds(ps, now, kind) + (if p.kind == kind && p.due <= now then {p.id} else {});
    forall x | x in lhs ensures x in rhs {
      var q :| q in ps + [p] && q.kind == kind && q.due <= now && q.id == x;
      if q != p { assert q in ps; }
    }
    forall x | x in rhs ensures x in lhs {
      if x in DueIds(ps, now, kind) {
        var q :| q in ps && q.kind == kind && q.due <= now && q.id == x;
        assert q in ps + [p];
      } else {
        assert p in ps + [p];
      }
    }
  }

  /** What one pending delete does at `now` to the map of the given kind. */
  function Fire(m: OrderedMap<string, StreamSession>, p: PendingDelete, now: int, kind: DeleteKind): (r: OrderedMap<string, StreamSession>)
    requires m.Valid()
    ensures r.Valid()
    ensures p.kind == kind && p.due <= now ==> r.entries == m.entries - {p.id} && r.order == WithoutAll(m.order, {p.id})
    ensures !(p.kind == kind && p.due <= now) ==> r == m
  {
    if p.kind == kind && p.due <= now then m.Delete(p.id) else m
  }

  /** Firing the i-th pending delete extends the deletes fired before it by its id,
      when it is due and of the map's kind. */
  lemma FireStep(m0: OrderedMap<string, StreamSession>, ps: seq<PendingDelete>, i: nat, now: int, kind: DeleteKind)
    requires m0.Valid() && i < |ps|
    ensures m0.DeleteAll(DueIds(ps[..i + 1], now, kind))
         == Fire(m0.DeleteAll(DueIds(ps[..i], now, kind)), ps[i], now, kind)
  {
    var before, after := DueIds(ps[..i], now, kind), DueIds(ps[..i + 1], now, kind);
    assert ps[..i + 1] == ps[..i] + [ps[i]];
    DueIdsStep(ps[..i], ps[i], now, kind);
    if ps[i].kind == kind && ps[i].due <= now {
      assert after == before + {ps[i].id};
      DeleteAllThenDelete(m0, before, ps[i].id);
    } else {
      assert after == before;
    }
  }

  lemma RecordingsWellFormedAfterDelete(m: OrderedMap<string, StreamSession>, ks: set<string>)
    requires RecordingsWellFormed(m)
    ensures RecordingsWellFormed(m.DeleteAll(ks))
  {
  }

  lemma StreamsWellFormedAfterDelete(m: OrderedMap<string, StreamSession>, ks: set<string>)
    requires StreamsWellFormed(m)
    ensures StreamsWellFormed(m.DeleteAll(ks))
  {
  }

  /** The two session maps of the route module, with the deferred deletes that the
      stop handlers have scheduled. */
  class SessionRegistry {
    var activeSessions: OrderedMap<string, StreamSession>
    var streamingSessions: OrderedMap<string, StreamSession>
    var pendingDeletes: seq<PendingDelete>

    ghost predicate Valid()
      reads this
    {
      RecordingsWellFormed(activeSessions) && StreamsWellFormed(streamingSessions)
    }

    constructor ()
      ensures Valid()
      ensures activeSessions == EmptyMap() && streamingSessions == EmptyMap() && pendingDeletes == []
    {
      activeSessions := EmptyMap();
      streamingSessions := EmptyMap();
      pendingDeletes := [];
    }

    /** Creates a recording session under `rec_<now>_<camera>` and reports it.
        `storageOk` says whether the save directory exists or could be made; if not,
        the handler fails before the session is created. */
    method StartRecording(req: CameraRequest, now: nat, storageOk: bool) returns (r: Response)
      requires Valid()
      modifies this`activeSessions
      ensures Valid()
      ensures !storageOk ==> r == Response(500, false, "Failed to start recording", ErrorDetail)
                             && activeSessions == old(activeSessions)
      ensures storageOk ==>
        var id := RecordingId(now, req.cameraId);
        var savePath := OrDefault(req.path, DefaultRecordingsPath);
        && activeSessions == old(activeSessions).Set(id, StreamSession(id, OrDefault(req.cameraId, DefaultCameraId), now, Some(savePath), true))
        && r == Response(200, true, "Recording session started successfully",
                         RecordingStarted(id, RecordingFileName(id), savePath, now,
                                          "/api/camera/upload-recording-chunk", RequestSettings(req)))
    {
      var sessionId := RecordingId(now, req.cameraId);
      var savePath := OrDefault(req.path, DefaultRecordingsPath);
      if !storageOk {
        return Response(500, false, "Failed to start recording", ErrorDetail);
      }
      var session := StreamSession(sessionId, OrDefault(req.cameraId, DefaultCameraId), now, Some(savePath), true);
      activeSessions := activeSessions.Set(sessionId, session);
      r := Response(200, true, "Recording session started successfully",
                    RecordingStarted(sessionId, RecordingFileName(sessionId), savePath, now,
                                     "/api/camera/upload-recording-chunk", RequestSettings(req)));
    }

    /** Marks a recording inactive, reports its duration and schedules its removal
        RecordingGraceMs later; an unknown id is a 404 that changes nothing. */
    method StopRecording(sessionId: Option<string>, now: nat) returns (r: Response)
      requires Valid()
      modifies this`activeSessions, this`pendingDeletes
      ensures Valid()
      ensures Lookup(old(activeSessions), sessionId).None? ==>
        && r == Response(404, false, "Recording session not found", NoData)
        && activeSessions == old(activeSessions) && pendingDeletes == old(pendingDeletes)
      ensures Lookup(old(activeSessions), sessionId).Some? ==>
        var s := Lookup(old(activeSessions), sessionId).value;
        var id := sessionId.value;
        && activeSessions == old(activeSessions).Set(id, s.(isActive := false))
        && pendingDeletes == old(pendingDeletes) + [PendingDelete(RecordingDelete, id, now + RecordingGraceMs)]
        && r == Response(200, true, "Recording stopped successfully", StopReport(id, s, now, s.path))
    {
      var found := Lookup(activeSessions, sessionId);
      if found.None? {
        return Response(404, false, "Recording session not found", NoData);
      }
      var session := found.value;
      var id := sessionId.value;
      var data := StopReport(id, session, now, session.path);
      activeSessions := activeSessions.Set(id, session.(isActive := false));
      pendingDeletes := pendingDeletes + [PendingDelete(RecordingDelete, id, now + RecordingGraceMs)];
      r := Response(200, true, "Recording stopped successfully", data);
    }

    /** Creates a streaming session under `stream_<now>_<camera>` and reports it. */
    method StartStreaming(req: CameraRequest, now: nat) returns (r: Response)
      requires Valid()
      modifies this`streamingSessions
      ensures Valid()
      ensures
        var id := StreamId(now, req.cameraId);
        && streamingSessions == old(streamingSessions).Set(id, StreamSession(id, OrDefault(req.cameraId, DefaultCameraId), now, None, true))
        && r == Response(200, true, "Streaming session started successfully",
                         StreamingStarted(id, StreamUrl(id), "/api/camera/stream-chunk", now, RequestSettings(req)))
    {
      var streamId := StreamId(now, req.cameraId);
      var session := StreamSession(streamId, OrDefault(req.cameraId, DefaultCameraId), now, None, true);
      streamingSessions := streamingSessions.Set(streamId, session);
      r := Response(200, true, "Streaming session started successfully",
                    StreamingStarted(streamId, StreamUrl(streamId), "/api/camera/stream-chunk", now, RequestSettings(req)));
    }

    /** Marks a stream inactive, reports its duration and schedules its removal
        StreamGraceMs later; an unknown id is a 404 that changes nothing. */
    method StopStreaming(streamId: Option<string>, now: nat) returns (r: Response)
      requires Valid()
      modifies this`streamingSessions, this`pendingDeletes
      ensures Valid()
      ensures Lookup(old(streamingSessions), streamId).None? ==>
        && r == Response(404, false, "Streaming session not found", NoData)
        && streamingSessions == old(streamingSessions) && pendingDeletes == old(pendingDeletes)
      ensures Lookup(old(streamingSessions), streamId).Some? ==>
        var s := Lookup(old(streamingSessions), streamId).value;
        var id := streamId.value;
        && streamingSessions == old(streamingSessions).Set(id, s.(isActive := false))
        && pendingDeletes == old(pendingDeletes) + [PendingDelete(StreamDelete, id, now + StreamGraceMs)]
        && r == Response(200, true, "Streaming stopped successfully", StopReport(id, s, now, None))
    {
      var found := Lookup(streamingSessions, streamId);
      if found.None? {
        return Response(404, false, "Streaming session not found", NoData);
      }
      var session := found.value;
      var id := streamId.value;
      var data := StopReport(id, session, now, None);
      streamingSessions := streamingSessions.Set(id, session.(isActive := false));
      pendingDeletes := pendingDeletes + [PendingDelete(StreamDelete, id, now + StreamGraceMs)];
      r := Response(200, true, "Streaming stopped successfully", data);
    }

    /** Stores one uploaded recording chunk. A missing chunk file is a 400 before any
        lookup and an unknown session a 404; otherwise the chunk is accepted whether or
        not the session is still active, and "true" in `isLastChunk` marks the session
        inactive. `storageOk` says whether moving the file into place succeeded. */
    method UploadRecordingChunk(sessionId: Option<string>, isLastChunk: Option<string>,
                                hasChunk: bool, now: nat, storageOk: bool) returns (r: Response)
      requires Valid()
      modifies this`activeSessions
      ensures Valid()
      ensures !hasChunk ==> r == Response(400, false, "No chunk file provided", NoData)
                            && activeSessions == old(activeSessions)
      ensures hasChunk && Lookup(old(activeSessions), sessionId).None? ==>
        r == Response(404, false, "Recording session not found", NoData) && activeSessions == old(activeSessions)
      ensures hasChunk && Lookup(old(activeSessions), sessionId).Some? ==>
        var s := Lookup(old(activeSessions), sessionId).value;
        var id := sessionId.value;
        var chunkPath := FilePath(OrDefault(s.path, DefaultRecordingsPath), ChunkFileName(id, now));
        var last := isLastChunk == Some("true");
        && (!storageOk ==> r == Response(500, false, "Failed to save recording chunk", ErrorDetail)
                           && activeSessions == old(activeSessions))
        && (storageOk ==>
              && activeSessions == (if last then old(activeSessions).Set(id, s.(isActive := false)) else old(activeSessions))
              && r == Response(200, true, if last then "Recording completed and saved" else "Chunk uploaded successfully",
                               ChunkSaved(id, chunkPath, last)))
    {
      if !hasChunk {
        return Response(400, false, "No chunk file provided", NoData);
      }
      var found := Lookup(activeSessions, sessionId);
      if found.None? {
        return Response(404, false, "Recording session not found", NoData);
      }
      var session := found.value;
      var id := sessionId.value;
      var chunkPath := FilePath(OrDefault(session.path, DefaultRecordingsPath), ChunkFileName(id, now));
      if !storageOk {
        return Response(500, false, "Failed to save recording chunk", ErrorDetail);
      }
      var last := isLastChunk == Some("true");
      if last {
        activeSessions := activeSessions.Set(id, session.(isActive := false));
      }
      r := Response(200, true, if last then "Recording completed and saved" else "Chunk uploaded successfully",
                    ChunkSaved(id, chunkPath, last));
    }

    /** Acknowledges one chunk of a live stream; the registry is not changed. */
    method StreamChunk(streamId: Option<string>, timestamp: Option<string>, hasChunk: bool) returns (r: Response)
      ensures !hasChunk ==> r == Response(400, false, "No stream chunk provided", NoData)
      ensures hasChunk && Lookup(streamingSessions, streamId).None? ==>
        r == Response(404, false, "Streaming session not found", NoData)
      ensures hasChunk && Lookup(streamingSessions, streamId).Some? ==>
        r == Response(200, true, "Stream chunk processed", StreamChunkProcessed(streamId.value, timestamp, true))
    {
      if !hasChunk {
        return Response(400, false, "No stream chunk provided", NoData);
      }
      if Lookup(streamingSessions, streamId).None? {
        return Response(404, false, "Streaming session not found", NoData);
      }
      r := Response(200, true, "Stream chunk processed", StreamChunkProcessed(streamId.value, timestamp, true));
    }

    /** Reports the cameras, how many sessions of each kind are active, and every
        registered id, inactive ones included, in insertion order. */
    method CameraStatus() returns (r: Response)
      requires Valid()
      ensures r.status == 200 && r.success && r.message == "Camera status retrieved successfully"
      ensures r.data.CameraStatusReport? && r.data.cameras == Cameras
      ensures r.data.activeRecordings == |ActiveIds(activeSessions.entries)|
      ensures r.data.activeStreams == |ActiveIds(streamingSessions.entries)|
      ensures r.data.isRecording <==> exists k :: k in activeSessions.entries && activeSessions.entries[k].isActive
      ensures r.data.isStreaming <==> exists k :: k in streamingSessions.entries && streamingSessions.entries[k].isActive
      ensures r.data.activeSessions == activeSessions.order
      ensures r.data.streamingSessions == streamingSessions.order
      ensures forall k :: k in r.data.activeSessions <==> k in activeSessions.entries
      ensures forall k :: k in r.data.streamingSessions <==> k in streamingSessions.entries
    {
      var activeRecordings := CountActive(activeSessions.order, activeSessions.entries);
      var activeStreams := CountActive(streamingSessions.order, streamingSessions.entries);
      ActiveCount(activeSessions);
      ActiveCount(streamingSessions);
      r := Response(200, true, "Camera status retrieved successfully",
                    CameraStatusReport(Cameras, activeRecordings > 0, activeStreams > 0,
                                       activeRecordings, activeStreams,
                                       activeSessions.order, streamingSessions.order));
    }

    /** Fires every scheduled delete that is due at `now`: each removes its id from its
        map, an id already gone being ignored. The deletes commute, so firing them in
        scheduling order gives the same maps as firing them in due order. */
    method RunDueDeletes(now: int)
      requires Valid()
      modifies this`activeSessions, this`streamingSessions, this`pendingDeletes
      ensures Valid()
      ensures activeSessions == old(activeSessions).DeleteAll(DueIds(old(pendingDeletes), now, RecordingDelete))
      ensures streamingSessions == old(streamingSessions).DeleteAll(DueIds(old(pendingDeletes), now, StreamDelete))
      ensures pendingDeletes == NotDue(old(pendingDeletes), now)
    {
      ghost var recordings0, streams0 := activeSessions, streamingSessions;
      var ps := pendingDeletes;
      var remaining: seq<PendingDelete> := [];
      var i := 0;
      assert ps[..0] == [];
      while i < |ps|
        invariant 0 <= i <= |ps|
        invariant RecordingsWellFormed(recordings0) && StreamsWellFormed(streams0)
        invariant activeSessions == recordings0.DeleteAll(DueIds(ps[..i], now, RecordingDelete))
        invariant streamingSessions == streams0.DeleteAll(DueIds(ps[..i], now, StreamDelete))
        invariant remaining == NotDue(ps[..i], now)
      {
        var p := ps[i];
        FireStep(recordings0, ps, i, now, RecordingDelete);
        FireStep(streams0, ps, i, now, StreamDelete);
        assert ps[..i + 1][..i] == ps[..i];
        activeSessions := Fire(activeSessions, p, now, RecordingDelete);
        streamingSessions := Fire(streamingSessions, p, now, StreamDelete);
        if p.due > now {
          remaining := remaining + [p];
        }
        i := i + 1;
      }
      assert ps[..|ps|] == ps;
      RecordingsWellFormedAfterDelete(recordings0, DueIds(ps, now, RecordingDelete));
      StreamsWellFormedAfterDelete(streams0, DueIds(ps, now, StreamDelete));
      pendingDeletes := remaining;
    }
  }

  /** No id is registered as both a recording and a stream, so each stop handler
      answers 404 for the other kind's ids. */
  lemma SessionMapsDisjoint(recordings: OrderedMap<string, StreamSession>, streams: OrderedMap<string, StreamSession>)
    requires RecordingsWellFormed(recordings) && StreamsWellFormed(streams)
    ensures recordings.entries.Keys !! streams.entries.Keys
  {
    forall k | k in recordings.entries ensures k !in streams.entries {
      RecordingAndStreamIdsDisjoint(k);
    }
  }

  /** A recording stopped at t stays registered, inactive, until its delete falls due
      RecordingGraceMs later, and is gone once it has. */
  method GracePeriodScenario(cameraId: Option<string>, t: nat) returns (keptDuringGrace: bool, removedAfter: bool)
    ensures keptDuringGrace && removedAfter
  {
    var registry := new SessionRegistry();
    var id := RecordingId(t, cameraId);
    var started := registry.StartRecording(CameraRequest(None, cameraId, None, None), t, true);
    var stopped := registry.StopRecording(Some(id), t);
    var pending := PendingDelete(RecordingDelete, id, t + RecordingGraceMs);
    assert registry.pendingDeletes == [pending];
    assert DueIds([pending], t + RecordingGraceMs - 1, RecordingDelete) == {};
    assert DueIds([pending], t + RecordingGraceMs - 1, StreamDelete) == {};
    registry.RunDueDeletes(t + RecordingGraceMs - 1);
    keptDuringGrace := id in registry.activeSessions.entries && !registry.activeSessions.entries[id].isActive;
    assert registry.pendingDeletes == [] + [pending];
    assert DueIds([pending], t + RecordingGraceMs, RecordingDelete) == {id};
    registry.RunDueDeletes(t + RecordingGraceMs);
    removedAfter := id !in registry.activeSessions.entries;
  }
}
