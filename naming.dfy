/** The identifiers and file names the camera routes build from a timestamp and the
    request's optional camera id. */
module Naming {
  import opened Wrappers
  import opened Defaults
  import opened Decimal

  const RecordingPrefix := "rec_"
  const StreamPrefix := "stream_"
  /** The camera tag used in ids and file names when the request names no camera. */
  const DefaultCameraTag := "cam1"

  function SessionId(prefix: string, now: nat, cameraId: Option<string>): string {
    prefix + NatToString(now) + "_" + OrDefault(cameraId, DefaultCameraTag)
  }

  /** `rec_${Date.now()}_${cameraId || "cam1"}` */
  function RecordingId(now: nat, cameraId: Option<string>): (id: string)
    ensures IsRecordingId(id)
  {
    var id := SessionId(RecordingPrefix, now, cameraId);
    assert id[..4] == RecordingPrefix;
    id
  }

  /** `stream_${Date.now()}_${cameraId || "cam1"}` */
  function StreamId(now: nat, cameraId: Option<string>): (id: string)
    ensures IsStreamId(id)
  {
    var id := SessionId(StreamPrefix, now, cameraId);
    assert id[..7] == StreamPrefix;
    id
  }

  predicate IsRecordingId(id: string) {
    |id| >= 4 && id[..4] == RecordingPrefix
  }

  predicate IsStreamId(id: string) {
    |id| >= 7 && id[..7] == StreamPrefix
  }

  /** No string is both a recording id and a stream id. */
  lemma RecordingAndStreamIdsDisjoint(id: string)
    ensures !(IsRecordingId(id) && IsStreamId(id))
  {
    if IsRecordingId(id) {
      assert id[0] == id[..4][0] == 'r';
    }
  }

  /** Two session ids of one kind coincide exactly when they were made at the same
      millisecond for the same camera tag. */
  lemma SessionIdInjective(prefix: string, t1: nat, c1: Option<string>, t2: nat, c2: Option<string>)
    ensures SessionId(prefix, t1, c1) == SessionId(prefix, t2, c2)
        <==> t1 == t2 && OrDefault(c1, DefaultCameraTag) == OrDefault(c2, DefaultCameraTag)
  {
    var d1, d2 := NatToString(t1), NatToString(t2);
    var x1, x2 := OrDefault(c1, DefaultCameraTag), OrDefault(c2, DefaultCameraTag);
    if SessionId(prefix, t1, c1) == SessionId(prefix, t2, c2) {
      var s := SessionId(prefix, t1, c1);
      assert s == prefix + (d1 + "_" + x1) == prefix + (d2 + "_" + x2);
      assert d1 + "_" + x1 == s[|prefix|..] == d2 + "_" + x2;
      SplitAfterDigits(d1, x1, d2, x2, '_');
      NatToStringInjective(t1, t2);
    }
  }

  lemma RecordingIdInjective(t1: nat, c1: Option<string>, t2: nat, c2: Option<string>)
    ensures RecordingId(t1, c1) == RecordingId(t2, c2)
        <==> t1 == t2 && OrDefault(c1, DefaultCameraTag) == OrDefault(c2, DefaultCameraTag)
  {
    SessionIdInjective(RecordingPrefix, t1, c1, t2, c2);
  }

  lemma StreamIdInjective(t1: nat, c1: Option<string>, t2: nat, c2: Option<string>)
    ensures StreamId(t1, c1) == StreamId(t2, c2)
        <==> t1 == t2 && OrDefault(c1, DefaultCameraTag) == OrDefault(c2, DefaultCameraTag)
  {
    SessionIdInjective(StreamPrefix, t1, c1, t2, c2);
  }

  /** `${sessionId}_chunk_${Date.now()}.webm` */
  function ChunkFileName(sessionId: string, now: nat): (name: string)
    ensures |name| >= |sessionId| + 13
    ensures name[..|sessionId|] == sessionId && name[|name| - 5..] == ".webm"
  {
    sessionId + "_chunk_" + NatToString(now) + ".webm"
  }

  /** Chunks of one session uploaded at different milliseconds get different names. */
  lemma ChunkFileNameInjective(sessionId: string, t1: nat, t2: nat)
    ensures ChunkFileName(sessionId, t1) == ChunkFileName(sessionId, t2) <==> t1 == t2
  {
    var p := sessionId + "_chunk_";
    var d1, d2 := NatToString(t1), NatToString(t2);
    if ChunkFileName(sessionId, t1) == ChunkFileName(sessionId, t2) {
      var s := ChunkFileName(sessionId, t1);
      assert s == p + d1 + ".webm" == p + d2 + ".webm";
      assert |d1| == |d2|;
      assert d1 == s[|p|..|p| + |d1|] == d2;
      NatToStringInjective(t1, t2);
    }
  }

  /** `screenshot_${cameraId || "cam1"}_${Date.now()}.jpg` */
  function ScreenshotFileName(cameraId: Option<string>, now: nat): (name: string)
    ensures |name| >= 17 && name[..11] == "screenshot_" && name[|name| - 4..] == ".jpg"
  {
    "screenshot_" + OrDefault(cameraId, DefaultCameraTag) + "_" + NatToString(now) + ".jpg"
  }

  /** Screenshot names determine the camera tag and the millisecond they were taken at. */
  lemma ScreenshotFileNameInjective(c1: Option<string>, t1: nat, c2: Option<string>, t2: nat)
    ensures ScreenshotFileName(c1, t1) == ScreenshotFileName(c2, t2)
        <==> t1 == t2 && OrDefault(c1, DefaultCameraTag) == OrDefault(c2, DefaultCameraTag)
  {
    var d1, d2 := NatToString(t1), NatToString(t2);
    var x1, x2 := OrDefault(c1, DefaultCameraTag), OrDefault(c2, DefaultCameraTag);
    if ScreenshotFileName(c1, t1) == ScreenshotFileName(c2, t2) {
      var s := ScreenshotFileName(c1, t1);
      assert s == "screenshot_" + (x1 + "_" + d1) + ".jpg" == "screenshot_" + (x2 + "_" + d2) + ".jpg";
      assert x1 + "_" + d1 == s[11..|s| - 4] == x2 + "_" + d2;
      SplitBeforeDigits(x1, d1, x2, d2, '_');
      NatToStringInjective(t1, t2);
    }
  }

  /** `recording_${sessionId}.webm`, the artifact name announced when a recording starts. */
  function RecordingFileName(sessionId: string): (name: string)
    ensures |name| == |sessionId| + 15
    ensures name[..10] == "recording_" && name[|name| - 5..] == ".webm"
    ensures name[10..|name| - 5] == sessionId
  {
    "recording_" + sessionId + ".webm"
  }

  const StreamUrlBase := "ws://localhost:8080/api/camera/stream/"

  /** The push-channel address announced when a stream starts: the stream id follows
      the fixed base, so the address names its stream. */
  function StreamUrl(streamId: string): (url: string)
    ensures |url| == |StreamUrlBase| + |streamId|
    ensures url[..|StreamUrlBase|] == StreamUrlBase && url[|StreamUrlBase|..] == streamId
  {
    StreamUrlBase + streamId
  }
}
