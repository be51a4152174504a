/**
 * The drone page: connection and recording flags, the recorder's chunk buffer, the single
 * stored recording, and the list of sessions. Browser media calls become events whose
 * outcomes are parameters.
 */
module Drone {
  import opened Common
  import opened Text
  import opened Lists

  datatype SessionKind = Live | Recorded

  datatype DroneSession = DroneSession(
    id: string, name: string, date: string, duration: string, location: string, kind: SessionKind)

  /** A piece of recorded media; its size is its byte count. */
  datatype Chunk = Chunk(bytes: seq<bv8>)

  /** The `video/webm` blob assembled from the chunks of one recording. */
  datatype Recording = Recording(chunks: seq<Chunk>)

  /** `mediaRecorder.state` as the page inspects it. */
  datatype RecorderState = Active | Inactive

  /**
   * What the closures of the current recorder captured when recording started: the chunk
   * array they push into, and the session name and location as they were at that moment.
   */
  datatype Capture = Capture(chunks: seq<Chunk>, name: string, location: string)

  /** The clock readings taken by the stop callback: `Date.now()`, the locale date and the ISO time. */
  datatype Clock = Clock(epochMs: nat, localeDate: string, iso: string)

  /** A file handed to the browser for download. */
  datatype DownloadFile = DownloadFile(fileName: string, recording: Recording)

  const InitialSessions: seq<DroneSession> := [
    DroneSession("1", "Field Survey - North Sector", "2024-01-20", "15:30", "Field A - Sector N", Recorded),
    DroneSession("2", "Crop Health Assessment", "2024-01-18", "22:15", "Field B - Central", Recorded),
    DroneSession("3", "Irrigation Monitoring", "2024-01-15", "8:45", "Field C - East", Recorded)
  ]

  /** `n.toString()` for a natural number. */
  function DecimalString(n: nat): (s: string)
    ensures |s| > 0
    ensures forall i :: 0 <= i < |s| ==> '0' <= s[i] <= '9'
    ensures n < 10 ==> |s| == 1
    ensures n >= 10 ==> |s| == |DecimalString(n / 10)| + 1
  {
    var digit := ['0' + (n % 10) as char];
    if n < 10 then digit else DecimalString(n / 10) + digit
  }

  /** The session the stop callback prepends. */
  function NewSession(c: Capture, clock: Clock): (s: DroneSession)
    ensures s.kind == Recorded && s.duration == "Recording completed"
    ensures s.name == if c.name != "" then c.name else "Drone Recording " + clock.localeDate
    ensures s.location == if c.location != "" then c.location else "Unknown location"
    ensures s.date <= clock.iso && 'T' !in s.date
    ensures s.date == clock.iso || clock.iso[|s.date|] == 'T'
    ensures s.id == DecimalString(clock.epochMs)
  {
    DroneSession(
      DecimalString(clock.epochMs),
      if c.name != "" then c.name else "Drone Recording " + clock.localeDate,
      PrefixBefore(clock.iso, 'T'),
      "Recording completed",
      if c.location != "" then c.location else "Unknown location",
      Recorded)
  }

  predicate NoEmptyChunks(chunks: seq<Chunk>)
  {
    forall i :: 0 <= i < |chunks| ==> |chunks[i].bytes| > 0
  }

  /** `ondataavailable`: only non-empty chunks are kept. */
  function WithChunk(chunks: seq<Chunk>, chunk: Chunk): (r: seq<Chunk>)
    ensures |chunk.bytes| > 0 ==> r == chunks + [chunk]
    ensures |chunk.bytes| == 0 ==> r == chunks
  {
    if |chunk.bytes| > 0 then chunks + [chunk] else chunks
  }

  /** The component's state. */
  class DronePage {
    var isConnected: bool
    var isRecording: bool
    /** Whether the video element holds a camera stream (`srcObject`). */
    var streamAttached: bool
    var sessionName: string
    var location: string
    var mediaRecorder: Option<RecorderState>
    /** The closures of the recorder that is still running, if any. */
    var capture: Option<Capture>
    var recordedChunks: seq<Recording>
    var sessions: seq<DroneSession>

    /**
     * The page keeps at most one recording; the recording flag mirrors the stored recorder;
     * a stream is attached only while connected; an active recorder has live closures; and
     * no empty chunk is ever kept.
     */
    predicate Valid()
      reads this
    {
      && |recordedChunks| <= 1
      && (isRecording <==> mediaRecorder.Some?)
      && (streamAttached ==> isConnected)
      && (capture.Some? <==> mediaRecorder == Some(Active))
      && (capture.Some? ==> NoEmptyChunks(capture.value.chunks))
      && (forall i :: 0 <= i < |recordedChunks| ==> NoEmptyChunks(recordedChunks[i].chunks))
    }

    /**
     * The state in which a recorder's stop callback runs: `Valid()` except that the recorder
     * is no longer active while its closures are still live.
     */
    predicate Stopping()
      reads this
    {
      && (isRecording <==> mediaRecorder.Some?)
      && (streamAttached ==> isConnected)
      && capture.Some? && mediaRecorder != Some(Active)
      && NoEmptyChunks(capture.value.chunks)
    }

    constructor()
      ensures Valid()
      ensures !isConnected && !isRecording && !streamAttached && sessionName == "" && location == ""
      ensures mediaRecorder.None? && capture.None? && recordedChunks == [] && sessions == InitialSessions
    {
      isConnected, isRecording, streamAttached := false, false, false;
      sessionName, location := "", "";
      mediaRecorder, capture := None, None;
      recordedChunks, sessions := [], InitialSessions;
    }

    method SetSessionName(name: string)
      requires Valid()
      modifies this
      ensures Valid()
      ensures sessionName == name
      ensures isConnected == old(isConnected) && isRecording == old(isRecording) && streamAttached == old(streamAttached)
      ensures location == old(location) && mediaRecorder == old(mediaRecorder) && capture == old(capture)
      ensures recordedChunks == old(recordedChunks) && sessions == old(sessions)
    {
      sessionName := name;
    }

    method SetLocation(place: string)
      requires Valid()
      modifies this
      ensures Valid()
      ensures location == place
      ensures isConnected == old(isConnected) && isRecording == old(isRecording) && streamAttached == old(streamAttached)
      ensures sessionName == old(sessionName) && mediaRecorder == old(mediaRecorder) && capture == old(capture)
      ensures recordedChunks == old(recordedChunks) && sessions == old(sessions)
    {
      location := place;
    }

    /** `connectToDrone`: `granted` is whether the camera request succeeded. */
    method Connect(granted: bool)
      requires Valid()
      modifies this
      ensures Valid()
      ensures isConnected == (granted || old(isConnected)) && streamAttached == (granted || old(streamAttached))
      ensures isRecording == old(isRecording) && sessionName == old(sessionName) && location == old(location)
      ensures mediaRecorder == old(mediaRecorder) && capture == old(capture)
      ensures recordedChunks == old(recordedChunks) && sessions == old(sessions)
    {
      if granted {
        streamAttached := true;
        isConnected := true;
      }
    }

    /**
     * The recorder's stop, together with what it triggers: the last `ondataavailable` with
     * `finalChunk` and then `onstop`, which stores the single recording and prepends a session.
     */
    method FinishCapture(finalChunk: Chunk, clock: Clock)
      requires Stopping()
      modifies this
      ensures Valid()
      ensures var c := old(capture.value);
        var chunks := WithChunk(c.chunks, finalChunk);
        && recordedChunks == [Recording(chunks)]
        && sessions == [NewSession(Capture(chunks, c.name, c.location), clock)] + old(sessions)
        && capture.None?
      ensures isConnected == old(isConnected) && isRecording == old(isRecording) && streamAttached == old(streamAttached)
      ensures sessionName == old(sessionName) && location == old(location) && mediaRecorder == old(mediaRecorder)
    {
      var c := capture.value;
      var chunks := WithChunk(c.chunks, finalChunk);
      recordedChunks := [Recording(chunks)];
      sessions := [NewSession(Capture(chunks, c.name, c.location), clock)] + sessions;
      capture := None;
    }

    /**
     * `stopRecording`: acts only on a stored recorder that is not inactive; the stop then
     * delivers the final chunk and runs the stop callback.
     */
    method StopRecording(finalChunk: Chunk, clock: Clock)
      requires Valid()
      modifies this
      ensures Valid()
      ensures old(mediaRecorder) == Some(Active) ==>
        var c := old(capture.value);
        var chunks := WithChunk(c.chunks, finalChunk);
        && !isRecording && mediaRecorder.None? && capture.None?
        && recordedChunks == [Recording(chunks)]
        && sessions == [NewSession(Capture(chunks, c.name, c.location), clock)] + old(sessions)
      ensures old(mediaRecorder) != Some(Active) ==>
        isRecording == old(isRecording) && mediaRecorder == old(mediaRecorder) && capture == old(capture)
        && recordedChunks == old(recordedChunks) && sessions == old(sessions)
      ensures isConnected == old(isConnected) && streamAttached == old(streamAttached)
      ensures sessionName == old(sessionName) && location == old(location)
    {
      if mediaRecorder.Some? && mediaRecorder.value != Inactive {
        isRecording := false;
        mediaRecorder := None;
        FinishCapture(finalChunk, clock);
      }
    }

    /** `disconnectFromDrone`: drops the stream, stops a recording the flag says is running, disconnects. */
    method Disconnect(finalChunk: Chunk, clock: Clock)
      requires Valid()
      modifies this
      ensures Valid()
      ensures !isConnected && !streamAttached
      ensures old(isRecording) && old(mediaRecorder) == Some(Active) ==>
        var c := old(capture.value);
        var chunks := WithChunk(c.chunks, finalChunk);
        && !isRecording && mediaRecorder.None?
        && recordedChunks == [Recording(chunks)]
        && sessions == [NewSession(Capture(chunks, c.name, c.location), clock)] + old(sessions)
      ensures old(mediaRecorder) != Some(Active) ==>
        isRecording == old(isRecording) && mediaRecorder == old(mediaRecorder)
        && recordedChunks == old(recordedChunks) && sessions == old(sessions)
      ensures sessionName == old(sessionName) && location == old(location)
    {
      streamAttached := false;
      if isRecording {
        StopRecording(finalChunk, clock);
      }
      isConnected := false;
    }

    /**
     * `startRecording`: without a stream nothing happens; otherwise a fresh recorder starts with
     * an empty chunk array, capturing the current session name and location. `supported` is
     * whether the browser accepts the requested codec; when it does not, constructing the
     * recorder throws and nothing changes. The start button is shown only while not recording.
     */
    method StartRecording(supported: bool)
      requires Valid() && !isRecording
      modifies this
      ensures Valid()
      ensures !old(streamAttached) || !supported ==>
        isRecording == old(isRecording) && mediaRecorder == old(mediaRecorder) && capture == old(capture)
      ensures old(streamAttached) && supported ==>
        isRecording && mediaRecorder == Some(Active) && capture == Some(Capture([], sessionName, location))
      ensures isConnected == old(isConnected) && streamAttached == old(streamAttached)
      ensures sessionName == old(sessionName) && location == old(location)
      ensures recordedChunks == old(recordedChunks) && sessions == old(sessions)
    {
      if !streamAttached {
        return;
      }
      if !supported {
        return;
      }
      mediaRecorder := Some(Active);
      capture := Some(Capture([], sessionName, location));
      isRecording := true;
    }

    /** `ondataavailable` while recording. */
    method DataAvailable(chunk: Chunk)
      requires Valid()
      modifies this
      ensures Valid()
      ensures old(capture).Some? ==> capture == Some(old(capture.value).(chunks := WithChunk(old(capture.value.chunks), chunk)))
      ensures old(capture).None? ==> capture == old(capture)
      ensures isConnected == old(isConnected) && isRecording == old(isRecording) && streamAttached == old(streamAttached)
      ensures sessionName == old(sessionName) && location == old(location) && mediaRecorder == old(mediaRecorder)
      ensures recordedChunks == old(recordedChunks) && sessions == old(sessions)
    {
      if capture.Some? {
        capture := Some(capture.value.(chunks := WithChunk(capture.value.chunks, chunk)));
      }
    }

    /**
     * The recorder stops by itself (its stream ended): its final data and stop callback run,
     * its state becomes inactive, and the page's recording flag is left as it was.
     */
    method RecorderEnded(finalChunk: Chunk, clock: Clock)
      requires Valid()
      modifies this
      ensures Valid()
      ensures old(mediaRecorder) == Some(Active) ==>
        var c := old(capture.value);
        var chunks := WithChunk(c.chunks, finalChunk);
        && mediaRecorder == Some(Inactive) && capture.None?
        && recordedChunks == [Recording(chunks)]
        && sessions == [NewSession(Capture(chunks, c.name, c.location), clock)] + old(sessions)
      ensures old(mediaRecorder) != Some(Active) ==>
        mediaRecorder == old(mediaRecorder) && capture == old(capture)
        && recordedChunks == old(recordedChunks) && sessions == old(sessions)
      ensures isConnected == old(isConnected) && isRecording == old(isRecording) && streamAttached == old(streamAttached)
      ensures sessionName == old(sessionName) && location == old(location)
    {
      if mediaRecorder == Some(Active) {
        mediaRecorder := Some(Inactive);
        FinishCapture(finalChunk, clock);
      }
    }

    /** `deleteSession`: exactly the sessions with that id go, the rest keep their order. */
    method DeleteSession(id: string)
      requires Valid()
      modifies this
      ensures Valid()
      ensures sessions == WithoutId(old(sessions), (s: DroneSession) => s.id, id)
      ensures isConnected == old(isConnected) && isRecording == old(isRecording) && streamAttached == old(streamAttached)
      ensures sessionName == old(sessionName) && location == old(location)
      ensures mediaRecorder == old(mediaRecorder) && capture == old(capture) && recordedChunks == old(recordedChunks)
    {
      sessions := WithoutId(sessions, (s: DroneSession) => s.id, id);
    }

    /** `downloadRecording`: nothing without a stored recording, else that one, whatever the session. */
    function Download(sessionId: string): (r: Option<DownloadFile>)
      reads this
      requires Valid()
      ensures r.None? <==> recordedChunks == []
      ensures r.Some? ==> recordedChunks == [r.value.recording]
      ensures r.Some? ==> r.value.fileName == "drone-recording-" + sessionId + ".webm"
    {
      if |recordedChunks| > 0 then Some(DownloadFile("drone-recording-" + sessionId + ".webm", recordedChunks[0])) else None
    }
  }

  /** Adding a chunk keeps the buffer's earlier chunks, adds at most one, and never admits an empty one. */
  lemma WithChunkKeepsBuffer(chunks: seq<Chunk>, chunk: Chunk)
    ensures chunks <= WithChunk(chunks, chunk)
    ensures |WithChunk(chunks, chunk)| <= |chunks| + 1
    ensures NoEmptyChunks(chunks) ==> NoEmptyChunks(WithChunk(chunks, chunk))
  {
  }

  /** A session id reads back as the clock reading it was made from. */
  lemma {:induction false} DecimalStringValue(n: nat)
    ensures DigitsValue(DecimalString(n)) == n
  {
    if n >= 10 {
      var s := DecimalString(n / 10);
      DecimalStringValue(n / 10);
      assert DecimalString(n)[..|DecimalString(n)| - 1] == s;
    }
  }

  /** The number a string of decimal digits denotes. */
  function DigitsValue(s: string): nat
    requires forall i :: 0 <= i < |s| ==> '0' <= s[i] <= '9'
  {
    if s == [] then 0 else 10 * DigitsValue(s[..|s| - 1]) + (s[|s| - 1] - '0') as nat
  }

  /** Deleting twice by the same id is the same as deleting once. */
  lemma DeleteSessionIdempotent(sessions: seq<DroneSession>, id: string)
    ensures var once := WithoutId(sessions, (s: DroneSession) => s.id, id);
      WithoutId(once, (s: DroneSession) => s.id, id) == once
  {
    var once := WithoutId(sessions, (s: DroneSession) => s.id, id);
    WithoutIdAbsent(once, (s: DroneSession) => s.id, id);
  }
}
