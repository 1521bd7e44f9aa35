/**
 * The microphone recorder hook (`useVoice`): `start` asks for the device and
 * starts a fresh media recorder, data chunks collect in one shared list,
 * `stop` stops the current recorder, and when a recorder reports that it has
 * stopped the collected chunks go to speech-to-text as one `audio/webm`
 * upload and the recorder's tracks are released.
 *
 * The browser is an environment of events: the device grant (or refusal)
 * that completes a `start`, a recorder's `dataavailable` and its `stop`
 * event. Recorders are numbered in creation order.
 */
module Recorder {
  import opened Wrappers
  import opened Json

  type Chunk = seq<bv8>

  /** A media recorder's life: started, asked to stop (events still to come), stop event delivered. */
  datatype RecState = Recording | Stopping | Stopped

  /** The form `sttRequest` posts: the blob under a field name, with a file name. */
  datatype SttForm = SttForm(url: string, field: string, filename: string, mime: string, parts: seq<Chunk>)

  /** `sttRequest(blob)`: always the `audio` field and the file name `speech.webm`. */
  function SttRequest(parts: seq<Chunk>, mime: string): (f: SttForm)
    ensures f.field == "audio" && f.filename == "speech.webm" && f.url == "/api/voice/stt/"
    ensures f.parts == parts && f.mime == mime
  {
    SttForm("/api/voice/stt/", "audio", "speech.webm", mime, parts)
  }

  /** How a transcription request fails: a non-ok response (with its body), or a body that does not parse or parses to `null`. */
  datatype SttError = SttHttp(body: string) | SttBadBody

  /**
   * The result of `sttRequest` given the response: a non-ok status throws
   * with the body text; otherwise the body is parsed and its `text` member
   * returned (`None` when the member is absent, JavaScript's `undefined`).
   * A body that does not parse, or parses to `null`, throws.
   */
  function SttResult(ok: bool, body: string, parse: string -> Option<Json>): (r: Result<Option<Json>, SttError>)
    ensures !ok ==> r == Err(SttHttp(body))
    ensures ok && r.Ok? ==> parse(body).Some? && !parse(body).value.JNull? && r.value == JsGet(parse(body).value, "text")
    ensures ok && r.Err? ==> r.error == SttBadBody
  {
    if !ok then Err(SttHttp(body))
    else match parse(body)
      case None => Err(SttBadBody)
      case Some(v) => if v.JNull? then Err(SttBadBody) else Ok(JsGet(v, "text"))
  }

  /**
   * `stt.data ?? ""`: the text of the latest transcription, or the empty
   * string before one exists or when its `text` is missing (`undefined`) or
   * `null`.
   */
  function Transcript(data: Option<Option<Json>>): (t: string)
    ensures data.None? ==> t == ""
    ensures data.Some? && data.value.Some? && data.value.value.JStr? ==> t == data.value.value.s
    ensures data.Some? && (data.value.None? || data.value.value.JNull?) ==> t == ""
  {
    match data
    case Some(Some(JStr(s))) => s
    case _ => ""
  }

  /** Number of recorders whose stop event has been delivered. */
  function CountStopped(recs: seq<RecState>): (n: nat)
    ensures n <= |recs|
  {
    if recs == [] then 0 else CountStopped(recs[..|recs| - 1]) + (if recs[|recs| - 1] == Stopped then 1 else 0)
  }

  /** Changing one recorder to `Stopped` from another state adds exactly one to the count. */
  lemma {:induction false} CountStoppedSet(recs: seq<RecState>, i: nat, s: RecState)
    requires i < |recs|
    ensures CountStopped(recs[i := s]) ==
      CountStopped(recs) - (if recs[i] == Stopped then 1 else 0) + (if s == Stopped then 1 else 0)
    decreases |recs|
  {
    var last := |recs| - 1;
    if i < last {
      CountStoppedSet(recs[..last], i, s);
      assert recs[i := s][..last] == recs[..last][i := s];
    } else {
      assert recs[i := s][..last] == recs[..last];
    }
  }

  lemma CountStoppedAppend(recs: seq<RecState>, s: RecState)
    ensures CountStopped(recs + [s]) == CountStopped(recs) + (if s == Stopped then 1 else 0)
  {
    assert (recs + [s])[..|recs|] == recs;
  }

  class VoiceRecorder {
    /** The `isRecording` state. */
    var isRecording: bool
    /** The `mediaRecorder` ref: the recorder `start` created last. */
    var current: Option<nat>
    /** `chunks.current`: every recorder's `ondataavailable` pushes here. */
    var chunks: seq<Chunk>
    /** Every recorder created so far, by number. */
    var recorders: seq<RecState>
    /** The recorders whose media tracks have been stopped. */
    var released: set<nat>
    /** Every form handed to the transcription mutation, in order. */
    var uploads: seq<SttForm>
    /** `start` calls waiting for the device. */
    var waiting: nat
    var mounted: bool

    ghost predicate Valid()
      reads this
    {
      && (current.Some? ==> current.value < |recorders|)
      && (isRecording && mounted ==> current.Some? && recorders[current.value] == Recording)
      && |uploads| == CountStopped(recorders)
      && (forall i :: i in released <==> 0 <= i < |recorders| && recorders[i] == Stopped)
      && (forall k :: 0 <= k < |uploads| ==> uploads[k].mime == "audio/webm" && uploads[k].filename == "speech.webm")
    }

    constructor ()
      ensures Valid() && mounted && !isRecording && current == None
      ensures recorders == [] && uploads == [] && chunks == [] && waiting == 0
    {
      isRecording, current, chunks := false, None, [];
      recorders, released, uploads := [], {}, [];
      waiting, mounted := 0, true;
    }

    /**
     * The synchronous part of `start`: nothing happens while recording;
     * otherwise the chunk list is emptied and the device is requested.
     * The guard is read here, before the device is granted, while the flag
     * is set only once the recorder runs.
     */
    method Start() returns (requested: bool)
      requires Valid() && mounted
      modifies this`chunks, this`waiting
      ensures Valid()
      ensures requested <==> !old(isRecording)
      ensures requested ==> chunks == [] && waiting == old(waiting) + 1
      ensures !requested ==> chunks == old(chunks) && waiting == old(waiting)
    {
      if isRecording {
        return false;
      }
      chunks := [];
      waiting := waiting + 1;
      return true;
    }

    /** The device was granted: a new recorder starts and becomes the current one. */
    method DeviceGranted() returns (id: nat)
      requires Valid() && waiting > 0
      modifies this`recorders, this`current, this`isRecording, this`waiting
      ensures Valid()
      ensures id == |old(recorders)| && recorders == old(recorders) + [Recording]
      ensures current == Some(id) && isRecording && waiting == old(waiting) - 1
    {
      id := |recorders|;
      CountStoppedAppend(recorders, Recording);
      recorders := recorders + [Recording];
      current := Some(id);
      isRecording := true;
      waiting := waiting - 1;
    }

    /** The device was refused: the `start` call rejects and nothing else changes. */
    method DeviceDenied()
      requires Valid() && waiting > 0
      modifies this`waiting
      ensures Valid() && waiting == old(waiting) - 1
    {
      waiting := waiting - 1;
    }

    /** A recorder's `dataavailable`: the data joins the shared list, in arrival order. */
    method DataAvailable(id: nat, data: Chunk)
      requires Valid() && id < |recorders| && recorders[id] != Stopped
      modifies this`chunks
      ensures Valid() && chunks == old(chunks) + [data]
    {
      chunks := chunks + [data];
    }

    /**
     * `stop`: nothing happens unless recording with a current recorder;
     * otherwise that recorder is asked to stop and the flag is cleared.
     */
    method Stop()
      requires Valid() && mounted
      modifies this`recorders, this`isRecording
      ensures Valid()
      ensures old(isRecording) && old(current).Some? ==>
        && recorders == old(recorders)[old(current).value := Stopping]
        && !isRecording
      ensures !(old(isRecording) && old(current).Some?) ==>
        recorders == old(recorders) && isRecording == old(isRecording)
    {
      if !isRecording || current.None? {
        return;
      }
      CountStoppedSet(recorders, current.value, Stopping);
      recorders := recorders[current.value := Stopping];
      isRecording := false;
    }

    /**
     * A recorder's `stop` event: every chunk collected so far goes to
     * transcription as one `audio/webm` blob, once, and the recorder's
     * tracks are released.
     */
    method OnStop(id: nat)
      requires Valid() && id < |recorders| && recorders[id] == Stopping
      modifies this`recorders, this`uploads, this`released
      ensures Valid()
      ensures recorders == old(recorders)[id := Stopped]
      ensures uploads == old(uploads) + [SttRequest(chunks, "audio/webm")]
      ensures released == old(released) + {id}
    {
      CountStoppedSet(recorders, id, Stopped);
      recorders := recorders[id := Stopped];
      uploads := uploads + [SttRequest(chunks, "audio/webm")];
      released := released + {id};
    }

    /** The unmount cleanup: the current recorder is stopped only while it is recording. */
    method Unmount()
      requires Valid() && mounted
      modifies this`recorders, this`mounted
      ensures Valid() && !mounted
      ensures current.Some? && old(recorders)[current.value] == Recording ==>
        recorders == old(recorders)[current.value := Stopping]
      ensures !(current.Some? && old(recorders)[current.value] == Recording) ==> recorders == old(recorders)
    {
      if current.Some? && recorders[current.value] == Recording {
        CountStoppedSet(recorders, current.value, Stopping);
        recorders := recorders[current.value := Stopping];
      }
      mounted := false;
    }
  }

  /**
   * From any idle recorder: two `start` calls before the device answers both
   * pass the guard, so two recorders run; `stop` then stops only the second, and the first keeps
   * recording with nothing left that can stop it.
   */
  method DoubleStart(r: VoiceRecorder) returns (first: RecState, second: RecState, recording: bool)
    requires r.Valid() && r.mounted && !r.isRecording
    modifies r
    ensures first == Recording && second == Stopping && !recording
  {
    var a := r.Start();
    var b := r.Start();
    var id0 := r.DeviceGranted();
    var id1 := r.DeviceGranted();
    r.Stop();
    first, second, recording := r.recorders[id0], r.recorders[id1], r.isRecording;
  }

  /** Chunks delivered one after another to a live recorder are buffered in order. */
  method Deliver(r: VoiceRecorder, id: nat, data: seq<Chunk>)
    requires r.Valid() && id < |r.recorders| && r.recorders[id] != Stopped
    modifies r`chunks
    ensures r.Valid() && r.chunks == old(r.chunks) + data
  {
    for i := 0 to |data|
      invariant r.Valid() && r.chunks == old(r.chunks) + data[..i]
    {
      r.DataAvailable(id, data[i]);
      assert data[..i + 1] == data[..i] + [data[i]];
    }
    assert data[..|data|] == data;
  }

  /**
   * One recording from start to stop event: the single upload carries
   * exactly the chunks delivered, in order.
   */
  method RecordOnce(data: seq<Chunk>) returns (forms: seq<SttForm>)
    ensures forms == [SttRequest(data, "audio/webm")]
  {
    var r := new VoiceRecorder();
    var _ := r.Start();
    var id := r.DeviceGranted();
    assert id == 0 && r.recorders == [Recording];
    Deliver(r, id, data);
    assert r.chunks == data && r.isRecording && r.current == Some(0);
    r.Stop();
    assert r.recorders == [Stopping];
    r.OnStop(id);
    forms := r.uploads;
  }
}
