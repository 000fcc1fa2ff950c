/** `useLiveStream`: the broadcaster's side of a live stream. The hook keeps a
    `StreamState` record, replaced as a whole by `setState`, and four refs
    changed in place: the local camera stream, a map of peer connections,
    the media recorder and the list of recorded chunks. Database writes are
    kept in the `writes` log; what the database and the browser answer are
    parameters. The file also holds the fallback stream-key generator. */
module LiveStreamHook {
  import opened Js
  import opened Ui
  import opened Text
  import opened Media
  import opened Schema

  // -------------------------------------------------------------------
  // generateId fallback
  // -------------------------------------------------------------------

  /** The template of the fallback generator. */
  const UuidTemplate := "xxxxxxxx" + "-xxxx" + "-4xxx" + "-yxxx" + "-xxxxxxxxxxxx"

  predicate IsPlaceholder(c: char) { c == 'x' || c == 'y' }

  /** How many random values filling `t` takes: one per placeholder. */
  function Placeholders(t: string): (n: nat)
    ensures n <= |t|
  {
    if t == [] then 0 else (if IsPlaceholder(t[0]) then 1 else 0) + Placeholders(t[1..])
  }

  /** The random values the generator draws: bytes from `getRandomValues`. */
  ghost predicate AreBytes(rs: seq<nat>) {
    forall i :: 0 <= i < |rs| ==> rs[i] < 256
  }

  /** `v.toString(16)` of the value that replaces placeholder `c` drawn as
      `r`: `r` itself for `x`, `(r & 0x3) | 0x8` for `y`. With `masked`, an
      `x` takes only the low four bits of `r`, as a hex digit must. */
  function Replacement(c: char, r: nat, masked: bool): (s: string)
    requires r < 256
  {
    if c == 'x' then ByteToHex(if masked then r % 16 else r)
    else ByteToHex(r % 4 + 8)
  }

  /** The template with each placeholder replaced, left to right, using one
      drawn value per placeholder. */
  function Fill(t: string, rs: seq<nat>, masked: bool): (s: string)
    requires |rs| == Placeholders(t) && AreBytes(rs)
    decreases |t|
  {
    if t == [] then []
    else if IsPlaceholder(t[0]) then Replacement(t[0], rs[0], masked) + Fill(t[1..], rs[1..], masked)
    else [t[0]] + Fill(t[1..], rs, masked)
  }

  /** The fallback of `generateId` as written: each `x` becomes the full
      byte in hex, one or two digits. */
  function GenerateIdAsWritten(rs: seq<nat>): string
    requires |rs| == Placeholders(UuidTemplate) && AreBytes(rs)
  {
    Fill(UuidTemplate, rs, false)
  }

  /** The fallback as evidently intended: each `x` is one hex digit. */
  function GenerateId(rs: seq<nat>): string
    requires |rs| == Placeholders(UuidTemplate) && AreBytes(rs)
  {
    Fill(UuidTemplate, rs, true)
  }

  lemma {:induction false} PlaceholdersAppend(a: string, b: string)
    ensures Placeholders(a + b) == Placeholders(a) + Placeholders(b)
  {
    if a == [] {
      assert a + b == b;
    } else {
      assert (a + b)[1..] == a[1..] + b;
      PlaceholdersAppend(a[1..], b);
    }
  }

  lemma TemplatePlaceholders()
    ensures Placeholders(UuidTemplate) == 31
  {
    var p1, p2, p3, p4, p5 := "xxxxxxxx", "-xxxx", "-4xxx", "-yxxx", "-xxxxxxxxxxxx";
    assert Placeholders(p1) == 8;
    assert Placeholders(p2) == 4;
    assert Placeholders(p3) == 3;
    assert Placeholders(p4) == 4;
    assert Placeholders(p5) == 12;
    PlaceholdersAppend(p1, p2);
    PlaceholdersAppend(p1 + p2, p3);
    PlaceholdersAppend(p1 + p2 + p3, p4);
    PlaceholdersAppend(p1 + p2 + p3 + p4, p5);
  }

  /** A `y` always becomes one of `8`, `9`, `a`, `b`. */
  lemma YIsVariantDigit(r: nat, masked: bool)
    requires r < 256
    ensures Replacement('y', r, masked) in ["8", "9", "a", "b"]
  {
  }

  /** How many characters `Fill` writes beyond the template's own length:
      one per `x` drawn as 16 or more, when not masked. */
  function ExtraDigits(t: string, rs: seq<nat>): nat
    requires |rs| == Placeholders(t)
    decreases |t|
  {
    if t == [] then 0
    else if IsPlaceholder(t[0]) then (if t[0] == 'x' && rs[0] >= 16 then 1 else 0) + ExtraDigits(t[1..], rs[1..])
    else ExtraDigits(t[1..], rs)
  }

  lemma {:induction false} FillLength(t: string, rs: seq<nat>, masked: bool)
    requires |rs| == Placeholders(t) && AreBytes(rs)
    ensures |Fill(t, rs, masked)| == |t| + (if masked then 0 else ExtraDigits(t, rs))
    decreases |t|
  {
    if t != [] {
      if IsPlaceholder(t[0]) {
        FillLength(t[1..], rs[1..], masked);
      } else {
        FillLength(t[1..], rs, masked);
      }
    }
  }

  /** With the values masked, every template character keeps its place:
      the dashes and the `4` stay, an `x` becomes a hex digit and a `y`
      one of `8`, `9`, `a`, `b`. */
  lemma {:induction false} FillMaskedShape(t: string, rs: seq<nat>)
    requires |rs| == Placeholders(t) && AreBytes(rs)
    ensures |Fill(t, rs, true)| == |t|
    ensures forall i :: 0 <= i < |t| ==>
      var c := Fill(t, rs, true)[i];
      (t[i] == 'x' ==> IsHexDigit(c)) && (t[i] == 'y' ==> c in "89ab") && (!IsPlaceholder(t[i]) ==> c == t[i])
    decreases |t|
  {
    if t != [] {
      var rest := if IsPlaceholder(t[0]) then rs[1..] else rs;
      FillMaskedShape(t[1..], rest);
      var s := Fill(t, rs, true);
      assert s == (if IsPlaceholder(t[0]) then Replacement(t[0], rs[0], true) else [t[0]]) + Fill(t[1..], rest, true);
      forall i | 1 <= i < |t|
        ensures s[i] == Fill(t[1..], rest, true)[i - 1]
      {
      }
    }
  }

  /** The intended generator yields a version-4 UUID: 36 characters, dashes
      at 8, 13, 18 and 23, a `4` at 14, the variant digit at 19, and
      lower-case hex digits elsewhere. */
  lemma GenerateIdIsUuid(rs: seq<nat>)
    requires |rs| == Placeholders(UuidTemplate) && AreBytes(rs)
    ensures |GenerateId(rs)| == 36
    ensures GenerateId(rs)[8] == '-' && GenerateId(rs)[13] == '-' && GenerateId(rs)[18] == '-' && GenerateId(rs)[23] == '-'
    ensures GenerateId(rs)[14] == '4' && GenerateId(rs)[19] in "89ab"
    ensures forall i :: 0 <= i < 36 && UuidTemplate[i] == 'x' ==> IsHexDigit(GenerateId(rs)[i])
  {
    FillMaskedShape(UuidTemplate, rs);
  }

  /** When every drawn value is below 16, the code as written agrees with
      the intended generator. */
  lemma {:induction false} SmallValuesAgree(t: string, rs: seq<nat>)
    requires |rs| == Placeholders(t) && AreBytes(rs)
    requires forall i :: 0 <= i < |rs| ==> rs[i] < 16
    ensures Fill(t, rs, false) == Fill(t, rs, true)
    decreases |t|
  {
    if t != [] {
      if IsPlaceholder(t[0]) {
        SmallValuesAgree(t[1..], rs[1..]);
      } else {
        SmallValuesAgree(t[1..], rs);
      }
    }
  }

  /** As written, the key is longer than 36 characters as soon as an `x`
      draws 16 or more; a first byte of 255 followed by zeros already gives
      37 characters. */
  lemma AsWrittenLength(rs: seq<nat>)
    requires |rs| == Placeholders(UuidTemplate) && AreBytes(rs)
    ensures |GenerateIdAsWritten(rs)| == 36 + ExtraDigits(UuidTemplate, rs)
    ensures rs[0] >= 16 ==> |GenerateIdAsWritten(rs)| > 36
  {
    FillLength(UuidTemplate, rs, false);
    TemplatePlaceholders();
  }

  /** The input that shows it: the masked generator gives 36 characters
      where the one as written gives 37. */
  lemma AsWrittenTooLong()
    ensures var rs := [255] + seq(30, _ => 0);
      |rs| == Placeholders(UuidTemplate) && AreBytes(rs)
      && |GenerateIdAsWritten(rs)| == 37 && |GenerateId(rs)| == 36
  {
    var rs := [255] + seq(30, _ => 0);
    TemplatePlaceholders();
    AsWrittenLength(rs);
    GenerateIdIsUuid(rs);
    ExtraDigitsTail(UuidTemplate[1..], rs[1..]);
  }

  /** With every drawn value below 16 nothing is added. */
  lemma {:induction false} ExtraDigitsTail(t: string, rs: seq<nat>)
    requires |rs| == Placeholders(t)
    requires forall i :: 0 <= i < |rs| ==> rs[i] < 16
    ensures ExtraDigits(t, rs) == 0
    decreases |t|
  {
    if t != [] {
      if IsPlaceholder(t[0]) {
        ExtraDigitsTail(t[1..], rs[1..]);
      } else {
        ExtraDigitsTail(t[1..], rs);
      }
    }
  }

  // -------------------------------------------------------------------
  // useLiveStream
  // -------------------------------------------------------------------

  /** The hook's `StreamState`. */
  datatype StreamState = StreamState(
    isStreaming: bool,
    isRecording: bool,
    streamId: Option<string>,
    streamKey: Option<string>,
    viewerCount: int,
    externalStreamUrl: Option<string>)

  const InitialStreamState := StreamState(false, false, None, None, 0, None)

  /** A piece of recorded media handed to `ondataavailable`. */
  datatype Chunk = Chunk(size: nat)

  /** The writes to `live_streams`: a live row started at `startedAt`, and
      the end of a row at `endedAt` with its recording's fate. */
  datatype StreamWrite =
    | InsertLive(title: string, description: Option<string>, startedAt: int, streamKey: string, externalUrl: Option<string>)
    | EndLive(id: string, endedAt: int, recordingStatus: RecordingStatus)

  /** What `startStream` resolves with. */
  datatype Started = Started(stream: Option<MediaStream>, streamId: string)

  /** Where a broadcast comes from, as the screens that start one offer it. */
  datatype StreamSource = Camera | External

  /** `streamSource === "external" ? externalUrl : undefined`: the third
      argument the screens pass to `startStream`. */
  function ExternalUrlArgument(source: StreamSource, externalUrl: string): (r: Option<string>)
    ensures r.Some? <==> source == External
    ensures r.Some? ==> r.value == externalUrl
  {
    if source == External then Some(externalUrl) else None
  }

  /** One call of `startStream` by a screen. */
  datatype StartCall = StartCall(title: string, description: string, externalUrl: Option<string>)

  /** `error.message || fallback`. */
  function MessageOr(e: JsError, fallback: string): (r: string)
    ensures e.message == "" ==> r == fallback
    ensures e.message != "" ==> r == e.message
  {
    if e.message != "" then e.message else fallback
  }

  const StartFailedMessage := "Failed to start stream. Check camera/microphone permissions."

  /** Every field of the hook and its refs. */
  datatype LiveState = LiveState(
    state: StreamState,
    localStream: Option<MediaStream>,
    peers: map<string, PeerConnection>,
    recorder: Option<MediaRecorder>,
    chunks: seq<Chunk>,
    writes: seq<StreamWrite>)

  class LiveStream {
    var state: StreamState
    /** `localStreamRef.current`. */
    var localStream: Option<MediaStream>
    /** `peerConnectionsRef.current`. */
    var peers: map<string, PeerConnection>
    /** `mediaRecorderRef.current`. */
    var recorder: Option<MediaRecorder>
    /** `recordedChunksRef.current`. */
    var chunks: seq<Chunk>
    var writes: seq<StreamWrite>

    function Snapshot(): LiveState
      reads this
    {
      LiveState(state, localStream, peers, recorder, chunks, writes)
    }

    function LocalTracks(): set<object>
      reads this
    {
      if localStream.Some? then {localStream.value.tracks} else {}
    }

    function RecorderObjects(): set<object>
      reads this
    {
      if recorder.Some? then {recorder.value} else {}
    }

    /** What holds in every state the hook reaches: no viewer is ever
        counted, no peer connection is ever stored, and only non-empty
        chunks are kept. */
    ghost predicate Valid()
      reads this
    {
      state.viewerCount == 0 && peers == map[] && forall c :: c in chunks ==> c.size > 0
    }

    /** The state `stopStream` leaves. */
    ghost predicate Stopped()
      reads this
    {
      state == InitialStreamState && localStream.None? && peers == map[]
    }

    constructor ()
      ensures Snapshot() == LiveState(InitialStreamState, None, map[], None, [], [])
      ensures Valid() && Stopped()
    {
      state := InitialStreamState;
      localStream, peers, recorder, chunks, writes := None, map[], None, [], [];
    }

    /** `startStream(title, description, externalUrl)` at time `now`. `key`
        is the generated stream key; `media` is what `getUserMedia` answers and
        `insert` the id of the inserted row or the insert's error. The
        camera is asked for only without an external URL; a failure is
        reported and rethrown and leaves the state record as it was. */
    method StartStream(title: string, description: Option<string>, externalUrl: Option<string>, now: int, key: string,
                       media: Attempt<MediaStream>, insert: Attempt<string>)
      returns (r: Attempt<Started>, toast: Toast)
      requires Valid()
      modifies this
      ensures Valid()
      ensures state == old(state) || (insert.Ok? && r.Ok?)
      // camera refused: the error is reported and rethrown, nothing changes
      ensures !Truthy(externalUrl) && media.Fail? ==>
        r == Fail(media.error) && toast == Toast("Error", MessageOr(media.error, StartFailedMessage), true)
        && Snapshot() == old(Snapshot())
      ensures Truthy(externalUrl) || media.Ok? ==>
        var stream := if Truthy(externalUrl) then None else Some(media.value);
        var url := if Truthy(externalUrl) then externalUrl else None;
        localStream == (if Truthy(externalUrl) then old(localStream) else stream)
        && writes == old(writes) + [InsertLive(title, description, now, key, url)]
        && (insert.Fail? ==>
              r == Fail(insert.error) && toast == Toast("Error", MessageOr(insert.error, StartFailedMessage), true)
              && Snapshot() == old(Snapshot()).(localStream := localStream, writes := writes))
        && (insert.Ok? ==>
              r == Ok(Started(stream, insert.value))
              && state == old(state).(isStreaming := true, streamId := Some(insert.value),
                                      streamKey := Some(key), externalStreamUrl := url)
              && toast == Toast("Stream Started",
                                if Truthy(externalUrl) then "External stream is now live!" else "You are now live!", false)
              && Snapshot() == old(Snapshot()).(state := state, localStream := localStream, writes := writes))
    {
      var stream: Option<MediaStream> := None;
      if !Truthy(externalUrl) {
        if media.Fail? {
          return Fail(media.error), Toast("Error", MessageOr(media.error, StartFailedMessage), true);
        }
        stream := Some(media.value);
        localStream := stream;
      }
      var url := if Truthy(externalUrl) then externalUrl else None;
      writes := writes + [InsertLive(title, description, now, key, url)];
      if insert.Fail? {
        return Fail(insert.error), Toast("Error", MessageOr(insert.error, StartFailedMessage), true);
      }
      state := state.(isStreaming := true, streamId := Some(insert.value), streamKey := Some(key),
                      externalStreamUrl := url);
      r := Ok(Started(stream, insert.value));
      toast := Toast("Stream Started",
                     if Truthy(externalUrl) then "External stream is now live!" else "You are now live!", false);
    }

    /** `stopStream(saveRecording)`: the camera tracks are stopped and the
        ref cleared, every connection closed and the map emptied, a running
        recorder stopped, the row marked ended with the recording saved or
        discarded and the end time `now` when there is a stream id, and the
        record reset. */
    method StopStream(saveRecording: bool, now: int) returns (toast: Toast)
      requires Valid()
      modifies this, LocalTracks(), peers.Values, RecorderObjects()
      ensures Valid() && Stopped()
      ensures recorder == old(recorder) && chunks == old(chunks)
      ensures old(localStream).Some? ==>
        old(localStream).value.tracks[..] == AllStopped(old(localStream.value.tracks[..]))
      ensures old(recorder).Some? ==> old(recorder).value.recording == (old(recorder.value.recording) && !old(state.isRecording))
      ensures writes == old(writes) + (if old(state.streamId).Some?
                                       then [EndLive(old(state.streamId).value, now, if saveRecording then Saved else Discarded)]
                                       else [])
      ensures toast == Toast("Stream Ended", if saveRecording then "Recording saved." else "Stream ended without saving.", false)
      // a second stop changes nothing
      ensures old(Stopped()) ==> Snapshot() == old(Snapshot())
    {
      if localStream.Some? {
        localStream.value.StopAll();
        localStream := None;
      }
      CloseAll(peers.Values);
      peers := map[];
      if recorder.Some? && state.isRecording {
        recorder.value.Stop();
      }
      if state.streamId.Some? {
        writes := writes + [EndLive(state.streamId.value, now, if saveRecording then Saved else Discarded)];
      }
      state := InitialStreamState;
      toast := Toast("Stream Ended", if saveRecording then "Recording saved." else "Stream ended without saving.", false);
    }

    /** `startRecording`: nothing without a local stream; otherwise the chunk
        list is emptied, and when the recorder can be created (`recorderOk`)
        it is started and stored and the record says recording. */
    method StartRecording(recorderOk: bool) returns (toast: Option<Toast>)
      requires Valid()
      modifies this
      ensures Valid()
      ensures old(localStream).None? ==> Snapshot() == old(Snapshot()) && toast == None
      ensures old(localStream).Some? && !recorderOk ==>
        Snapshot() == old(Snapshot()).(chunks := [])
        && toast == Some(Toast("Error", "Failed to start recording.", true))
      ensures old(localStream).Some? && recorderOk ==>
        recorder.Some? && fresh(recorder.value) && recorder.value.recording
        && Snapshot() == old(Snapshot()).(chunks := [], recorder := recorder, state := old(state).(isRecording := true))
        && toast == Some(Toast("Recording Started", "Stream is now being recorded.", false))
    {
      if localStream.None? {
        return None;
      }
      chunks := [];
      if !recorderOk {
        return Some(Toast("Error", "Failed to start recording.", true));
      }
      var mr := new MediaRecorder();
      recorder := Some(mr);
      state := state.(isRecording := true);
      toast := Some(Toast("Recording Started", "Stream is now being recorded.", false));
    }

    /** `mediaRecorder.ondataavailable`: only non-empty chunks are kept. */
    method OnDataAvailable(c: Chunk)
      requires Valid()
      modifies this
      ensures Valid()
      ensures Snapshot() == old(Snapshot()).(chunks := old(chunks) + (if c.size > 0 then [c] else []))
      ensures c.size > 0 ==> RecordedBlob().Some?
    {
      if c.size > 0 {
        chunks := chunks + [c];
      }
    }

    /** `stopRecording`: nothing without a recorder; otherwise it is stopped,
        the ref cleared and the record says not recording. */
    method StopRecording() returns (toast: Option<Toast>)
      requires Valid()
      modifies this, RecorderObjects()
      ensures Valid()
      ensures old(recorder).None? ==> Snapshot() == old(Snapshot()) && toast == None
      ensures old(recorder).Some? ==>
        !old(recorder).value.recording
        && Snapshot() == old(Snapshot()).(recorder := None, state := old(state).(isRecording := false))
        && toast == Some(Toast("Recording Stopped", "Recording has been saved.", false))
    {
      if recorder.None? {
        return None;
      }
      recorder.value.Stop();
      recorder := None;
      state := state.(isRecording := false);
      toast := Some(Toast("Recording Stopped", "Recording has been saved.", false));
    }

    /** `getRecordedBlob`: the chunks, or null when there are none. */
    function RecordedBlob(): (r: Option<seq<Chunk>>)
      reads this
      ensures r.None? <==> chunks == []
      ensures r.Some? ==> r.value == chunks
    {
      if |chunks| == 0 then None else Some(chunks)
    }
  }
}
