/** The browser objects the hooks hold on to, reduced to the flags the code
    reads and writes: a `MediaStream` is its id and an array of tracks, each
    with `kind`, `enabled` and whether `stop()` was called; an
    `RTCPeerConnection` is its two session descriptions, the candidates
    handed to `addIceCandidate`, and whether `close()` was called. */
module Media {
  import opened Js

  datatype TrackKind = Audio | Video

  datatype Track = Track(kind: TrackKind, enabled: bool, ended: bool)

  /** The track after `track.enabled = on` when it is of the given kind. */
  function EnableIf(t: Track, kind: TrackKind, on: bool): Track {
    if t.kind == kind then t.(enabled := on) else t
  }

  /** The tracks after `stream.get<Kind>Tracks().forEach(t => t.enabled = on)`. */
  function WithEnabled(ts: seq<Track>, kind: TrackKind, on: bool): (r: seq<Track>)
    ensures |r| == |ts|
    ensures forall i :: 0 <= i < |ts| ==> r[i] == EnableIf(ts[i], kind, on)
  {
    seq(|ts|, i requires 0 <= i < |ts| => EnableIf(ts[i], kind, on))
  }

  /** The tracks after `stream.getTracks().forEach(t => t.stop())`. */
  function AllStopped(ts: seq<Track>): (r: seq<Track>)
    ensures |r| == |ts|
    ensures forall i :: 0 <= i < |ts| ==> r[i] == ts[i].(ended := true)
  {
    seq(|ts|, i requires 0 <= i < |ts| => ts[i].(ended := true))
  }

  /** Every track of the kind carries the flag; the others, their kinds and
      their `ended` flags are as before. */
  lemma WithEnabledEffect(ts: seq<Track>, kind: TrackKind, on: bool)
    ensures forall i :: 0 <= i < |ts| && ts[i].kind == kind ==> WithEnabled(ts, kind, on)[i].enabled == on
    ensures forall i :: 0 <= i < |ts| && ts[i].kind != kind ==> WithEnabled(ts, kind, on)[i] == ts[i]
    ensures forall i :: 0 <= i < |ts| ==>
      WithEnabled(ts, kind, on)[i].kind == ts[i].kind && WithEnabled(ts, kind, on)[i].ended == ts[i].ended
  {
  }

  /** Setting the flag twice is setting it once. */
  lemma WithEnabledIdempotent(ts: seq<Track>, kind: TrackKind, on: bool)
    ensures WithEnabled(WithEnabled(ts, kind, on), kind, on) == WithEnabled(ts, kind, on)
  {
  }

  /** Index of the first track of a kind: `get<Kind>Tracks()[0]`. */
  function FirstOfKind(ts: seq<Track>, kind: TrackKind): (r: Option<nat>)
    ensures r.Some? ==> r.value < |ts| && ts[r.value].kind == kind
    ensures r.Some? ==> forall j :: 0 <= j < r.value ==> ts[j].kind != kind
    ensures r.None? ==> forall j :: 0 <= j < |ts| ==> ts[j].kind != kind
  {
    if ts == [] then None
    else if ts[0].kind == kind then Some(0)
    else match FirstOfKind(ts[1..], kind)
      case None => None
      case Some(k) => Some(k + 1)
  }

  /** The tracks after `t = get<Kind>Tracks()[0]; if (t) t.enabled = !t.enabled`. */
  function FlippedFirst(ts: seq<Track>, kind: TrackKind): (r: seq<Track>)
    ensures |r| == |ts|
    ensures FirstOfKind(ts, kind).None? ==> r == ts
    ensures FirstOfKind(ts, kind).Some? ==>
      var k := FirstOfKind(ts, kind).value;
      r[k] == ts[k].(enabled := !ts[k].enabled) && forall j :: 0 <= j < |ts| && j != k ==> r[j] == ts[j]
  {
    match FirstOfKind(ts, kind)
    case None => ts
    case Some(k) => ts[k := ts[k].(enabled := !ts[k].enabled)]
  }

  /** Flipping the same track twice restores it. */
  lemma FlippedFirstTwice(ts: seq<Track>, kind: TrackKind)
    ensures FlippedFirst(FlippedFirst(ts, kind), kind) == ts
  {
    var once := FlippedFirst(ts, kind);
    assert forall j :: 0 <= j < |ts| ==> once[j].kind == ts[j].kind;
    FirstOfKindSameKinds(ts, once, kind);
  }

  /** `get<Kind>Tracks()[0]` depends only on the kinds of the tracks. */
  lemma {:induction false} FirstOfKindSameKinds(a: seq<Track>, b: seq<Track>, kind: TrackKind)
    requires |a| == |b| && forall j :: 0 <= j < |a| ==> a[j].kind == b[j].kind
    ensures FirstOfKind(a, kind) == FirstOfKind(b, kind)
  {
    if a != [] {
      FirstOfKindSameKinds(a[1..], b[1..], kind);
    }
  }

  class MediaStream {
    const id: string
    const tracks: array<Track>

    /** A stream as `getUserMedia` hands it over: every track enabled and live. */
    constructor (id: string, kinds: seq<TrackKind>)
      ensures this.id == id && fresh(tracks)
      ensures tracks.Length == |kinds|
      ensures forall i :: 0 <= i < |kinds| ==> tracks[i] == Track(kinds[i], true, false)
    {
      this.id := id;
      tracks := new Track[|kinds|](i requires 0 <= i < |kinds| => Track(kinds[i], true, false));
    }

    /** `get<Kind>Tracks().forEach(t => t.enabled = on)`. */
    method SetEnabled(kind: TrackKind, on: bool)
      modifies tracks
      ensures tracks[..] == WithEnabled(old(tracks[..]), kind, on)
    {
      for i := 0 to tracks.Length
        invariant forall k :: 0 <= k < i ==> tracks[k] == EnableIf(old(tracks[k]), kind, on)
        invariant forall k :: i <= k < tracks.Length ==> tracks[k] == old(tracks[k])
      {
        tracks[i] := EnableIf(tracks[i], kind, on);
      }
    }

    /** The preview toggles: the first track of the kind, if any, is
        flipped; its new `enabled` flag is returned. */
    method FlipFirst(kind: TrackKind) returns (now: Option<bool>)
      modifies tracks
      ensures tracks[..] == FlippedFirst(old(tracks[..]), kind)
      ensures now.None? <==> FirstOfKind(old(tracks[..]), kind).None?
      ensures now.Some? ==> now.value == tracks[FirstOfKind(old(tracks[..]), kind).value].enabled
    {
      var first := FirstOfKind(tracks[..], kind);
      if first.None? {
        return None;
      }
      var k := first.value;
      tracks[k] := tracks[k].(enabled := !tracks[k].enabled);
      now := Some(tracks[k].enabled);
    }

    /** `getTracks().forEach(t => t.stop())`. */
    method StopAll()
      modifies tracks
      ensures tracks[..] == AllStopped(old(tracks[..]))
    {
      for i := 0 to tracks.Length
        invariant forall k :: 0 <= k < i ==> tracks[k] == old(tracks[k]).(ended := true)
        invariant forall k :: i <= k < tracks.Length ==> tracks[k] == old(tracks[k])
      {
        tracks[i] := tracks[i].(ended := true);
      }
    }
  }

  /** What a connection has been told so far. */
  datatype ConnView = ConnView(
    remoteDescription: Option<string>,
    localDescription: Option<string>,
    candidates: seq<string>,
    closed: bool)

  /** A connection as `new RTCPeerConnection(...)` returns it. */
  const NewConn := ConnView(None, None, [], false)

  class PeerConnection {
    /** The remote participant the connection was created for. */
    const remoteId: Option<string>
    /** How many local tracks `addTrack` attached at creation. */
    const attachedTracks: nat
    var remoteDescription: Option<string>
    var localDescription: Option<string>
    var candidates: seq<string>
    var closed: bool

    function View(): ConnView
      reads this
    {
      ConnView(remoteDescription, localDescription, candidates, closed)
    }

    constructor (remoteId: Option<string>, attachedTracks: nat)
      ensures this.remoteId == remoteId && this.attachedTracks == attachedTracks
      ensures View() == NewConn
    {
      this.remoteId := remoteId;
      this.attachedTracks := attachedTracks;
      remoteDescription, localDescription, candidates, closed := None, None, [], false;
    }

    method SetRemoteDescription(d: string)
      modifies this
      ensures View() == old(View()).(remoteDescription := Some(d))
    {
      remoteDescription := Some(d);
    }

    method SetLocalDescription(d: string)
      modifies this
      ensures View() == old(View()).(localDescription := Some(d))
    {
      localDescription := Some(d);
    }

    method AddIceCandidate(c: string)
      modifies this
      ensures View() == old(View()).(candidates := old(candidates) + [c])
    {
      candidates := candidates + [c];
    }

    method Close()
      modifies this
      ensures View() == old(View()).(closed := true)
    {
      closed := true;
    }
  }

  /** `connections.forEach(pc => pc.close())`: every connection
      in the set is closed and nothing else about it changes. */
  method CloseAll(pcs: set<PeerConnection>)
    modifies pcs
    ensures forall pc :: pc in pcs ==> pc.View() == old(pc.View()).(closed := true)
  {
    var todo := pcs;
    while todo != {}
      invariant todo <= pcs
      invariant forall pc :: pc in pcs && pc !in todo ==> pc.View() == old(pc.View()).(closed := true)
      invariant forall pc :: pc in todo ==> pc.View() == old(pc.View())
      decreases todo
    {
      var pc :| pc in todo;
      pc.Close();
      todo := todo - {pc};
    }
  }

  /** A `MediaRecorder`: recording from `start()` until `stop()`. */
  class MediaRecorder {
    var recording: bool

    /** `new MediaRecorder(stream)` followed by `start()`. */
    constructor ()
      ensures recording
    {
      recording := true;
    }

    method Stop()
      modifies this
      ensures !recording
    {
      recording := false;
    }
  }
}
