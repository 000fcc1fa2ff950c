/** The prayer-room hooks of `src/hooks/usePrayerSession.tsx`.

    `usePrayerSessions` only filters the session list by status.
    `usePrayerRoom` keeps a map from remote user id to peer connection,
    dispatches incoming `webrtc-signal` broadcasts, opens a connection with an
    offer to every other participant on join, tears everything down on leave
    and flips the mute, video and hand flags.

    Every handler is one atomic step. What the browser or the database
    answers (the media stream, the insert, the SDP answer and offers, the
    clock) is a parameter. Messages sent on the realtime channel are appended
    to `outbox`; statements sent to the `prayer_participants` table are
    appended to `requests`. */
module PrayerRoomHook {
  import opened Js
  import opened Media
  import opened Schema
  import opened Ui
  import Seqs

  // -------------------------------------------------------------------
  // usePrayerSessions: the status filters
  // -------------------------------------------------------------------

  /** `sessions.filter(s => s.status === "active")`. */
  function LiveSessions(ss: seq<PrayerSession>): (r: seq<PrayerSession>)
    ensures forall s :: s in r <==> s in ss && s.status == Active
    ensures Seqs.IsSubsequence(r, ss)
  {
    Seqs.Filter(ss, (s: PrayerSession) => s.status == Active)
  }

  /** `sessions.filter(s => s.status === "scheduled")`. */
  function ScheduledSessions(ss: seq<PrayerSession>): (r: seq<PrayerSession>)
    ensures forall s :: s in r <==> s in ss && s.status == Scheduled
    ensures Seqs.IsSubsequence(r, ss)
  {
    Seqs.Filter(ss, (s: PrayerSession) => s.status == Scheduled)
  }

  /** No session is both live and scheduled, so the two lists together are
      never longer than the session list. */
  lemma LiveAndScheduledDisjoint(ss: seq<PrayerSession>)
    ensures forall s :: !(s in LiveSessions(ss) && s in ScheduledSessions(ss))
    ensures |LiveSessions(ss)| + |ScheduledSessions(ss)| <= |ss|
  {
    Seqs.DisjointFiltersFit(ss, (s: PrayerSession) => s.status == Active,
                                (s: PrayerSession) => s.status == Scheduled);
  }

  // -------------------------------------------------------------------
  // The join error messages
  // -------------------------------------------------------------------

  const PermissionDeniedMessage := "Permission denied. Please allow camera/mic in your browser settings."
  const NoDeviceMessage := "No camera or microphone found. Plug one in and try again."
  const DeviceBusyMessage := "Camera/mic is busy in another app. Close it and retry."
  const OverconstrainedMessage := "Your device can't satisfy the requested quality. Lower video quality and retry."
  const SecureContextRequiredMessage := "Secure connection required. Please use HTTPS (or localhost) to allow camera/mic access."
  const NoMediaDevicesMessage := "Your browser doesn't support media devices. Please use a modern browser."

  /** The error names that have a message of their own. */
  predicate IsMappedErrorName(name: string) {
    name in {"NotAllowedError", "PermissionDeniedError", "NotFoundError", "DevicesNotFoundError",
             "NotReadableError", "TrackStartError", "OverconstrainedError"}
  }

  /** The toast text for an error thrown while joining. */
  function JoinErrorMessage(e: JsError): (r: string)
    ensures IsMappedErrorName(e.name) ==>
      r in {PermissionDeniedMessage, NoDeviceMessage, DeviceBusyMessage, OverconstrainedMessage}
    ensures !IsMappedErrorName(e.name) ==> r == e.message
  {
    if e.name == "NotAllowedError" || e.name == "PermissionDeniedError" then PermissionDeniedMessage
    else if e.name == "NotFoundError" || e.name == "DevicesNotFoundError" then NoDeviceMessage
    else if e.name == "NotReadableError" || e.name == "TrackStartError" then DeviceBusyMessage
    else if e.name == "OverconstrainedError" then OverconstrainedMessage
    else e.message
  }

  /** For a mapped name the message the error carried is irrelevant; the
      four groups get four different texts. */
  lemma JoinErrorMessageByGroup(e1: JsError, e2: JsError)
    requires e1.name == e2.name && IsMappedErrorName(e1.name)
    ensures JoinErrorMessage(e1) == JoinErrorMessage(e2)
    ensures JoinErrorMessage(e1) == PermissionDeniedMessage <==> e1.name in {"NotAllowedError", "PermissionDeniedError"}
    ensures JoinErrorMessage(e1) == NoDeviceMessage <==> e1.name in {"NotFoundError", "DevicesNotFoundError"}
    ensures JoinErrorMessage(e1) == DeviceBusyMessage <==> e1.name in {"NotReadableError", "TrackStartError"}
    ensures JoinErrorMessage(e1) == OverconstrainedMessage <==> e1.name == "OverconstrainedError"
  {
  }

  /** The two checks before `getUserMedia` throw a plain `Error`, whose own
      message reaches the toast. */
  lemma PlainErrorsKeepTheirMessage()
    ensures JoinErrorMessage(JsError("Error", SecureContextRequiredMessage)) == SecureContextRequiredMessage
    ensures JoinErrorMessage(JsError("Error", NoMediaDevicesMessage)) == NoMediaDevicesMessage
  {
  }

  // -------------------------------------------------------------------
  // Signals and the other things the hook sends
  // -------------------------------------------------------------------

  /** The `type` of a `webrtc-signal` payload. */
  datatype SignalKind = Offer | Answer | IceCandidate | OtherKind(name: string)

  /** A `webrtc-signal` payload `{ type, from, to, signal }`; `from` and `to`
      are absent when the sender had no signed-in user. */
  datatype Signal = Signal(kind: SignalKind, from: Option<string>, to: Option<string>, payload: string)

  /** A broadcast on the room channel. */
  datatype Outgoing =
    | WebRtcSignal(signal: Signal)
    | HandRaisedBroadcast(userId: Option<string>, raised: bool)

  /** A statement sent to the `prayer_participants` table. */
  datatype RosterRequest =
    | InsertParticipant(sessionId: string, userId: string, isMuted: bool)
    | UpdateMuted(participantId: string, isMuted: bool)
    | UpdateLeftAt(participantId: string, leftAt: int)


  const NotSignedInToast := Toast("Error", "You must be logged in to join", true)
  const JoinedToast := Toast("Joined", "You've joined the prayer session", false)

  /** What one incoming signal does to the sender's connection. */
  function SignalEffect(c: ConnView, s: Signal, answer: string): (r: ConnView)
    ensures r.closed == c.closed
  {
    match s.kind
    case Offer => c.(remoteDescription := Some(s.payload), localDescription := Some(answer))
    case Answer => c.(remoteDescription := Some(s.payload))
    case IceCandidate => c.(candidates := c.candidates + [s.payload])
    case OtherKind(_) => c
  }

  /** What one incoming signal makes the hook send. */
  function SignalReplies(s: Signal, me: Option<string>, answer: string): (r: seq<Outgoing>)
    ensures |r| <= 1
  {
    if s.kind == Offer then [WebRtcSignal(Signal(Answer, me, s.from, answer))] else []
  }

  /** An offer sets both descriptions and is answered once, to its sender; an
      answer only sets the remote description; a candidate is only added;
      anything else changes nothing. */
  lemma SignalDispatch(c: ConnView, s: Signal, me: Option<string>, answer: string)
    ensures s.kind == Offer ==>
      SignalEffect(c, s, answer) == c.(remoteDescription := Some(s.payload), localDescription := Some(answer))
      && |SignalReplies(s, me, answer)| == 1
      && SignalReplies(s, me, answer)[0].signal.kind == Answer
      && SignalReplies(s, me, answer)[0].signal.to == s.from
    ensures s.kind == Answer ==>
      SignalEffect(c, s, answer) == c.(remoteDescription := Some(s.payload)) && SignalReplies(s, me, answer) == []
    ensures s.kind == IceCandidate ==>
      SignalEffect(c, s, answer).candidates == c.candidates + [s.payload]
      && SignalEffect(c, s, answer).(candidates := c.candidates) == c
      && SignalReplies(s, me, answer) == []
    ensures s.kind.OtherKind? ==> SignalEffect(c, s, answer) == c && SignalReplies(s, me, answer) == []
  {
  }

  /** The addressee of a signal is never looked at. */
  lemma SignalIgnoresAddressee(c: ConnView, s: Signal, to: Option<string>, me: Option<string>, answer: string)
    ensures SignalEffect(c, s.(to := to), answer) == SignalEffect(c, s, answer)
    ensures SignalReplies(s.(to := to), me, answer) == SignalReplies(s, me, answer)
  {
  }

  // -------------------------------------------------------------------
  // Join helpers
  // -------------------------------------------------------------------

  function UserIds(ps: seq<ParticipantRow>): (r: seq<string>)
    ensures |r| == |ps| && forall i :: 0 <= i < |ps| ==> r[i] == ps[i].userId
  {
    seq(|ps|, i requires 0 <= i < |ps| => ps[i].userId)
  }

  /** The user ids `joinSession` opens a connection to, in list order: every
      listed participant that is not the local user (repeats included). */
  function JoinTargets(ps: seq<ParticipantRow>, me: string): seq<string> {
    Seqs.Filter(UserIds(ps), (u: string) => u != me)
  }

  /** The targets are exactly the listed users other than `me`. */
  lemma JoinTargetsMembers(ps: seq<ParticipantRow>, me: string)
    ensures forall u :: u in JoinTargets(ps, me) <==> u != me && exists p :: p in ps && p.userId == u
  {
    var ids := UserIds(ps);
    forall u | u in ids
      ensures exists p :: p in ps && p.userId == u
    {
      var i :| 0 <= i < |ids| && ids[i] == u;
      assert ps[i] in ps;
    }
    forall u | exists p :: p in ps && p.userId == u
      ensures u in ids
    {
      var p :| p in ps && p.userId == u;
      var i :| 0 <= i < |ps| && ps[i] == p;
      assert ids[i] == u;
    }
  }

  lemma {:induction false} JoinTargetsSnoc(ps: seq<ParticipantRow>, p: ParticipantRow, me: string)
    ensures JoinTargets(ps + [p], me) == JoinTargets(ps, me) + (if p.userId != me then [p.userId] else [])
  {
    assert UserIds(ps + [p]) == UserIds(ps) + [p.userId];
    Seqs.FilterSnoc(UserIds(ps), p.userId, (u: string) => u != me);
  }

  /** The offers sent to the targets, in order. */
  function OfferSignals(targets: seq<string>, me: Option<string>, offers: string -> string): (r: seq<Outgoing>)
    ensures |r| == |targets|
  {
    if targets == [] then []
    else OfferSignals(targets[..|targets| - 1], me, offers)
         + [WebRtcSignal(Signal(Offer, me, Some(targets[|targets| - 1]), offers(targets[|targets| - 1])))]
  }

  /** One offer per target: the i-th message is the offer to the i-th target. */
  lemma {:induction false} OfferSignalsAt(targets: seq<string>, me: Option<string>, offers: string -> string)
    ensures forall i :: 0 <= i < |targets| ==>
      OfferSignals(targets, me, offers)[i] == WebRtcSignal(Signal(Offer, me, Some(targets[i]), offers(targets[i])))
  {
    if targets != [] {
      var init := targets[..|targets| - 1];
      OfferSignalsAt(init, me, offers);
      forall i | 0 <= i < |targets|
        ensures OfferSignals(targets, me, offers)[i] == WebRtcSignal(Signal(Offer, me, Some(targets[i]), offers(targets[i])))
      {
        if i < |init| {
          assert targets[i] == init[i];
        }
      }
    }
  }

  lemma OfferSignalsSnoc(targets: seq<string>, u: string, me: Option<string>, offers: string -> string)
    ensures OfferSignals(targets + [u], me, offers)
         == OfferSignals(targets, me, offers) + [WebRtcSignal(Signal(Offer, me, Some(u), offers(u)))]
  {
    assert (targets + [u])[..|targets|] == targets;
  }

  /** The map key is one of the listed user ids. */
  predicate IsKeyOf(k: Option<string>, us: seq<string>) {
    k.Some? && k.value in us
  }

  /** How many tracks `addTrack` attaches from a stream, or none without one. */
  function TrackCount(s: Option<MediaStream>): nat {
    if s.Some? then s.value.tracks.Length else 0
  }

  /** Audio tracks are enabled exactly when not muted, video tracks exactly
      when the video flag is on. */
  ghost predicate TracksFollowFlags(ts: seq<Track>, muted: bool, videoOn: bool) {
    forall i :: 0 <= i < |ts| ==>
      (ts[i].kind == Audio ==> ts[i].enabled == !muted) && (ts[i].kind == Video ==> ts[i].enabled == videoOn)
  }

  /** Join enables audio as asked and video as asked, and records both flags. */
  lemma JoinTracksFollowFlags(ts: seq<Track>, withAudio: bool, withVideo: bool)
    ensures TracksFollowFlags(WithEnabled(WithEnabled(ts, Audio, withAudio), Video, withVideo), !withAudio, withVideo)
  {
  }

  /** Muting or unmuting keeps the tracks in step with the flags. */
  lemma MuteKeepsTracksInStep(ts: seq<Track>, muted: bool, videoOn: bool)
    requires TracksFollowFlags(ts, muted, videoOn)
    ensures TracksFollowFlags(WithEnabled(ts, Audio, muted), !muted, videoOn)
  {
  }

  lemma VideoKeepsTracksInStep(ts: seq<Track>, muted: bool, videoOn: bool)
    requires TracksFollowFlags(ts, muted, videoOn)
    ensures TracksFollowFlags(WithEnabled(ts, Video, !videoOn), muted, !videoOn)
  {
  }

  /** What `getUserMedia` and the participant insert answer during one join,
      and the two environment checks before them. */
  datatype JoinEnv = JoinEnv(
    isSecureContext: bool,
    hostname: string,
    hasMediaDevices: bool,
    media: Attempt<MediaStream>,
    insert: Attempt<ParticipantRow>)

  function JoinStreamArrays(env: JoinEnv): set<object> {
    if env.media.Ok? then {env.media.value.tracks} else {}
  }

  /** Each stored connection was created for its key, and no connection is
      stored under two keys. */
  ghost predicate WellKeyed(m: map<Option<string>, PeerConnection>) {
    (forall k :: k in m ==> m[k].remoteId == k)
    && (forall a, b :: a in m && b in m && m[a] == m[b] ==> a == b)
  }

  /** `createPeerConnection(peerId)` followed by `setLocalDescription(offer)`:
      a new connection carrying the captured stream's tracks, stored under the
      peer's id in place of any earlier one. */
  method OfferConnection(m: map<Option<string>, PeerConnection>, peerId: string, captured: Option<MediaStream>,
                         offer: string) returns (m': map<Option<string>, PeerConnection>)
    requires WellKeyed(m)
    ensures WellKeyed(m')
    ensures m'.Keys == m.Keys + {Some(peerId)}
    ensures fresh(m'[Some(peerId)]) && m'[Some(peerId)].attachedTracks == TrackCount(captured)
    ensures m'[Some(peerId)].View() == NewConn.(localDescription := Some(offer))
    ensures forall k :: k in m && k != Some(peerId) ==> m'[k] == m[k]
  {
    var pc := new PeerConnection(Some(peerId), TrackCount(captured));
    pc.SetLocalDescription(offer);
    m' := m[Some(peerId) := pc];
  }

  /** What `channelRef.current?.send` puts on the channel: everything when
      there is a channel, nothing otherwise. */
  function SentIf(channelOpen: bool, msgs: seq<Outgoing>): seq<Outgoing> {
    if channelOpen then msgs else []
  }

  lemma SentIfAppend(channelOpen: bool, a: seq<Outgoing>, b: seq<Outgoing>)
    ensures SentIf(channelOpen, a + b) == SentIf(channelOpen, a) + SentIf(channelOpen, b)
  {
  }

  /** Each listed user has a connection created with the captured stream's
      tracks, with the offer made for that user as its only description. */
  ghost predicate OpenedIn(m: map<Option<string>, PeerConnection>, targets: seq<string>,
                           captured: Option<MediaStream>, offers: string -> string)
    reads m.Values
  {
    forall u :: u in targets ==>
      Some(u) in m && m[Some(u)].attachedTracks == TrackCount(captured)
      && m[Some(u)].View() == NewConn.(localDescription := Some(offers(u)))
  }

  /** The connection map after offering to `targets`, starting from `m0`:
      well keyed, holding the earlier keys and the targets, an offer
      connection for every target and the earlier connections elsewhere. */
  ghost predicate OfferedFrom(m0: map<Option<string>, PeerConnection>, m: map<Option<string>, PeerConnection>,
                              targets: seq<string>, captured: Option<MediaStream>, offers: string -> string)
    reads m.Values
  {
    KeyedFrom(m0, m, targets) && OpenedIn(m, targets, captured, offers)
  }

  /** The part of `OfferedFrom` about which connection is stored where. */
  ghost predicate KeyedFrom(m0: map<Option<string>, PeerConnection>, m: map<Option<string>, PeerConnection>,
                            targets: seq<string>)
  {
    && WellKeyed(m)
    && (forall k :: k in m <==> k in m0 || IsKeyOf(k, targets))
    && (forall k :: k in m0 && !IsKeyOf(k, targets) ==> m[k] == m0[k])
  }

  /** Offering opens connections only: if the earlier ones were open, so is
      every one afterwards. */
  lemma OfferedStaysOpen(m0: map<Option<string>, PeerConnection>, m: map<Option<string>, PeerConnection>,
                         targets: seq<string>, captured: Option<MediaStream>, offers: string -> string)
    requires OfferedFrom(m0, m, targets, captured, offers)
    requires forall k :: k in m0 ==> !m0[k].closed
    ensures forall k :: k in m ==> !m[k].closed
  {
    forall k | k in m
      ensures !m[k].closed
    {
      if IsKeyOf(k, targets) {
        assert m[k].View() == NewConn.(localDescription := Some(offers(k.value)));
      } else {
        assert m[k] == m0[k];
      }
    }
  }

  /** The connection half of one offer: the map gains a fresh offer
      connection for `u`. */
  method OfferMapStep(m0: map<Option<string>, PeerConnection>, m: map<Option<string>, PeerConnection>,
                      ghost done: seq<string>, u: string, captured: Option<MediaStream>, offers: string -> string)
    returns (m': map<Option<string>, PeerConnection>)
    requires OfferedFrom(m0, m, done, captured, offers)
    ensures OfferedFrom(m0, m', done + [u], captured, offers)
  {
    m' := OfferConnection(m, u, captured, offers(u));
    assert forall k :: IsKeyOf(k, done + [u]) <==> IsKeyOf(k, done) || k == Some(u);
  }

  /** One turn of the `forEach` below for a participant `u` other than `me`:
      a connection and an offer to `u`. */
  method OfferStep(m0: map<Option<string>, PeerConnection>, m: map<Option<string>, PeerConnection>,
                   out0: seq<Outgoing>, out: seq<Outgoing>, ghost done: seq<string>, u: string, me: string,
                   channelOpen: bool, captured: Option<MediaStream>, offers: string -> string)
    returns (m': map<Option<string>, PeerConnection>, out': seq<Outgoing>)
    requires OfferedFrom(m0, m, done, captured, offers)
    requires out == out0 + SentIf(channelOpen, OfferSignals(done, Some(me), offers))
    ensures OfferedFrom(m0, m', done + [u], captured, offers)
    ensures out' == out0 + SentIf(channelOpen, OfferSignals(done + [u], Some(me), offers))
  {
    m' := OfferMapStep(m0, m, done, u, captured, offers);
    var offer := WebRtcSignal(Signal(Offer, Some(me), Some(u), offers(u)));
    out' := out + SentIf(channelOpen, [offer]);
    OfferSignalsSnoc(done, u, Some(me), offers);
    SentIfAppend(channelOpen, OfferSignals(done, Some(me), offers), [offer]);
  }

  /** The `participants.forEach` at the end of `joinSession`, on the
      connection map `m0` and the messages sent so far `out0`: every listed
      participant other than `me` gets a new connection and an offer, in list
      order; a participant listed twice gets two, the second replacing the
      first. */
  method OpenConnections(m0: map<Option<string>, PeerConnection>, out0: seq<Outgoing>, ps: seq<ParticipantRow>,
                         me: string, channelOpen: bool, captured: Option<MediaStream>, offers: string -> string)
    returns (m: map<Option<string>, PeerConnection>, out: seq<Outgoing>)
    requires WellKeyed(m0)
    requires forall k :: k in m0 ==> !m0[k].closed
    ensures OfferedFrom(m0, m, JoinTargets(ps, me), captured, offers)
    ensures forall k :: k in m ==> !m[k].closed
    ensures out == out0 + SentIf(channelOpen, OfferSignals(JoinTargets(ps, me), Some(me), offers))
  {
    m, out := m0, out0;
    ghost var done: seq<string> := [];
    for i := 0 to |ps|
      invariant done == JoinTargets(ps[..i], me)
      invariant OfferedFrom(m0, m, done, captured, offers)
      invariant out == out0 + SentIf(channelOpen, OfferSignals(done, Some(me), offers))
    {
      m, out, done := ParticipantStep(m0, m, out0, out, done, ps, i, me, channelOpen, captured, offers);
    }
    assert ps[..|ps|] == ps;
    OfferedStaysOpen(m0, m, done, captured, offers);
  }

  /** One participant of that `forEach`: an offer unless it is `me`. */
  method ParticipantStep(m0: map<Option<string>, PeerConnection>, m: map<Option<string>, PeerConnection>,
                         out0: seq<Outgoing>, out: seq<Outgoing>, ghost done: seq<string>, ps: seq<ParticipantRow>,
                         i: nat, me: string, channelOpen: bool, captured: Option<MediaStream>, offers: string -> string)
    returns (m': map<Option<string>, PeerConnection>, out': seq<Outgoing>, ghost done': seq<string>)
    requires i < |ps| && done == JoinTargets(ps[..i], me)
    requires OfferedFrom(m0, m, done, captured, offers)
    requires out == out0 + SentIf(channelOpen, OfferSignals(done, Some(me), offers))
    ensures done' == JoinTargets(ps[..i + 1], me)
    ensures OfferedFrom(m0, m', done', captured, offers)
    ensures out' == out0 + SentIf(channelOpen, OfferSignals(done', Some(me), offers))
  {
    assert ps[..i + 1] == ps[..i] + [ps[i]];
    JoinTargetsSnoc(ps[..i], ps[i], me);
    if ps[i].userId != me {
      m', out' := OfferStep(m0, m, out0, out, done, ps[i].userId, me, channelOpen, captured, offers);
      done' := done + [ps[i].userId];
    } else {
      m', out', done' := m, out, done;
    }
  }

  /** Every field of the hook, for "nothing else changes". */
  datatype RoomState = RoomState(
    participants: seq<ParticipantRow>,
    myParticipation: Option<ParticipantRow>,
    localStream: Option<MediaStream>,
    remoteStreams: map<Option<string>, MediaStream>,
    isConnected: bool,
    isMuted: bool,
    isVideoOn: bool,
    handRaised: bool,
    peers: map<Option<string>, PeerConnection>,
    outbox: seq<Outgoing>,
    requests: seq<RosterRequest>)

  // -------------------------------------------------------------------
  // usePrayerRoom
  // -------------------------------------------------------------------

  class PrayerRoom {
    const sessionId: Option<string>
    /** `user?.id`. */
    const user: Option<string>
    /** `channelRef.current` is set on mount exactly when there is a session id;
        `channelRef.current?.send` sends nothing otherwise. */
    const channelOpen: bool

    var participants: seq<ParticipantRow>
    var myParticipation: Option<ParticipantRow>
    var localStream: Option<MediaStream>
    var remoteStreams: map<Option<string>, MediaStream>
    var isConnected: bool
    var isMuted: bool
    var isVideoOn: bool
    var handRaised: bool
    /** `peerConnections.current`, keyed by the remote user id as received. */
    var peers: map<Option<string>, PeerConnection>
    var outbox: seq<Outgoing>
    var requests: seq<RosterRequest>

    function State(): RoomState
      reads this
    {
      RoomState(participants, myParticipation, localStream, remoteStreams, isConnected,
                isMuted, isVideoOn, handRaised, peers, outbox, requests)
    }

    function LocalTracks(): set<object>
      reads this
    {
      if localStream.Some? then {localStream.value.tracks} else {}
    }

    /** Each stored connection belongs to its key and no connection is
        stored twice; the local tracks are in step with the mute and video
        flags. */
    ghost predicate Shape()
      reads this, LocalTracks()
    {
      WellKeyed(peers)
      && (localStream.Some? ==> TracksFollowFlags(localStream.value.tracks[..], isMuted, isVideoOn))
    }

    /** No stored connection has been closed. */
    ghost predicate AllOpen()
      reads this, peers.Values
    {
      forall k :: k in peers ==> !peers[k].closed
    }

    ghost predicate Valid()
      reads this, peers.Values, LocalTracks()
    {
      Shape() && AllOpen()
    }

    function Sent(msgs: seq<Outgoing>): seq<Outgoing> {
      SentIf(channelOpen, msgs)
    }

    /** The hook on mount: muted, video off, hand down, nothing connected. */
    constructor (sessionId: Option<string>, user: Option<string>)
      ensures this.sessionId == sessionId && this.user == user && channelOpen == Truthy(sessionId)
      ensures State() == RoomState([], None, None, map[], false, true, false, false, map[], [], [])
      ensures Valid()
    {
      this.sessionId := sessionId;
      this.user := user;
      channelOpen := Truthy(sessionId);
      participants, myParticipation, localStream, remoteStreams := [], None, None, map[];
      isConnected, isMuted, isVideoOn, handRaised := false, true, false, false;
      peers, outbox, requests := map[], [], [];
    }

    /** `fetchParticipants`: `table` is the `prayer_participants` table, or
        `None` when the query failed (then nothing changes). The rows kept are
        this session's rows whose `left_at` is null. */
    method FetchParticipants(table: Option<seq<ParticipantRow>>)
      modifies this
      ensures !Truthy(sessionId) || table.None? ==> State() == old(State())
      ensures Truthy(sessionId) && table.Some? ==>
        (forall p :: p in participants <==> p in table.value && p.sessionId == sessionId.value && p.leftAt.None?)
        && Seqs.IsSubsequence(participants, table.value)
        && (user.Some? ==> myParticipation == Seqs.Find(participants, (p: ParticipantRow) => p.userId == user.value))
        && (user.None? ==> myParticipation == old(myParticipation))
        && State() == old(State()).(participants := participants, myParticipation := myParticipation)
    {
      if !Truthy(sessionId) || table.None? {
        return;
      }
      var sid := sessionId.value;
      participants := Seqs.Filter(table.value, (p: ParticipantRow) => p.sessionId == sid && p.leftAt.None?);
      if user.Some? {
        var me := user.value;
        myParticipation := Seqs.Find(participants, (p: ParticipantRow) => p.userId == me);
      }
    }

    /** `broadcastSignal(type, to, signal)`: the sender is always the local user. */
    method BroadcastSignal(kind: SignalKind, to: Option<string>, payload: string)
      modifies this
      ensures outbox == old(outbox) + Sent([WebRtcSignal(Signal(kind, user, to, payload))])
      ensures State() == old(State()).(outbox := outbox)
    {
      outbox := outbox + Sent([WebRtcSignal(Signal(kind, user, to, payload))]);
    }

    /** `createPeerConnection(peerId)`. `captured` is the `localStream` the
        calling closure saw, whose tracks are attached; the new connection
        replaces any entry for the same key, which is not closed. */
    method CreatePeerConnection(key: Option<string>, captured: Option<MediaStream>) returns (pc: PeerConnection)
      requires Shape()
      modifies this
      ensures fresh(pc) && pc.remoteId == key && pc.attachedTracks == TrackCount(captured) && pc.View() == NewConn
      ensures peers == old(peers)[key := pc]
      ensures State() == old(State()).(peers := peers)
      ensures Shape()
    {
      pc := new PeerConnection(key, TrackCount(captured));
      peers := peers[key := pc];
    }

    /** `handleWebRTCSignal`. `captured` is the stream seen by the handler
        registered at subscription; `answer` is what `createAnswer` yields. */
    method HandleSignal(s: Signal, captured: Option<MediaStream>, answer: string)
      requires Valid()
      modifies this, peers.Values
      ensures Valid()
      ensures State() == old(State()).(peers := peers, outbox := outbox)
      ensures s.from == user ==>
        peers == old(peers) && outbox == old(outbox)
        && forall k :: k in peers ==> peers[k].View() == old(peers[k].View())
      ensures s.from != user ==>
        peers.Keys == old(peers).Keys + {s.from}
        && (s.from in old(peers) ==> peers[s.from] == old(peers)[s.from])
        && (s.from !in old(peers) ==> fresh(peers[s.from]) && peers[s.from].attachedTracks == TrackCount(captured))
        && peers[s.from].View() ==
             SignalEffect(if s.from in old(peers) then old(peers[s.from].View()) else NewConn, s, answer)
        && (forall k :: k in old(peers) && k != s.from ==>
              peers[k] == old(peers)[k] && peers[k].View() == old(peers[k].View()))
        && outbox == old(outbox) + Sent(SignalReplies(s, user, answer))
    {
      if s.from == user {
        return;
      }
      if s.from in peers {
        SignalExisting(s, answer);
      } else {
        SignalNew(s, captured, answer);
      }
    }

    /** A signal from a peer that already has a connection: only that
        connection changes. */
    method SignalExisting(s: Signal, answer: string)
      requires Valid() && s.from in peers
      modifies this, peers[s.from]
      ensures Valid()
      ensures State() == old(State()).(outbox := outbox)
      ensures peers[s.from].View() == SignalEffect(old(peers[s.from].View()), s, answer)
      ensures forall k :: k in peers && k != s.from ==> peers[k].View() == old(peers[k].View())
      ensures outbox == old(outbox) + Sent(SignalReplies(s, user, answer))
    {
      var pc := peers[s.from];
      ApplySignal(pc, s, answer);
      forall k | k in peers && k != s.from
        ensures peers[k] != pc
      {
      }
    }

    /** A signal from a peer without a connection: a new one is made for it
        first. */
    method SignalNew(s: Signal, captured: Option<MediaStream>, answer: string)
      requires Valid() && s.from !in peers
      modifies this
      ensures Valid()
      ensures State() == old(State()).(peers := peers, outbox := outbox)
      ensures peers.Keys == old(peers).Keys + {s.from}
      ensures fresh(peers[s.from]) && peers[s.from].attachedTracks == TrackCount(captured)
      ensures peers[s.from].View() == SignalEffect(NewConn, s, answer)
      ensures forall k :: k in old(peers) ==> peers[k] == old(peers)[k]
      ensures outbox == old(outbox) + Sent(SignalReplies(s, user, answer))
    {
      var pc := CreatePeerConnection(s.from, captured);
      ApplySignal(pc, s, answer);
    }

    /** The dispatch on the signal type, once the connection is at hand. */
    method ApplySignal(pc: PeerConnection, s: Signal, answer: string)
      modifies this, pc
      ensures pc.View() == SignalEffect(old(pc.View()), s, answer)
      ensures State() == old(State()).(outbox := old(outbox) + Sent(SignalReplies(s, user, answer)))
    {
      match s.kind {
        case Offer =>
          pc.SetRemoteDescription(s.payload);
          pc.SetLocalDescription(answer);
          BroadcastSignal(Answer, s.from, answer);
        case Answer =>
          pc.SetRemoteDescription(s.payload);
        case IceCandidate =>
          pc.AddIceCandidate(s.payload);
        case OtherKind(_) =>
      }
    }

    /** `initiateConnection(peerId)`: always a new connection, with the
        offer from `createOffer` as local description, sent to the peer. */
    method InitiateConnection(peerId: string, captured: Option<MediaStream>, offer: string)
      requires Shape()
      modifies this
      ensures Shape()
      ensures peers.Keys == old(peers).Keys + {Some(peerId)}
      ensures fresh(peers[Some(peerId)]) && peers[Some(peerId)].attachedTracks == TrackCount(captured)
      ensures peers[Some(peerId)].View() == NewConn.(localDescription := Some(offer))
      ensures forall k :: k in old(peers) && k != Some(peerId) ==> peers[k] == old(peers)[k]
      ensures outbox == old(outbox) + Sent([WebRtcSignal(Signal(Offer, user, Some(peerId), offer))])
      ensures State() == old(State()).(peers := peers, outbox := outbox)
    {
      peers := OfferConnection(peers, peerId, captured, offer);
      BroadcastSignal(Offer, Some(peerId), offer);
    }

    /** The loop at the end of `joinSession`: an offer to every listed
        participant other than `me`, in list order. */
    method ConnectToParticipants(me: string, captured: Option<MediaStream>, offers: string -> string)
      requires Valid() && user == Some(me)
      modifies this
      ensures Valid()
      ensures OfferedFrom(old(peers), peers, JoinTargets(participants, me), captured, offers)
      ensures outbox == old(outbox) + Sent(OfferSignals(JoinTargets(participants, me), user, offers))
      ensures State() == old(State()).(peers := peers, outbox := outbox)
    {
      peers, outbox := OpenConnections(peers, outbox, participants, me, channelOpen, captured, offers);
    }

    /** `joinSession(withAudio, withVideo)`. `captured` is the `localStream`
        of the render that called it (the stream acquired here is not yet
        visible to `createPeerConnection`); `offers(u)` is the offer created
        for user `u`. Returns the toast shown. */
    method JoinSession(withAudio: bool, withVideo: bool, env: JoinEnv, captured: Option<MediaStream>,
                       offers: string -> string) returns (toast: Toast)
      requires Valid()
      modifies this, JoinStreamArrays(env)
      ensures Valid()
      // not signed in, or no session: nothing happens
      ensures !Truthy(sessionId) || user.None? ==>
        toast == NotSignedInToast && State() == old(State())
      // a check or getUserMedia fails: nothing changes, the error is reported
      ensures Truthy(sessionId) && user.Some? && !env.isSecureContext && env.hostname != "localhost" ==>
        toast == Toast("Error", SecureContextRequiredMessage, true) && State() == old(State())
      ensures Truthy(sessionId) && user.Some? && (env.isSecureContext || env.hostname == "localhost") && !env.hasMediaDevices ==>
        toast == Toast("Error", NoMediaDevicesMessage, true) && State() == old(State())
      ensures Truthy(sessionId) && user.Some? && (env.isSecureContext || env.hostname == "localhost") && env.hasMediaDevices
              && env.media.Fail? ==>
        toast == Toast("Error", JoinErrorMessage(env.media.error), true) && State() == old(State())
      // the stream is acquired: its tracks and the flags are set before the insert
      ensures Truthy(sessionId) && user.Some? && (env.isSecureContext || env.hostname == "localhost") && env.hasMediaDevices
              && env.media.Ok? ==>
        var stream := env.media.value;
        stream.tracks[..] == WithEnabled(WithEnabled(old(stream.tracks[..]), Audio, withAudio), Video, withVideo)
        && localStream == Some(stream) && isMuted == !withAudio && isVideoOn == withVideo
        && requests == old(requests) + [InsertParticipant(sessionId.value, user.value, !withAudio)]
        && (env.insert.Fail? ==>
              toast == Toast("Error", JoinErrorMessage(env.insert.error), true)
              && State() == old(State()).(localStream := localStream, isMuted := isMuted,
                                          isVideoOn := isVideoOn, requests := requests))
        && (env.insert.Ok? ==>
              toast == JoinedToast
              && myParticipation == Some(env.insert.value) && isConnected
              && OfferedFrom(old(peers), peers, JoinTargets(participants, user.value), captured, offers)
              && outbox == old(outbox) + Sent(OfferSignals(JoinTargets(participants, user.value), user, offers))
              && State() == old(State()).(localStream := localStream, isMuted := isMuted, isVideoOn := isVideoOn,
                                          requests := requests, myParticipation := myParticipation,
                                          isConnected := isConnected, peers := peers, outbox := outbox))
    {
      if !Truthy(sessionId) || user.None? {
        return NotSignedInToast;
      }
      if !env.isSecureContext && env.hostname != "localhost" {
        return Toast("Error", JoinErrorMessage(JsError("Error", SecureContextRequiredMessage)), true);
      }
      if !env.hasMediaDevices {
        return Toast("Error", JoinErrorMessage(JsError("Error", NoMediaDevicesMessage)), true);
      }
      if env.media.Fail? {
        return Toast("Error", JoinErrorMessage(env.media.error), true);
      }
      AdoptStream(env.media.value, withAudio, withVideo);
      toast := AfterInsert(env.insert, captured, offers);
    }

    /** The end of `joinSession`, once the insert answers: a failure is
        reported; a new row makes the hook connected and offers to everyone
        else listed. */
    method AfterInsert(insert: Attempt<ParticipantRow>, captured: Option<MediaStream>, offers: string -> string)
      returns (toast: Toast)
      requires Valid() && user.Some?
      modifies this
      ensures Valid()
      ensures insert.Fail? ==> toast == Toast("Error", JoinErrorMessage(insert.error), true) && State() == old(State())
      ensures insert.Ok? ==>
        toast == JoinedToast
        && myParticipation == Some(insert.value) && isConnected
        && OfferedFrom(old(peers), peers, JoinTargets(participants, user.value), captured, offers)
        && outbox == old(outbox) + Sent(OfferSignals(JoinTargets(participants, user.value), user, offers))
        && State() == old(State()).(myParticipation := myParticipation, isConnected := isConnected,
                                    peers := peers, outbox := outbox)
    {
      if insert.Fail? {
        return Toast("Error", JoinErrorMessage(insert.error), true);
      }
      myParticipation := Some(insert.value);
      isConnected := true;
      ConnectToParticipants(user.value, captured, offers);
      return JoinedToast;
    }

    /** The part of `joinSession` after `getUserMedia` succeeds and before
        the insert answers: the tracks are enabled as asked, the stream and
        the flags stored, and the participant row requested. */
    method AdoptStream(stream: MediaStream, withAudio: bool, withVideo: bool)
      requires Valid() && Truthy(sessionId) && user.Some?
      modifies this, stream.tracks
      ensures Valid()
      ensures stream.tracks[..] == WithEnabled(WithEnabled(old(stream.tracks[..]), Audio, withAudio), Video, withVideo)
      ensures State() == old(State()).(localStream := Some(stream), isMuted := !withAudio, isVideoOn := withVideo,
                                       requests := old(requests) + [InsertParticipant(sessionId.value, user.value, !withAudio)])
    {
      stream.SetEnabled(Audio, withAudio);
      stream.SetEnabled(Video, withVideo);
      JoinTracksFollowFlags(old(stream.tracks[..]), withAudio, withVideo);
      localStream := Some(stream);
      isMuted := !withAudio;
      isVideoOn := withVideo;
      requests := requests + [InsertParticipant(sessionId.value, user.value, !withAudio)];
    }

    /** `leaveSession(now)`: nothing without a participation; otherwise every
        connection is closed, the map emptied, the local tracks stopped, the
        departure time written, and the connection state cleared. */
    method LeaveSession(now: int)
      requires Valid()
      modifies this, peers.Values, LocalTracks()
      ensures Valid()
      ensures old(myParticipation).None? ==>
        State() == old(State())
        && (forall pc :: pc in old(peers).Values ==> pc.View() == old(pc.View()))
        && (localStream.Some? ==> localStream.value.tracks[..] == old(localStream.value.tracks[..]))
      ensures old(myParticipation).Some? ==>
        (forall pc :: pc in old(peers).Values ==> pc.View() == old(pc.View()).(closed := true))
        && (old(localStream).Some? ==>
              old(localStream).value.tracks[..] == AllStopped(old(localStream.value.tracks[..])))
        && requests == old(requests) + [UpdateLeftAt(old(myParticipation).value.id, now)]
        && State() == old(State()).(peers := map[], localStream := None, remoteStreams := map[],
                                    isConnected := false, myParticipation := None, requests := requests)
    {
      if myParticipation.None? {
        return;
      }
      ReleaseMedia();
      requests := requests + [UpdateLeftAt(myParticipation.value.id, now)];
      remoteStreams := map[];
      isConnected := false;
      myParticipation := None;
    }

    /** The media half of leaving: the connections closed and forgotten,
        the local tracks stopped and the stream dropped. */
    method ReleaseMedia()
      modifies this, peers.Values, LocalTracks()
      ensures forall pc :: pc in old(peers).Values ==> pc.View() == old(pc.View()).(closed := true)
      ensures old(localStream).Some? ==>
        old(localStream).value.tracks[..] == AllStopped(old(localStream.value.tracks[..]))
      ensures State() == old(State()).(peers := map[], localStream := None)
    {
      CloseConnections();
      StopLocalStream();
    }

    /** Every stored connection closed and the map emptied. */
    method CloseConnections()
      modifies this, peers.Values
      ensures forall pc :: pc in old(peers).Values ==> pc.View() == old(pc.View()).(closed := true)
      ensures State() == old(State()).(peers := map[])
    {
      CloseAll(peers.Values);
      peers := map[];
    }

    /** The local tracks stopped and the stream dropped. */
    method StopLocalStream()
      modifies this, LocalTracks()
      ensures old(localStream).Some? ==>
        old(localStream).value.tracks[..] == AllStopped(old(localStream.value.tracks[..]))
      ensures State() == old(State()).(localStream := None)
    {
      if localStream.Some? {
        localStream.value.StopAll();
      }
      localStream := None;
    }

    /** `toggleMute`: needs a local stream and a participation; flips the flag,
        sets every audio track to the new unmuted value and writes `is_muted`. */
    method ToggleMute()
      requires Valid()
      modifies this, LocalTracks()
      ensures Valid()
      ensures old(localStream).None? || old(myParticipation).None? ==>
        State() == old(State())
        && (localStream.Some? ==> localStream.value.tracks[..] == old(localStream.value.tracks[..]))
      ensures old(localStream).Some? && old(myParticipation).Some? ==>
        State() == old(State()).(isMuted := isMuted, requests := requests)
        && isMuted == !old(isMuted)
        && localStream.value.tracks[..] == WithEnabled(old(localStream.value.tracks[..]), Audio, !isMuted)
        && requests == old(requests) + [UpdateMuted(myParticipation.value.id, isMuted)]
    {
      if localStream.None? || myParticipation.None? {
        return;
      }
      var newMuted := !isMuted;
      MuteKeepsTracksInStep(localStream.value.tracks[..], isMuted, isVideoOn);
      localStream.value.SetEnabled(Audio, !newMuted);
      isMuted := newMuted;
      requests := requests + [UpdateMuted(myParticipation.value.id, newMuted)];
    }

    /** `toggleVideo`: needs only a local stream; flips the flag and the video
        tracks, and writes nothing. */
    method ToggleVideo()
      requires Valid()
      modifies this, LocalTracks()
      ensures Valid()
      ensures old(localStream).None? ==> State() == old(State())
      ensures old(localStream).Some? ==>
        State() == old(State()).(isVideoOn := isVideoOn)
        && isVideoOn == !old(isVideoOn)
        && localStream.value.tracks[..] == WithEnabled(old(localStream.value.tracks[..]), Video, isVideoOn)
    {
      if localStream.None? {
        return;
      }
      VideoKeepsTracksInStep(localStream.value.tracks[..], isMuted, isVideoOn);
      localStream.value.SetEnabled(Video, !isVideoOn);
      isVideoOn := !isVideoOn;
    }

    /** `raiseHand`: flips the flag and broadcasts the new value. */
    method RaiseHand()
      modifies this
      ensures handRaised == !old(handRaised)
      ensures outbox == old(outbox) + Sent([HandRaisedBroadcast(user, handRaised)])
      ensures State() == old(State()).(handRaised := handRaised, outbox := outbox)
    {
      outbox := outbox + Sent([HandRaisedBroadcast(user, !handRaised)]);
      handRaised := !handRaised;
    }

    /** `pc.onicecandidate`: a candidate found by a connection is sent to the
        peer the connection was created for; the end-of-candidates event
        (`None`) sends nothing. */
    method OnIceCandidate(pc: PeerConnection, candidate: Option<string>)
      modifies this
      ensures candidate.None? ==> State() == old(State())
      ensures candidate.Some? ==>
        outbox == old(outbox) + Sent([WebRtcSignal(Signal(IceCandidate, user, pc.remoteId, candidate.value))])
        && State() == old(State()).(outbox := outbox)
    {
      if candidate.Some? {
        BroadcastSignal(IceCandidate, pc.remoteId, candidate.value);
      }
    }

    /** `pc.ontrack`: the first stream of the event becomes the remote stream
        of the connection's peer. */
    method OnTrack(pc: PeerConnection, stream: MediaStream)
      modifies this
      ensures remoteStreams == old(remoteStreams)[pc.remoteId := stream]
      ensures State() == old(State()).(remoteStreams := remoteStreams)
    {
      remoteStreams := remoteStreams[pc.remoteId := stream];
    }
  }
}
