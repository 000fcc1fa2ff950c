/** The prayer-room screen around the room hook: the camera preview shown
    before joining with its microphone and camera toggles, the Join button,
    the participant grid with one tile for the local user and one per
    remote participant, the participant count, and the local-only chat. The
    hook's `joinSession` and `leaveSession` are recorded as calls; the
    preview stream is the object `getUserMedia` returned, if any. */
module PrayerRoomView {
  import opened Js
  import opened Text
  import opened Schema
  import opened Media
  import Seqs

  // -------------------------------------------------------------------
  // The grid
  // -------------------------------------------------------------------

  /** The grid classes of the video area. */
  datatype GridLayout = OneColumn | TwoColumns | TwoByTwo | ThreeByTwo | ThreeByThree | FourColumns

  /** The layout for `participants.length`: 1, 2, up to 4, up to 6, up to 9
      and more; an empty list falls into the up-to-4 tier. */
  function GridFor(n: nat): (g: GridLayout)
    ensures g == OneColumn <==> n == 1
    ensures g == TwoColumns <==> n == 2
    ensures g == TwoByTwo <==> n == 0 || 3 <= n <= 4
    ensures g == ThreeByTwo <==> 5 <= n <= 6
    ensures g == ThreeByThree <==> 7 <= n <= 9
    ensures g == FourColumns <==> n >= 10
  {
    if n == 1 then OneColumn
    else if n == 2 then TwoColumns
    else if n <= 4 then TwoByTwo
    else if n <= 6 then ThreeByTwo
    else if n <= 9 then ThreeByThree
    else FourColumns
  }

  function Columns(g: GridLayout): nat {
    match g
    case OneColumn => 1
    case TwoColumns => 2
    case TwoByTwo => 2
    case ThreeByTwo => 3
    case ThreeByThree => 3
    case FourColumns => 4
  }

  /** The cells of a layout whose rows are fixed; the others grow rows as
      needed. */
  function Cells(g: GridLayout): Option<nat> {
    match g
    case TwoByTwo => Some(4)
    case ThreeByTwo => Some(6)
    case ThreeByThree => Some(9)
    case _ => None
  }

  /** More participants never mean fewer columns. */
  lemma ColumnsGrow(a: nat, b: nat)
    requires 1 <= a <= b
    ensures Columns(GridFor(a)) <= Columns(GridFor(b))
  {
  }

  /** A fixed-row layout has a cell for every participant it is chosen for. */
  lemma CellsSuffice(n: nat)
    requires Cells(GridFor(n)).Some?
    ensures n <= Cells(GridFor(n)).value
  {
  }

  /** `{n} participant(s)`: singular exactly for one. */
  function ParticipantLabel(n: nat): (text: string)
    ensures text == NatToString(n) + " participant" || text == NatToString(n) + " participants"
    ensures text == NatToString(n) + " participant" <==> n == 1
  {
    NatToString(n) + (if n == 1 then " participant" else " participants")
  }

  // -------------------------------------------------------------------
  // Remote tiles
  // -------------------------------------------------------------------

  /** The test `p => p.user_id !== localStream?.id`: a user id compared with
      the id of the local media stream (undefined without a stream). */
  function NotStreamId(localStreamId: Option<string>): ParticipantRow -> bool {
    (p: ParticipantRow) => Some(p.userId) != localStreamId
  }

  /** The remote tiles as the screen computes them. */
  function RemoteTilesAsWritten(ps: seq<ParticipantRow>, localStreamId: Option<string>): (r: seq<ParticipantRow>)
    ensures forall p :: p in r <==> p in ps && Some(p.userId) != localStreamId
  {
    Seqs.Filter(ps, NotStreamId(localStreamId))
  }

  /** A stream id is not a user id, so the local user's own participant row
      passes the filter and the user appears twice: once as "You" and once
      as a remote tile. */
  lemma OwnRowShownAsRemote(ps: seq<ParticipantRow>, me: string, localStreamId: Option<string>, own: ParticipantRow)
    requires own in ps && own.userId == me && localStreamId != Some(me)
    ensures own in RemoteTilesAsWritten(ps, localStreamId)
  {
  }

  /** With no participant whose user id equals the stream id, every row gets
      a tile; with the local tile that is one tile more than participants. */
  lemma AsWrittenTileCount(ps: seq<ParticipantRow>, localStreamId: Option<string>)
    requires forall p :: p in ps ==> Some(p.userId) != localStreamId
    ensures 1 + |RemoteTilesAsWritten(ps, localStreamId)| == |ps| + 1
  {
    Seqs.FilterAll(ps, NotStreamId(localStreamId));
  }

  /** Four participants, the local user among them: five tiles in the two by
      two grid chosen for four. */
  lemma AsWrittenOverflowsGrid(ps: seq<ParticipantRow>, localStreamId: Option<string>)
    requires |ps| == 4 && forall p :: p in ps ==> Some(p.userId) != localStreamId
    ensures Cells(GridFor(|ps|)) == Some(4)
    ensures 1 + |RemoteTilesAsWritten(ps, localStreamId)| == 5
  {
    AsWrittenTileCount(ps, localStreamId);
  }

  /** The intended test: a participant is remote when it is not the signed-in
      user. */
  function NotUser(me: string): ParticipantRow -> bool {
    (p: ParticipantRow) => p.userId != me
  }

  function IsUser(me: string): ParticipantRow -> bool {
    (p: ParticipantRow) => p.userId == me
  }

  /** The remote tiles the screen means to show: every participant but the
      local user, in roster order. */
  function RemoteTiles(ps: seq<ParticipantRow>, me: string): (r: seq<ParticipantRow>)
    ensures forall p :: p in r <==> p in ps && p.userId != me
    ensures Seqs.IsSubsequence(r, ps)
  {
    Seqs.Filter(ps, NotUser(me))
  }

  /** Each remote tile plus each of the user's own rows is the whole roster. */
  lemma {:induction false} RemoteTilesCount(ps: seq<ParticipantRow>, me: string)
    ensures |RemoteTiles(ps, me)| + Seqs.Count(ps, IsUser(me)) == |ps|
  {
    if ps != [] {
      RemoteTilesCount(ps[1..], me);
    }
  }

  /** With the user's own row present once, the local tile and the remote
      tiles are exactly one per participant, and a fixed-row grid has room
      for all of them. */
  lemma TilesFitGrid(ps: seq<ParticipantRow>, me: string)
    requires Seqs.Count(ps, IsUser(me)) == 1
    ensures 1 + |RemoteTiles(ps, me)| == |ps|
    ensures Cells(GridFor(|ps|)).Some? ==> 1 + |RemoteTiles(ps, me)| <= Cells(GridFor(|ps|)).value
  {
    RemoteTilesCount(ps, me);
  }

  // -------------------------------------------------------------------
  // The screen's own state
  // -------------------------------------------------------------------

  datatype ChatMessage = ChatMessage(id: string, user: string, message: string, timestamp: int)

  /** The hook calls the screen makes, in order. */
  datatype HookCall = JoinCall(audio: bool, video: bool) | LeaveCall | OnLeaveCall

  /** Every track of a kind carries the given `enabled` flag. */
  ghost predicate KindSynced(ts: seq<Track>, kind: TrackKind, on: bool) {
    forall i :: 0 <= i < |ts| && ts[i].kind == kind ==> ts[i].enabled == on
  }

  /** Setting one kind's flag syncs that kind and leaves the other kind as it
      was. */
  lemma WithEnabledSyncs(ts: seq<Track>, kind: TrackKind, on: bool, other: TrackKind, otherOn: bool)
    requires other != kind && KindSynced(ts, other, otherOn)
    ensures KindSynced(WithEnabled(ts, kind, on), kind, on)
    ensures KindSynced(WithEnabled(ts, kind, on), other, otherOn)
  {
  }

  class RoomView {
    var showPreview: bool
    var previewStream: Option<MediaStream>
    var previewMuted: bool
    var previewVideoOn: bool
    var showChat: bool
    var chatMessages: seq<ChatMessage>
    var chatInput: string
    var calls: seq<HookCall>

    constructor ()
      ensures showPreview && previewStream == None && !previewMuted && previewVideoOn
      ensures !showChat && chatMessages == [] && chatInput == "" && calls == []
    {
      showPreview, previewStream, previewMuted, previewVideoOn := true, None, false, true;
      showChat, chatMessages, chatInput, calls := false, [], "", [];
    }

    /** The preview's tracks agree with its two flags. */
    ghost predicate PreviewSynced()
      reads this, if previewStream.Some? then {previewStream.value.tracks} else {}
    {
      previewStream.Some? ==>
        KindSynced(previewStream.value.tracks[..], Audio, !previewMuted)
        && KindSynced(previewStream.value.tracks[..], Video, previewVideoOn)
    }

    /** `setupPreview` once `getUserMedia` answered: every track starts
        enabled, matching the unmuted, camera-on flags. */
    method AdoptPreview(stream: MediaStream)
      requires forall i :: 0 <= i < stream.tracks.Length ==> stream.tracks[i].enabled
      requires !previewMuted && previewVideoOn
      modifies this
      ensures previewStream == Some(stream) && PreviewSynced()
      ensures showPreview == old(showPreview) && previewMuted == old(previewMuted) && previewVideoOn == old(previewVideoOn)
      ensures showChat == old(showChat) && chatMessages == old(chatMessages) && chatInput == old(chatInput)
      ensures calls == old(calls)
    {
      previewStream := Some(stream);
    }

    /** `togglePreviewMute`: without a preview nothing happens; otherwise the
        audio tracks take the new unmuted state and the flag flips. */
    method TogglePreviewMute()
      modifies this, if previewStream.Some? then {previewStream.value.tracks} else {}
      ensures previewStream == old(previewStream)
      ensures old(previewStream).None? ==> previewMuted == old(previewMuted)
      ensures old(previewStream).Some? ==>
        previewMuted == !old(previewMuted)
        && previewStream.value.tracks[..] == WithEnabled(old(previewStream.value.tracks[..]), Audio, !previewMuted)
      ensures old(PreviewSynced()) ==> PreviewSynced()
      ensures previewVideoOn == old(previewVideoOn) && showPreview == old(showPreview)
      ensures showChat == old(showChat) && chatMessages == old(chatMessages) && chatInput == old(chatInput)
      ensures calls == old(calls)
    {
      if previewStream.Some? {
        ghost var before := previewStream.value.tracks[..];
        previewStream.value.SetEnabled(Audio, previewMuted);
        previewMuted := !previewMuted;
        if old(PreviewSynced()) {
          WithEnabledSyncs(before, Audio, !previewMuted, Video, previewVideoOn);
        }
      }
    }

    /** `togglePreviewVideo`: the same for the camera. */
    method TogglePreviewVideo()
      modifies this, if previewStream.Some? then {previewStream.value.tracks} else {}
      ensures previewStream == old(previewStream)
      ensures old(previewStream).None? ==> previewVideoOn == old(previewVideoOn)
      ensures old(previewStream).Some? ==>
        previewVideoOn == !old(previewVideoOn)
        && previewStream.value.tracks[..] == WithEnabled(old(previewStream.value.tracks[..]), Video, previewVideoOn)
      ensures old(PreviewSynced()) ==> PreviewSynced()
      ensures previewMuted == old(previewMuted) && showPreview == old(showPreview)
      ensures showChat == old(showChat) && chatMessages == old(chatMessages) && chatInput == old(chatInput)
      ensures calls == old(calls)
    {
      if previewStream.Some? {
        ghost var before := previewStream.value.tracks[..];
        previewStream.value.SetEnabled(Video, !previewVideoOn);
        previewVideoOn := !previewVideoOn;
        if old(PreviewSynced()) {
          WithEnabledSyncs(before, Video, previewVideoOn, Audio, !previewMuted);
        }
      }
    }

    /** `handleJoinNow`: the preview's tracks are stopped, the preview is
        hidden, and the room is joined with the microphone and camera as the
        preview left them. */
    method HandleJoinNow()
      modifies this, if previewStream.Some? then {previewStream.value.tracks} else {}
      ensures previewStream == old(previewStream)
      ensures old(previewStream).Some? ==>
        previewStream.value.tracks[..] == AllStopped(old(previewStream.value.tracks[..]))
      ensures !showPreview
      ensures calls == old(calls) + [JoinCall(!previewMuted, previewVideoOn)]
      ensures previewMuted == old(previewMuted) && previewVideoOn == old(previewVideoOn)
      ensures showChat == old(showChat) && chatMessages == old(chatMessages) && chatInput == old(chatInput)
    {
      if previewStream.Some? {
        previewStream.value.StopAll();
      }
      showPreview := false;
      calls := calls + [JoinCall(!previewMuted, previewVideoOn)];
    }

    /** `handleLeave`: the hook's leave, then the page's `onLeave`. */
    method HandleLeave()
      modifies this
      ensures calls == old(calls) + [LeaveCall, OnLeaveCall]
      ensures showPreview == old(showPreview) && previewStream == old(previewStream)
      ensures previewMuted == old(previewMuted) && previewVideoOn == old(previewVideoOn)
      ensures showChat == old(showChat) && chatMessages == old(chatMessages) && chatInput == old(chatInput)
    {
      calls := calls + [LeaveCall];
      calls := calls + [OnLeaveCall];
    }

    /** Typing in the chat box. */
    method SetChatInput(text: string)
      modifies this
      ensures chatInput == text
      ensures showPreview == old(showPreview) && previewStream == old(previewStream)
      ensures previewMuted == old(previewMuted) && previewVideoOn == old(previewVideoOn)
      ensures showChat == old(showChat) && chatMessages == old(chatMessages) && calls == old(calls)
    {
      chatInput := text;
    }

    /** `sendMessage` at time `now`: whitespace alone is ignored; otherwise
        one message from "You" with the text as typed is appended and the
        box is cleared. */
    method SendMessage(now: int)
      modifies this
      ensures IsBlank(old(chatInput)) ==> chatMessages == old(chatMessages) && chatInput == old(chatInput)
      ensures !IsBlank(old(chatInput)) ==>
        chatMessages == old(chatMessages) + [ChatMessage(IntToString(now), "You", old(chatInput), now)]
        && chatInput == ""
      ensures showPreview == old(showPreview) && previewStream == old(previewStream)
      ensures previewMuted == old(previewMuted) && previewVideoOn == old(previewVideoOn)
      ensures showChat == old(showChat) && calls == old(calls)
    {
      if IsBlank(chatInput) {
        return;
      }
      chatMessages := chatMessages + [ChatMessage(IntToString(now), "You", chatInput, now)];
      chatInput := "";
    }
  }

  /** A message sent right after another has nothing to send: the box was
      cleared, so the chat grows by one message, not two. */
  method SendTwice(v: RoomView, now: int, later: int)
    modifies v
    ensures |v.chatMessages| == |old(v.chatMessages)| + (if IsBlank(old(v.chatInput)) then 0 else 1)
  {
    v.SendMessage(now);
    BlankIff("");
    v.SendMessage(later);
  }
}
