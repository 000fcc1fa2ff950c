/** The public prayer page: the lists of live and scheduled sessions with
    their participant counts, the join dialog with its microphone and camera
    choices, and the switch to the prayer room once the user confirms. A
    visitor who is not signed in is sent to the sign-in page instead. */
module PrayerPage {
  import opened Js
  import opened Schema
  import PrayerSessionAdmin

  class PrayerPage {
    var showJoinDialog: bool
    var selectedSession: Option<PrayerSession>
    var audioEnabled: bool
    var videoEnabled: bool
    var inRoom: bool
    var participantCounts: map<string, nat>
    /** The routes navigated to, in order. */
    var navigations: seq<string>

    constructor ()
      ensures !showJoinDialog && selectedSession == None && !audioEnabled && !videoEnabled && !inRoom
      ensures participantCounts == map[] && navigations == []
    {
      showJoinDialog, selectedSession, audioEnabled, videoEnabled, inRoom := false, None, false, false, false;
      participantCounts, navigations := map[], [];
    }

    /** The page shows the prayer room instead of the lists. */
    predicate RoomShown()
      reads this
    {
      inRoom && selectedSession.Some?
    }

    /** `fetchParticipantCounts` over the live then the scheduled sessions,
        with each count query's answer; the same loop as the admin table. */
    method FetchParticipantCounts(live: seq<PrayerSession>, scheduled: seq<PrayerSession>, countFor: string -> Option<nat>)
      modifies this
      ensures forall id :: id in participantCounts <==> exists s :: s in live + scheduled && s.id == id
      ensures forall id :: id in participantCounts ==> participantCounts[id] == countFor(id).GetOr(0)
      ensures showJoinDialog == old(showJoinDialog) && selectedSession == old(selectedSession)
      ensures audioEnabled == old(audioEnabled) && videoEnabled == old(videoEnabled) && inRoom == old(inRoom)
      ensures navigations == old(navigations)
    {
      participantCounts := PrayerSessionAdmin.CountParticipants(live + scheduled, countFor);
    }

    /** `handleJoinSession(session)`: without a signed-in user the page goes
        to /auth and nothing else changes; otherwise the session is selected
        and the dialog opens. */
    method HandleJoinSession(session: PrayerSession, user: Option<string>)
      modifies this
      ensures user.None? ==>
        navigations == old(navigations) + ["/auth"]
        && selectedSession == old(selectedSession) && showJoinDialog == old(showJoinDialog)
      ensures user.Some? ==>
        navigations == old(navigations) && selectedSession == Some(session) && showJoinDialog
      ensures audioEnabled == old(audioEnabled) && videoEnabled == old(videoEnabled) && inRoom == old(inRoom)
      ensures participantCounts == old(participantCounts)
    {
      if user.None? {
        navigations := navigations + ["/auth"];
        return;
      }
      selectedSession := Some(session);
      showJoinDialog := true;
    }

    /** The "Join Live Prayer" button: the first live session, if there is
        one. */
    method JoinLivePrayer(liveSessions: seq<PrayerSession>, user: Option<string>)
      modifies this
      ensures liveSessions == [] ==>
        navigations == old(navigations) && selectedSession == old(selectedSession)
        && showJoinDialog == old(showJoinDialog)
      ensures liveSessions != [] && user.None? ==>
        navigations == old(navigations) + ["/auth"]
        && selectedSession == old(selectedSession) && showJoinDialog == old(showJoinDialog)
      ensures liveSessions != [] && user.Some? ==>
        navigations == old(navigations) && selectedSession == Some(liveSessions[0]) && showJoinDialog
      ensures audioEnabled == old(audioEnabled) && videoEnabled == old(videoEnabled) && inRoom == old(inRoom)
      ensures participantCounts == old(participantCounts)
    {
      if liveSessions != [] {
        HandleJoinSession(liveSessions[0], user);
      }
    }

    /** The dialog's Mic and Video buttons only flip their own flag. */
    method ToggleAudio()
      modifies this
      ensures audioEnabled == !old(audioEnabled)
      ensures showJoinDialog == old(showJoinDialog) && selectedSession == old(selectedSession)
      ensures videoEnabled == old(videoEnabled) && inRoom == old(inRoom)
      ensures participantCounts == old(participantCounts) && navigations == old(navigations)
    {
      audioEnabled := !audioEnabled;
    }

    method ToggleVideo()
      modifies this
      ensures videoEnabled == !old(videoEnabled)
      ensures showJoinDialog == old(showJoinDialog) && selectedSession == old(selectedSession)
      ensures audioEnabled == old(audioEnabled) && inRoom == old(inRoom)
      ensures participantCounts == old(participantCounts) && navigations == old(navigations)
    {
      videoEnabled := !videoEnabled;
    }

    /** The dialog's Cancel button. */
    method CancelJoin()
      modifies this
      ensures !showJoinDialog
      ensures selectedSession == old(selectedSession) && audioEnabled == old(audioEnabled)
      ensures videoEnabled == old(videoEnabled) && inRoom == old(inRoom)
      ensures participantCounts == old(participantCounts) && navigations == old(navigations)
    {
      showJoinDialog := false;
    }

    /** `handleConfirmJoin`: the dialog closes and the room opens. */
    method HandleConfirmJoin()
      modifies this
      ensures !showJoinDialog && inRoom
      ensures selectedSession == old(selectedSession) && audioEnabled == old(audioEnabled)
      ensures videoEnabled == old(videoEnabled)
      ensures participantCounts == old(participantCounts) && navigations == old(navigations)
    {
      showJoinDialog := false;
      inRoom := true;
    }

    /** `handleLeaveRoom`: back to the lists, with nothing selected. */
    method HandleLeaveRoom()
      modifies this
      ensures !inRoom && selectedSession == None && !RoomShown()
      ensures showJoinDialog == old(showJoinDialog) && audioEnabled == old(audioEnabled)
      ensures videoEnabled == old(videoEnabled)
      ensures participantCounts == old(participantCounts) && navigations == old(navigations)
    {
      inRoom := false;
      selectedSession := None;
    }
  }

  /** The whole join flow from the lists: a signed-in user who picks a
      session and confirms sees that session's room (`shown`), and leaving
      returns to the lists; a visitor who is not signed in is sent to
      /auth, no dialog opens and no room is shown. */
  method JoinFlow(page: PrayerPage, session: PrayerSession, user: Option<string>) returns (shown: Option<string>)
    requires !page.inRoom && !page.showJoinDialog
    modifies page
    ensures user.Some? ==> shown == Some(session.id)
    ensures user.None? ==> shown == None && page.navigations == old(page.navigations) + ["/auth"]
    ensures !page.RoomShown() && page.selectedSession == None
  {
    page.HandleJoinSession(session, user);
    if page.showJoinDialog {
      page.HandleConfirmJoin();
    }
    shown := if page.RoomShown() then Some(page.selectedSession.value.id) else None;
    page.HandleLeaveRoom();
  }
}
