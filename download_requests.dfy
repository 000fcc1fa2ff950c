/** The admin list of download requests: each request shown with its media,
    requester and reason, and approve/deny buttons on the pending ones that
    record the decision with the reviewer and the time. */
module DownloadRequests {
  import opened Js
  import opened Ui
  import opened Schema

  /** The requester's profile and the requested media, as the two lookups
      return them. */
  datatype RequesterProfile = RequesterProfile(fullName: string, email: string)
  datatype RequestedMedia = RequestedMedia(title: string, mediaType: string)

  /** A `download_requests` row with its looked-up details. */
  datatype DownloadRequest = DownloadRequest(
    id: string,
    status: DownloadRequestStatus,
    requestReason: Option<string>,
    userId: string,
    mediaId: string,
    userProfile: Option<RequesterProfile>,
    media: Option<RequestedMedia>)

  /** The enumeration value as the database spells it. */
  function StatusName(s: DownloadRequestStatus): string {
    match s
    case RequestPending => "pending"
    case Approved => "approved"
    case Denied => "denied"
  }

  // -------------------------------------------------------------------
  // Cells
  // -------------------------------------------------------------------

  datatype MediaIcon = VideoIcon | MusicIcon | FileTextIcon

  /** `getMediaIcon`: video and audio have their own icons, every other
      type the document icon. */
  function MediaIconFor(mediaType: string): (icon: MediaIcon)
    ensures icon == VideoIcon <==> mediaType == "video"
    ensures icon == MusicIcon <==> mediaType == "audio"
    ensures icon == FileTextIcon <==> mediaType != "video" && mediaType != "audio"
  {
    if mediaType == "video" then VideoIcon
    else if mediaType == "audio" then MusicIcon
    else FileTextIcon
  }

  /** `getStatusBadge`: the badge's text. */
  function StatusBadge(s: DownloadRequestStatus): (badge: string)
    ensures badge == "Approved" <==> s == Approved
    ensures badge == "Denied" <==> s == Denied
    ensures badge == "Pending" <==> s == RequestPending
  {
    match s
    case Approved => "Approved"
    case Denied => "Denied"
    case RequestPending => "Pending"
  }

  /** `request.media?.title || "Unknown"`. */
  function MediaTitle(r: DownloadRequest): (t: string)
    ensures t != ""
    ensures r.media.Some? && r.media.value.title != "" ==> t == r.media.value.title
  {
    if r.media.Some? && r.media.value.title != "" then r.media.value.title else "Unknown"
  }

  /** `request.user_profile?.full_name || "Unknown"`. */
  function RequesterName(r: DownloadRequest): (t: string)
    ensures t != ""
    ensures r.userProfile.Some? && r.userProfile.value.fullName != "" ==> t == r.userProfile.value.fullName
  {
    if r.userProfile.Some? && r.userProfile.value.fullName != "" then r.userProfile.value.fullName else "Unknown"
  }

  /** `request.request_reason || "No reason provided"`. */
  function ReasonText(r: DownloadRequest): (t: string)
    ensures t != ""
    ensures r.requestReason.Some? && r.requestReason.value != "" ==> t == r.requestReason.value
  {
    if r.requestReason.Some? && r.requestReason.value != "" then r.requestReason.value else "No reason provided"
  }

  // -------------------------------------------------------------------
  // Decisions
  // -------------------------------------------------------------------

  /** The buttons of a row: approve and deny, on pending requests only. */
  function Decisions(r: DownloadRequest): (r': set<DownloadRequestStatus>)
    ensures r' == {} <==> r.status != RequestPending
    ensures r' != {} ==> r' == {Approved, Denied}
  {
    if r.status == RequestPending then {Approved, Denied} else {}
  }

  /** The write `updateRequestStatus` sends. */
  datatype ReviewWrite = ReviewWrite(id: string, status: DownloadRequestStatus, reviewedBy: Option<string>, reviewedAt: int)

  /** The table once a review has landed: the request with that id takes the
      new status, every other row is untouched. */
  function Reviewed(table: seq<DownloadRequest>, w: ReviewWrite): (r: seq<DownloadRequest>)
    ensures |r| == |table|
    ensures forall i :: 0 <= i < |table| && table[i].id == w.id ==> r[i] == table[i].(status := w.status)
    ensures forall i :: 0 <= i < |table| && table[i].id != w.id ==> r[i] == table[i]
  {
    seq(|table|, i requires 0 <= i < |table| => if table[i].id == w.id then table[i].(status := w.status) else table[i])
  }

  /** A decision is final: once a request has been approved or denied it
      offers no more buttons, and it keeps every other column. */
  lemma DecisionIsFinal(table: seq<DownloadRequest>, r: DownloadRequest, status: DownloadRequestStatus,
                        reviewer: Option<string>, now: int)
    requires r in table && status in Decisions(r)
    ensures forall x :: x in Reviewed(table, ReviewWrite(r.id, status, reviewer, now)) && x.id == r.id ==>
      Decisions(x) == {} && x.status == status
  {
  }

  /** The toast after a decision. */
  function DecisionToast(status: DownloadRequestStatus, result: WriteOutcome): (t: Toast)
    ensures result.WriteFailed? ==> t == Toast("Error", "Failed to update request", true)
    ensures result.Written? ==> !t.destructive && (t.title == "Approved" <==> status == Approved)
    ensures result.Written? ==> t.description == "Download request " + StatusName(status)
  {
    if result.WriteFailed? then Toast("Error", "Failed to update request", true)
    else Toast(if status == Approved then "Approved" else "Denied", "Download request " + StatusName(status), false)
  }

  /** The rows `fetchRequests` builds: each request with its profile and its
      media when the lookup found one. */
  function WithDetails(rows: seq<DownloadRequest>, profileFor: string -> Option<RequesterProfile>,
                       mediaFor: string -> Option<RequestedMedia>): (r: seq<DownloadRequest>)
    ensures |r| == |rows|
    ensures forall i :: 0 <= i < |rows| ==>
      r[i] == rows[i].(userProfile := profileFor(rows[i].userId), media := mediaFor(rows[i].mediaId))
  {
    seq(|rows|, i requires 0 <= i < |rows| =>
      rows[i].(userProfile := profileFor(rows[i].userId), media := mediaFor(rows[i].mediaId)))
  }

  class RequestsAdmin {
    var requests: seq<DownloadRequest>
    var loading: bool
    var writes: seq<ReviewWrite>
    var toasts: seq<Toast>
    /** How many times the list was fetched again after a decision. */
    var refetches: nat

    constructor ()
      ensures requests == [] && loading && writes == [] && toasts == [] && refetches == 0
    {
      requests, loading, writes, toasts, refetches := [], true, [], [], 0;
    }

    /** `fetchRequests` with the list query's answer and the two lookups. */
    method FetchRequests(result: Attempt<Option<seq<DownloadRequest>>>,
                         profileFor: string -> Option<RequesterProfile>, mediaFor: string -> Option<RequestedMedia>)
      modifies this
      ensures result.Fail? ==>
        requests == old(requests) && toasts == old(toasts) + [Toast("Error", "Failed to fetch requests", true)]
      ensures result.Ok? ==>
        requests == WithDetails(result.value.GetOr([]), profileFor, mediaFor) && toasts == old(toasts)
      ensures !loading && writes == old(writes) && refetches == old(refetches)
    {
      if result.Fail? {
        toasts := toasts + [Toast("Error", "Failed to fetch requests", true)];
        loading := false;
        return;
      }
      requests := WithDetails(result.value.GetOr([]), profileFor, mediaFor);
      loading := false;
    }

    /** `updateRequestStatus(id, status)` by `reviewer` at time `now`; on
        success the list is fetched again. */
    method UpdateRequestStatus(id: string, status: DownloadRequestStatus, reviewer: Option<string>, now: int,
                               result: WriteOutcome)
      modifies this
      ensures writes == old(writes) + [ReviewWrite(id, status, reviewer, now)]
      ensures toasts == old(toasts) + [DecisionToast(status, result)]
      ensures refetches == old(refetches) + (if result.Written? then 1 else 0)
      ensures requests == old(requests) && loading == old(loading)
    {
      writes := writes + [ReviewWrite(id, status, reviewer, now)];
      toasts := toasts + [DecisionToast(status, result)];
      if result.Written? {
        refetches := refetches + 1;
      }
    }
  }
}
