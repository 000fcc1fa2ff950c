/** The admin live-stream screen: the Go Live dialog with its camera
    preview, the table of streams whose buttons depend on each row's
    status, and the writes behind those buttons. Starting the broadcast
    itself is the live-stream hook's job; here it is a recorded call whose
    outcome is a parameter. */
module StreamManagement {
  import opened Js
  import opened Ui
  import opened Text
  import opened Media
  import opened Schema
  import Recordings
  import opened LiveStreamHook

  // -------------------------------------------------------------------
  // Go Live validation
  // -------------------------------------------------------------------

  /** The reason `handleGoLive` refuses to start, if any. */
  function GoLiveError(title: string, source: StreamSource, externalUrl: string): (r: Option<string>)
    ensures r.None? <==> !IsBlank(title) && (source == External ==> !IsBlank(externalUrl))
  {
    if IsBlank(title) then Some("Please enter a stream title")
    else if source == External && IsBlank(externalUrl) then Some("Please enter an external stream URL")
    else None
  }

  /** The Go Live button's `disabled`. */
  predicate GoLiveDisabled(title: string, isStarting: bool, source: StreamSource, externalUrl: string) {
    IsBlank(title) || isStarting || (source == External && IsBlank(externalUrl))
  }

  /** The button is disabled exactly when the handler would refuse, or a
      start is under way. */
  lemma DisabledIffRefused(title: string, isStarting: bool, source: StreamSource, externalUrl: string)
    ensures GoLiveDisabled(title, isStarting, source, externalUrl)
            <==> isStarting || GoLiveError(title, source, externalUrl).Some?
  {
  }

  // -------------------------------------------------------------------
  // The streams table
  // -------------------------------------------------------------------

  datatype StreamAction = StartAction | StopAction | SaveAction | DiscardAction | ViewAction

  /** The buttons of a row. */
  function Offered(row: LiveStreamRow): (r: set<StreamAction>)
    ensures StartAction in r <==> row.status == StreamScheduled
    ensures StopAction in r <==> row.status == Live
    ensures SaveAction in r <==> row.status == StreamEnded && row.recordingStatus == Some(RecordingPending)
    ensures DiscardAction in r <==> SaveAction in r
    ensures ViewAction in r <==> row.status == StreamEnded && row.recordingUrl.Some? && row.recordingUrl.value != ""
  {
    (if row.status == StreamScheduled then {StartAction} else {})
    + (if row.status == Live then {StopAction} else {})
    + (if row.status == StreamEnded && row.recordingStatus == Some(RecordingPending) then {SaveAction, DiscardAction} else {})
    + (if row.status == StreamEnded && row.recordingUrl.Some? && row.recordingUrl.value != "" then {ViewAction} else {})
  }

  /** A row never offers both Start and Stop, nor the recording buttons
      before the stream has ended. */
  lemma OfferedExclusive(row: LiveStreamRow)
    ensures !(StartAction in Offered(row) && StopAction in Offered(row))
    ensures SaveAction in Offered(row) ==> StartAction !in Offered(row) && StopAction !in Offered(row)
  {
  }

  /** The writes to `live_streams` this screen sends: Start sets the status
      live and `started_at`, Stop sets it ended and `ended_at`, both with
      the time of the click. */
  datatype AdminWrite =
    | StartWrite(id: string, startedAt: int)
    | StopWrite(id: string, endedAt: int)
    | SetRecordingStatus(id: string, recordingStatus: RecordingStatus)
    | SetRecording(id: string, recordingStatus: RecordingStatus, url: Option<string>)

  /** The row once a write for it has landed. */
  function Applied(row: LiveStreamRow, w: AdminWrite): (r: LiveStreamRow)
    requires w.id == row.id
    ensures r.id == row.id
  {
    match w
    case StartWrite(_, t) => row.(status := Live, startedAt := Some(t))
    case StopWrite(_, t) => row.(status := StreamEnded, endedAt := Some(t))
    case SetRecordingStatus(_, rs) => row.(recordingStatus := Some(rs))
    case SetRecording(_, rs, url) => row.(recordingStatus := Some(rs), recordingUrl := url)
  }

  /** The write behind each button at time `now` (Save with the URL typed
      in its dialog). */
  function WriteFor(row: LiveStreamRow, a: StreamAction, url: string, now: int): Option<AdminWrite> {
    match a
    case StartAction => Some(StartWrite(row.id, now))
    case StopAction => Some(StopWrite(row.id, now))
    case SaveAction => Some(SetRecording(row.id, Saved, OrNull(url)))
    case DiscardAction => Some(SetRecordingStatus(row.id, Discarded))
    case ViewAction => None
  }

  /** The lifecycle a row may follow: scheduled, then live with a start
      time, then ended with an end time; an ended stream's pending
      recording is then saved or discarded. */
  predicate Step(before: LiveStreamRow, after: LiveStreamRow) {
    after.id == before.id
    && ((before.status == StreamScheduled && after.startedAt.Some?
         && after == before.(status := Live, startedAt := after.startedAt))
        || (before.status == Live && after.endedAt.Some?
            && after == before.(status := StreamEnded, endedAt := after.endedAt))
        || (before.status == StreamEnded && before.recordingStatus == Some(RecordingPending)
            && after.status == StreamEnded && after.recordingStatus in {Some(Saved), Some(Discarded)}
            && after.startedAt == before.startedAt && after.endedAt == before.endedAt))
  }

  /** Every button the table offers moves its row one step along the
      lifecycle, stamps Start and Stop with the click's time, and changes
      nothing else but the recording URL on Save. */
  lemma OfferedFollowLifecycle(row: LiveStreamRow, a: StreamAction, url: string, now: int)
    requires a in Offered(row) && a != ViewAction
    ensures WriteFor(row, a, url, now).Some?
    ensures Step(row, Applied(row, WriteFor(row, a, url, now).value))
    ensures a == StartAction ==> Applied(row, WriteFor(row, a, url, now).value).startedAt == Some(now)
    ensures a == StopAction ==> Applied(row, WriteFor(row, a, url, now).value).endedAt == Some(now)
    ensures a != SaveAction ==> Applied(row, WriteFor(row, a, url, now).value).recordingUrl == row.recordingUrl
  {
  }

  /** Starting a scheduled stream at `t1` and stopping it at `t2` leaves
      the two timestamps the recordings page reads, so the duration it
      shows is the one between the two clicks; under a minute and a half
      that is "1m". */
  lemma StartThenStopShowsDuration(row: LiveStreamRow, t1: int, t2: int)
    requires row.status == StreamScheduled
    ensures var after := Applied(Applied(row, StartWrite(row.id, t1)), StopWrite(row.id, t2));
      after.status == StreamEnded && after.startedAt == Some(t1) && after.endedAt == Some(t2)
      && Recordings.FormatDuration(after.startedAt, after.endedAt) != ""
      && (t2 - t1 < 90000 ==> Recordings.FormatDuration(after.startedAt, after.endedAt) == "1m")
  {
    var after := Applied(Applied(row, StartWrite(row.id, t1)), StopWrite(row.id, t2));
    var minutes := Recordings.Minutes(t2 - t1);
    var (h, m) := Recordings.HoursAndMinutes(minutes);
    if h > 0 {
      assert (NatToString(h) + "h " + NatToString(m) + "m")[|NatToString(h) + "h " + NatToString(m)|] == 'm';
    } else {
      assert (NatToString(minutes) + "m")[|NatToString(minutes)|] == 'm';
    }
    if t2 - t1 < 90000 {
      Recordings.ShortRecordingsShowOneMinute(t1, t2);
    }
  }

  /** The recording column: saved, discarded, or pending for anything else
      including no status. */
  function RecordingBadge(status: Option<RecordingStatus>): (badge: string)
    ensures badge == "Saved" <==> status == Some(Saved)
    ensures badge == "Discarded" <==> status == Some(Discarded)
    ensures badge == "Pending" <==> status.None? || status == Some(RecordingPending)
  {
    match status
    case Some(Saved) => "Saved"
    case Some(Discarded) => "Discarded"
    case _ => "Pending"
  }

  datatype RecordingCard = NoPreview | YouTubeCard | VideoPlayer

  /** A saved recording's card: a YouTube badge exactly for URLs that contain
      "youtube.com" or "youtu.be", a player for other URLs. */
  function CardFor(url: Option<string>): (c: RecordingCard)
    ensures c == NoPreview <==> url.None? || url.value == ""
    ensures c == YouTubeCard <==> url.Some? && url.value != "" && Recordings.IsYouTubeUrl(url.value)
  {
    if url.None? || url.value == "" then NoPreview
    else if Recordings.IsYouTubeUrl(url.value) then YouTubeCard
    else VideoPlayer
  }

  /** The screen's cards and the recordings page agree: whatever the
      recordings page can embed is shown here with the YouTube badge. */
  lemma EmbeddableIsYouTubeCard(url: string)
    requires Recordings.GetEmbedUrl(url).Some?
    ensures CardFor(Some(url)) == YouTubeCard
  {
    Recordings.EmbedUrlIsYouTube(url);
  }

  /** Every field of the screen, for "nothing else changes". */
  datatype AdminState = AdminState(
    liveTitle: string,
    liveDescription: string,
    source: StreamSource,
    externalUrl: string,
    isStarting: bool,
    showGoLiveDialog: bool,
    previewStream: Option<MediaStream>,
    isVideoEnabled: bool,
    isAudioEnabled: bool,
    selectedStream: Option<LiveStreamRow>,
    recordingUrl: string,
    showSaveDialog: bool,
    starts: seq<StartCall>,
    writes: seq<AdminWrite>,
    toasts: seq<Toast>)

  class StreamAdmin {
    var liveTitle: string
    var liveDescription: string
    var source: StreamSource
    var externalUrl: string
    var isStarting: bool
    var showGoLiveDialog: bool
    var previewStream: Option<MediaStream>
    var isVideoEnabled: bool
    var isAudioEnabled: bool
    var selectedStream: Option<LiveStreamRow>
    var recordingUrl: string
    var showSaveDialog: bool
    var starts: seq<StartCall>
    var writes: seq<AdminWrite>
    var toasts: seq<Toast>

    function Snapshot(): AdminState
      reads this
    {
      AdminState(liveTitle, liveDescription, source, externalUrl, isStarting, showGoLiveDialog,
                 previewStream, isVideoEnabled, isAudioEnabled, selectedStream, recordingUrl,
                 showSaveDialog, starts, writes, toasts)
    }

    constructor ()
      ensures Snapshot() == AdminState("", "", Camera, "", false, false, None, true, true, None, "", false, [], [], [])
    {
      liveTitle, liveDescription, source, externalUrl := "", "", Camera, "";
      isStarting, showGoLiveDialog, previewStream, isVideoEnabled, isAudioEnabled := false, false, None, true, true;
      selectedStream, recordingUrl, showSaveDialog := None, "", false;
      starts, writes, toasts := [], [], [];
    }

    /** `togglePreviewVideo`: without a preview, or without a video track,
        nothing happens; otherwise the first video track flips and the flag
        follows it. */
    method TogglePreviewVideo()
      modifies this, if previewStream.Some? then {previewStream.value.tracks} else {}
      ensures Snapshot() == old(Snapshot()).(isVideoEnabled := isVideoEnabled)
      ensures previewStream.Some? ==>
        previewStream.value.tracks[..] == FlippedFirst(old(previewStream.value.tracks[..]), Video)
      ensures previewStream.Some? && FirstOfKind(old(previewStream.value.tracks[..]), Video).Some? ==>
        isVideoEnabled == previewStream.value.tracks[FirstOfKind(old(previewStream.value.tracks[..]), Video).value].enabled
      ensures previewStream.None? || FirstOfKind(old(previewStream.value.tracks[..]), Video).None? ==>
        isVideoEnabled == old(isVideoEnabled)
    {
      if previewStream.Some? {
        var now := previewStream.value.FlipFirst(Video);
        if now.Some? {
          isVideoEnabled := now.value;
        }
      }
    }

    /** `togglePreviewAudio`, the same for the first audio track. */
    method TogglePreviewAudio()
      modifies this, if previewStream.Some? then {previewStream.value.tracks} else {}
      ensures Snapshot() == old(Snapshot()).(isAudioEnabled := isAudioEnabled)
      ensures previewStream.Some? ==>
        previewStream.value.tracks[..] == FlippedFirst(old(previewStream.value.tracks[..]), Audio)
      ensures previewStream.Some? && FirstOfKind(old(previewStream.value.tracks[..]), Audio).Some? ==>
        isAudioEnabled == previewStream.value.tracks[FirstOfKind(old(previewStream.value.tracks[..]), Audio).value].enabled
      ensures previewStream.None? || FirstOfKind(old(previewStream.value.tracks[..]), Audio).None? ==>
        isAudioEnabled == old(isAudioEnabled)
    {
      if previewStream.Some? {
        var now := previewStream.value.FlipFirst(Audio);
        if now.Some? {
          isAudioEnabled := now.value;
        }
      }
    }

    /** `handleGoLive`; `startSucceeds` says whether the hook's `startStream`
        resolved or threw. A refusal only toasts; otherwise the preview is
        stopped and dropped, one start is requested, and `isStarting` ends
        false whichever way the start went. */
    method HandleGoLive(startSucceeds: bool)
      modifies this, if previewStream.Some? then {previewStream.value.tracks} else {}
      ensures GoLiveError(old(liveTitle), old(source), old(externalUrl)).Some? ==>
        Snapshot() == old(Snapshot()).(toasts := old(toasts)
          + [Toast("Error", GoLiveError(old(liveTitle), old(source), old(externalUrl)).value, true)])
      ensures GoLiveError(old(liveTitle), old(source), old(externalUrl)).None? ==>
        (old(previewStream).Some? ==> old(previewStream).value.tracks[..] == AllStopped(old(previewStream.value.tracks[..])))
      ensures GoLiveError(old(liveTitle), old(source), old(externalUrl)).None? && startSucceeds ==>
        Snapshot() == old(Snapshot()).(isStarting := false, previewStream := None,
          starts := old(starts) + [StartCall(old(liveTitle), old(liveDescription), ExternalUrlArgument(old(source), old(externalUrl)))],
          showGoLiveDialog := false, liveTitle := "", liveDescription := "", externalUrl := "")
      ensures GoLiveError(old(liveTitle), old(source), old(externalUrl)).None? && !startSucceeds ==>
        Snapshot() == old(Snapshot()).(isStarting := false, previewStream := None,
          starts := old(starts) + [StartCall(old(liveTitle), old(liveDescription), ExternalUrlArgument(old(source), old(externalUrl)))])
    {
      var error := GoLiveError(liveTitle, source, externalUrl);
      if error.Some? {
        toasts := toasts + [Toast("Error", error.value, true)];
        return;
      }
      isStarting := true;
      StopPreview();
      StartLive(startSucceeds);
    }

    /** The preview's tracks are stopped and the preview dropped. */
    method StopPreview()
      modifies this, if previewStream.Some? then {previewStream.value.tracks} else {}
      ensures Snapshot() == old(Snapshot()).(previewStream := None)
      ensures old(previewStream).Some? ==> old(previewStream).value.tracks[..] == AllStopped(old(previewStream.value.tracks[..]))
    {
      if previewStream.Some? {
        previewStream.value.StopAll();
        previewStream := None;
      }
    }

    /** The start request, the form reset after a resolved start, and
        `isStarting := false` in the `finally`. */
    method StartLive(startSucceeds: bool)
      modifies this
      ensures startSucceeds ==>
        Snapshot() == old(Snapshot()).(isStarting := false,
          starts := old(starts) + [StartCall(old(liveTitle), old(liveDescription), ExternalUrlArgument(old(source), old(externalUrl)))],
          showGoLiveDialog := false, liveTitle := "", liveDescription := "", externalUrl := "")
      ensures !startSucceeds ==>
        Snapshot() == old(Snapshot()).(isStarting := false,
          starts := old(starts) + [StartCall(old(liveTitle), old(liveDescription), ExternalUrlArgument(old(source), old(externalUrl)))])
    {
      starts := starts + [StartCall(liveTitle, liveDescription, ExternalUrlArgument(source, externalUrl))];
      if startSucceeds {
        showGoLiveDialog := false;
        liveTitle, liveDescription, externalUrl := "", "", "";
      }
      isStarting := false;
    }

    /** The Start button at time `now`: the row goes live with that start time. */
    method StartStream(row: LiveStreamRow, now: int, result: WriteOutcome)
      modifies this
      ensures Snapshot() == old(Snapshot()).(writes := old(writes) + [StartWrite(row.id, now)],
        toasts := old(toasts) + [if result.Written? then Toast("Live!", "Stream is now live", false)
                                 else Toast("Error", "Failed to start stream", true)])
    {
      writes := writes + [StartWrite(row.id, now)];
      toasts := toasts + [if result.Written? then Toast("Live!", "Stream is now live", false)
                          else Toast("Error", "Failed to start stream", true)];
    }

    /** The Stop button at time `now`: the row ends with that end time. */
    method StopStream(row: LiveStreamRow, now: int, result: WriteOutcome)
      modifies this
      ensures Snapshot() == old(Snapshot()).(writes := old(writes) + [StopWrite(row.id, now)],
        toasts := old(toasts) + [if result.Written? then Toast("Ended", "Stream has ended", false)
                                 else Toast("Error", "Failed to stop stream", true)])
    {
      writes := writes + [StopWrite(row.id, now)];
      toasts := toasts + [if result.Written? then Toast("Ended", "Stream has ended", false)
                          else Toast("Error", "Failed to stop stream", true)];
    }

    /** `updateRecordingStatus`, behind the discard button. */
    method UpdateRecordingStatus(row: LiveStreamRow, status: RecordingStatus, result: WriteOutcome)
      modifies this
      ensures Snapshot() == old(Snapshot()).(writes := old(writes) + [SetRecordingStatus(row.id, status)],
        toasts := old(toasts) + [
          if result.WriteFailed? then Toast("Error", "Failed to update recording", true)
          else if status == Saved then Toast("Saved", "Recording saved", false)
          else Toast("Discarded", "Recording discarded", false)])
    {
      writes := writes + [SetRecordingStatus(row.id, status)];
      if result.WriteFailed? {
        toasts := toasts + [Toast("Error", "Failed to update recording", true)];
      } else if status == Saved {
        toasts := toasts + [Toast("Saved", "Recording saved", false)];
      } else {
        toasts := toasts + [Toast("Discarded", "Recording discarded", false)];
      }
    }

    /** `openSaveDialog`: the dialog starts from the row's URL, null as "". */
    method OpenSaveDialog(row: LiveStreamRow)
      modifies this
      ensures Snapshot() == old(Snapshot()).(selectedStream := Some(row),
        recordingUrl := OrEmpty(row.recordingUrl), showSaveDialog := true)
    {
      selectedStream := Some(row);
      recordingUrl := OrEmpty(row.recordingUrl);
      showSaveDialog := true;
    }

    /** `saveRecordingWithUrl`: without a selected stream nothing happens;
        otherwise the recording is saved with the typed URL, "" as null,
        and only a success closes and clears the dialog. */
    method SaveRecordingWithUrl(result: WriteOutcome)
      modifies this
      ensures old(selectedStream).None? ==> Snapshot() == old(Snapshot())
      ensures old(selectedStream).Some? && result.WriteFailed? ==>
        Snapshot() == old(Snapshot()).(
          writes := old(writes) + [SetRecording(old(selectedStream).value.id, Saved, OrNull(old(recordingUrl)))],
          toasts := old(toasts) + [Toast("Error", "Failed to save recording", true)])
      ensures old(selectedStream).Some? && result.Written? ==>
        Snapshot() == old(Snapshot()).(
          writes := old(writes) + [SetRecording(old(selectedStream).value.id, Saved, OrNull(old(recordingUrl)))],
          toasts := old(toasts) + [Toast("Saved", "Recording saved successfully", false)],
          selectedStream := None, recordingUrl := "", showSaveDialog := false)
    {
      if selectedStream.None? {
        return;
      }
      writes := writes + [SetRecording(selectedStream.value.id, Saved, OrNull(recordingUrl))];
      if result.WriteFailed? {
        toasts := toasts + [Toast("Error", "Failed to save recording", true)];
      } else {
        toasts := toasts + [Toast("Saved", "Recording saved successfully", false)];
        showSaveDialog := false;
        selectedStream := None;
        recordingUrl := "";
      }
    }

    /** `deleteRecording`: a saved recording becomes discarded and loses its URL. */
    method DeleteRecording(recording: LiveStreamRow, result: WriteOutcome)
      modifies this
      ensures Snapshot() == old(Snapshot()).(writes := old(writes) + [SetRecording(recording.id, Discarded, None)],
        toasts := old(toasts) + [if result.Written? then Toast("Deleted", "Recording has been removed", false)
                                 else Toast("Error", "Failed to delete recording", true)])
    {
      writes := writes + [SetRecording(recording.id, Discarded, None)];
      toasts := toasts + [if result.Written? then Toast("Deleted", "Recording has been removed", false)
                          else Toast("Error", "Failed to delete recording", true)];
    }
  }

  /** Opening the save dialog and saving without editing the URL keeps the
      row's URL, except that an empty one is stored as null. */
  lemma SaveKeepsUntouchedUrl(row: LiveStreamRow)
    ensures Applied(row, SetRecording(row.id, Saved, OrNull(OrEmpty(row.recordingUrl)))).recordingUrl
            == if row.recordingUrl == Some("") then None else row.recordingUrl
  {
    NullEmptyRoundTrip(row.recordingUrl, "");
  }

  /** A deleted recording is discarded and has no URL, so no card or View
      button shows it again. */
  lemma DeletedRecordingHidden(row: LiveStreamRow)
    requires row.status == StreamEnded
    ensures var after := Applied(row, SetRecording(row.id, Discarded, None));
      ViewAction !in Offered(after) && SaveAction !in Offered(after) && CardFor(after.recordingUrl) == NoPreview
  {
  }
}
