/** The rows and enumerations of the hosted database that the screens read
    and write. Timestamps are whole milliseconds; identifiers are strings. */
module Schema {
  import opened Js

  datatype AppRole = Admin | Moderator | User
  datatype DownloadRequestStatus = RequestPending | Approved | Denied
  datatype MediaType = VideoMedia | AudioMedia | PdfMedia | TextMedia
  datatype PrayerSessionStatus = Scheduled | Active | Ended
  datatype RecordingStatus = RecordingPending | Saved | Discarded
  datatype StreamStatus = StreamScheduled | Live | StreamEnded | Cancelled

  /** The enumeration value as the database spells it. */
  function MediaTypeName(t: MediaType): string {
    match t
    case VideoMedia => "video"
    case AudioMedia => "audio"
    case PdfMedia => "pdf"
    case TextMedia => "text"
  }

  datatype PrayerSession = PrayerSession(
    id: string,
    title: string,
    status: PrayerSessionStatus,
    maxParticipants: int)

  /** A `prayer_participants` row (`left_at` is null while present). */
  datatype ParticipantRow = ParticipantRow(
    id: string,
    sessionId: string,
    userId: string,
    isMuted: bool,
    leftAt: Option<int>)

  /** A `media_content` row, with the columns the screens act on. */
  datatype MediaRow = MediaRow(
    id: string,
    title: string,
    mediaType: MediaType,
    isPublished: Option<bool>,
    viewCount: Option<int>,
    fileUrl: Option<string>)

  /** A `live_streams` row, with the columns the screens act on. */
  datatype LiveStreamRow = LiveStreamRow(
    id: string,
    status: StreamStatus,
    startedAt: Option<int>,
    endedAt: Option<int>,
    recordingStatus: Option<RecordingStatus>,
    recordingUrl: Option<string>)
}
