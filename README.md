# A church community site, modelled in Dafny

The site is a React front end over a Supabase database for a church. Its
public pages are:

- a live-stream page and a recordings page;
- prayer rooms, where members join a session with camera and microphone and
  talk over WebRTC;
- a media library, a donation form, a profile editor, and sign-in and sign-up.

The admin screens manage media, users, streams, prayer sessions, download
requests and feedback, and show analytics.

This project models the logic of those screens and hooks once the database,
the browser's media objects and rendering are taken away. Each source file
becomes one module:

- `prayer_room_hook.dfy`: `usePrayerRoom` and the session filters of
  `usePrayerSessions`. It keeps a map from remote user id to peer
  connection, dispatches incoming signals, sends offers on join, tears down
  on leave, and holds the mute, video and hand flags.
- `live_stream_hook.dfy`: `useLiveStream`, the broadcaster's `StreamState`
  record and its refs, and the fallback stream-key generator.
- `notifications.dfy`: the notification bell's list, capped at fifty and
  newest first.
- `recordings.dfy` and `live_page.dfy`: duration formatting, and YouTube
  embed-URL rewriting.
- `auth.dfy`: the derived password and the sign-in/sign-up form.
- `media_catalog.dfy`: the media page's category and search filter.
- The admin screens: `media_management.dfy`, `user_management.dfy`,
  `analytics.dfy`, `stream_management.dfy`, `prayer_session_admin.dfy`,
  `download_requests.dfy` and `feedback.dfy`.
- `stream_controls.dfy`: the broadcaster's start and stop dialog.
- `prayer_room_view.dfy`: the prayer room screen, with its preview, grid,
  tiles and chat.
- `prayer_page.dfy`: the prayer page's join flow.
- `donate.dfy`: the donation form.
- `profile_edit.dfy`: the profile editor.

Shared modules hold the rest:

- `js.dfy`: JavaScript's null and error values.
- `text.dfy`: string operations such as `toLowerCase`, `includes`, `trim`,
  `split`, `parseInt` digits and `toString`.
- `seqs.dfy`: `filter`, `find` and count.
- `media.dfy`: media streams, tracks, peer connections and the recorder, as
  objects with a few flags.
- `schema.dfy`: the database enums and rows.
- `ui.dfy`: toasts.

How the model stands in for what it leaves out:

- Every answer from the database, the browser or the clock is a parameter
  of the operation that receives it.
- Every write, toast, navigation and channel message is appended to a log
  field, so a contract can say exactly what was sent.
- A component whose handlers update its state is a class whose methods
  modify its fields. Each method's contract states the whole new state,
  including what does not change.
- Pure helpers are functions. Each has a partner: a lemma, a reference
  definition, or an inverse.

## Model

| member | source | states |
|---|---|---|
| PrayerRoomHook.LiveSessions | src/hooks/usePrayerSession.tsx:53 | the live list holds exactly the sessions whose status is active, in their original order |
| PrayerRoomHook.ScheduledSessions | src/hooks/usePrayerSession.tsx:54 | the scheduled list holds exactly the scheduled sessions, in their original order |
| PrayerRoomHook.LiveAndScheduledDisjoint | src/hooks/usePrayerSession.tsx:53-54 | no session is in both lists, and together they are no longer than the session list |
| PrayerRoomHook.JoinErrorMessage | src/hooks/usePrayerSession.tsx:268-278 | an error whose name is in one of the four groups gets that group's fixed message; any other error keeps its own message |
| PrayerRoomHook.JoinErrorMessageByGroup | src/hooks/usePrayerSession.tsx:270-278 | for a mapped name the message does not depend on the error's own text, and each of the four messages is shown exactly for its group's names (permission, not found, busy, overconstrained) |
| PrayerRoomHook.PlainErrorsKeepTheirMessage | src/hooks/usePrayerSession.tsx:218-224 | the secure-context and media-devices checks throw plain errors, whose own text reaches the toast |
| PrayerRoomHook.SignalEffect | src/hooks/usePrayerSession.tsx:155-164 | handling a signal never closes or reopens the connection |
| PrayerRoomHook.SignalReplies | src/hooks/usePrayerSession.tsx:155-164 | a signal makes the hook send at most one message |
| PrayerRoomHook.SignalDispatch | src/hooks/usePrayerSession.tsx:155-164 | an offer sets the remote description and a local answer and sends exactly one answer, addressed to the sender; an answer only sets the remote description; an ice candidate only adds the candidate; any other type changes nothing and sends nothing |
| PrayerRoomHook.SignalIgnoresAddressee | src/hooks/usePrayerSession.tsx:150-153 | the `to` field of a signal changes neither what is done to the connection nor what is sent |
| PrayerRoomHook.UserIds | src/hooks/usePrayerSession.tsx:115 | the ids list has one entry per participant row, the row's user id, in order |
| PrayerRoomHook.JoinTargetsMembers | src/hooks/usePrayerSession.tsx:259-263 | the users offered a connection on join are exactly the listed participants other than the local user |
| PrayerRoomHook.OfferSignals | src/hooks/usePrayerSession.tsx:259-263 | the join sends one message per target |
| PrayerRoomHook.OfferSignalsAt | src/hooks/usePrayerSession.tsx:284-289 | the i-th message is an offer from the local user addressed to the i-th target, carrying that target's offer |
| PrayerRoomHook.JoinTracksFollowFlags | src/hooks/usePrayerSession.tsx:233-238 | after join the audio tracks are enabled exactly when not muted and the video tracks exactly when video is on |
| PrayerRoomHook.MuteKeepsTracksInStep | src/hooks/usePrayerSession.tsx:314-316 | toggling mute keeps the audio tracks in step with the muted flag and leaves video in step |
| PrayerRoomHook.VideoKeepsTracksInStep | src/hooks/usePrayerSession.tsx:327-329 | toggling video keeps the video tracks in step with the video flag and leaves audio in step |
| PrayerRoomHook.OfferConnection | src/hooks/usePrayerSession.tsx:284-287 | a connection for the peer is created fresh, with the captured stream's tracks and the offer as local description, and replaces any old entry for that key; every other entry stays; each key maps to a connection made for it |
| PrayerRoomHook.OfferStep | src/hooks/usePrayerSession.tsx:259-263 | one turn of the join loop extends the connections and the offers sent to one more target |
| PrayerRoomHook.OpenConnections | src/hooks/usePrayerSession.tsx:259-263 | after the join loop every target has a fresh connection holding its offer, the other entries are unchanged, and exactly the offers to the targets were sent, in order, when the channel is open |
| PrayerRoomHook.ParticipantStep | src/hooks/usePrayerSession.tsx:259-263 | one participant of the join loop: the local user is skipped, anyone else gets a fresh offer connection and one offer message |
| PrayerRoomHook.PrayerRoom.constructor | src/hooks/usePrayerSession.tsx:61-72 | the hook starts muted, with video off, the hand down, nothing connected, no connections, and a channel only when the session id is truthy (present and not empty) |
| PrayerRoomHook.PrayerRoom.FetchParticipants | src/hooks/usePrayerSession.tsx:104-133 | without a truthy session id or an answer nothing changes; otherwise the participants are exactly this session's rows with no `left_at`, in order, and the participation is the first row of the local user when signed in |
| PrayerRoomHook.PrayerRoom.BroadcastSignal | src/hooks/usePrayerSession.tsx:202-208 | one signal is sent from the local user, when the channel is open; nothing else changes |
| PrayerRoomHook.PrayerRoom.CreatePeerConnection | src/hooks/usePrayerSession.tsx:167-200 | a fresh connection with the captured stream's tracks is stored under the peer id, replacing any old entry |
| PrayerRoomHook.PrayerRoom.HandleSignal | src/hooks/usePrayerSession.tsx:149-165 | a signal from the local user changes nothing; any other signal is applied to the sender's stored connection, or to exactly one new one stored under the sender, so the map gains at most the sender's key |
| PrayerRoomHook.PrayerRoom.SignalExisting | src/hooks/usePrayerSession.tsx:153-165 | a signal from a peer with a stored connection changes that connection as the signal kind says, leaves every other connection and the map as they were, and answers an offer once |
| PrayerRoomHook.PrayerRoom.SignalNew | src/hooks/usePrayerSession.tsx:153-165 | a signal from a peer without a connection stores exactly one fresh connection under the sender, carrying the captured tracks, and applies the signal to it; earlier entries are kept |
| PrayerRoomHook.PrayerRoom.ApplySignal | src/hooks/usePrayerSession.tsx:155-164 | the connection changes as `SignalEffect` says and the replies of `SignalReplies` are sent |
| PrayerRoomHook.PrayerRoom.InitiateConnection | src/hooks/usePrayerSession.tsx:284-289 | a fresh connection always replaces any old one for the peer, holds the offer as local description, and exactly one offer is sent to the peer |
| PrayerRoomHook.PrayerRoom.ConnectToParticipants | src/hooks/usePrayerSession.tsx:259-263 | every listed participant other than the local user is offered a connection, in list order, and nothing else changes |
| PrayerRoomHook.PrayerRoom.JoinSession | src/hooks/usePrayerSession.tsx:210-282 | without a session or user nothing changes; a failed check or a refused camera is reported through the error mapping and changes nothing; a granted stream sets the tracks and the flags and requests the insert; a failed insert is reported; a successful one stores the participation, connects, and offers to every other participant |
| PrayerRoomHook.PrayerRoom.AfterInsert | src/hooks/usePrayerSession.tsx:253-265 | a failed insert is reported and changes nothing; a new row is stored, the hook is marked connected, and every other listed participant gets a connection and an offer |
| PrayerRoomHook.PrayerRoom.AdoptStream | src/hooks/usePrayerSession.tsx:231-251 | the audio and video tracks are enabled as asked, the stream is stored, muted is `!withAudio`, video is `withVideo`, and the participant insert is requested with `is_muted` set to `!withAudio` |
| PrayerRoomHook.PrayerRoom.LeaveSession | src/hooks/usePrayerSession.tsx:291-309 | without a participation nothing changes; otherwise every connection is closed, the map emptied, the local tracks stopped, `left_at` written, and the stream, remote streams, connected flag and participation cleared, so a second call changes nothing |
| PrayerRoomHook.PrayerRoom.ReleaseMedia | src/hooks/usePrayerSession.tsx:295-297 | every stored connection is closed and forgotten and every local track stopped, and nothing else about the hook changes |
| PrayerRoomHook.PrayerRoom.ToggleMute | src/hooks/usePrayerSession.tsx:311-322 | needs both a local stream and a participation; flips muted, enables the audio tracks exactly when unmuted, and writes `is_muted` |
| PrayerRoomHook.PrayerRoom.ToggleVideo | src/hooks/usePrayerSession.tsx:324-330 | needs only a local stream; flips the video flag and the video tracks and writes nothing |
| PrayerRoomHook.PrayerRoom.RaiseHand | src/hooks/usePrayerSession.tsx:332-340 | flips the hand flag and broadcasts the new value |
| PrayerRoomHook.PrayerRoom.OnIceCandidate | src/hooks/usePrayerSession.tsx:178-182 | a found candidate is sent to the connection's peer; the end-of-candidates event sends nothing |
| PrayerRoomHook.PrayerRoom.OnTrack | src/hooks/usePrayerSession.tsx:184-190 | the event's stream becomes the remote stream of the connection's peer and nothing else changes |
| LiveStreamHook.TemplatePlaceholders | src/hooks/useLiveStream.tsx:12 | the template has 31 placeholders, so the generator draws 31 random values |
| LiveStreamHook.YIsVariantDigit | src/hooks/useLiveStream.tsx:14-15 | a `y` always becomes one of 8, 9, a, b |
| LiveStreamHook.FillLength | src/hooks/useLiveStream.tsx:12-16 | the filled template is as long as the template plus one extra character for each `x` value of 16 or more, and exactly as long with masked values |
| LiveStreamHook.FillMaskedShape | src/hooks/useLiveStream.tsx:12-16 | with one hex digit per placeholder every template character keeps its place and every other character is copied |
| LiveStreamHook.GenerateIdIsUuid | src/hooks/useLiveStream.tsx:7-17 | the corrected generator gives 36 characters, dashes at 8, 13, 18 and 23, a 4 at 14, one of 8, 9, a, b at 19, and a hex digit at every `x` |
| LiveStreamHook.SmallValuesAgree | src/hooks/useLiveStream.tsx:13-15 | when every drawn value is below 16, the code as written and the corrected generator agree |
| LiveStreamHook.AsWrittenLength | src/hooks/useLiveStream.tsx:12-16 | as written, the key has 36 characters plus one for each `x` value of 16 or more, so more than 36 when the first value is |
| LiveStreamHook.AsWrittenTooLong | src/hooks/useLiveStream.tsx:12-16 | a first byte of 255 and thirty zeros give a 37-character key as written and 36 corrected |
| LiveStreamHook.MessageOr | src/hooks/useLiveStream.tsx:92 | the error's message, or the fallback exactly when the message is empty |
| LiveStreamHook.LiveStream.constructor | src/hooks/useLiveStream.tsx:30-42 | the record starts all false, null and 0, with no stream, no connections, no recorder and no chunks |
| LiveStreamHook.LiveStream.StartStream | src/hooks/useLiveStream.tsx:44-97 | the camera is asked for only without an external URL; the insert carries the title, description, `started_at` = now, the key and the URL or null; a refused camera or a failed insert is reported, rethrown and leaves the record unchanged; a successful insert sets streaming, the row id, the key and the URL or null, leaving recording and viewers as they were |
| LiveStreamHook.LiveStream.StopStream | src/hooks/useLiveStream.tsx:99-149 | the local tracks are stopped, connections closed and cleared, a running recorder stopped, `ended` written with `ended_at` = now and saved or discarded only when there is a stream id, and the record reset; a second stop changes nothing |
| LiveStreamHook.LiveStream.StartRecording | src/hooks/useLiveStream.tsx:151-183 | nothing without a local stream; otherwise the chunk list is emptied, and a recorder that can be created is started and stored and the record says recording |
| LiveStreamHook.LiveStream.OnDataAvailable | src/hooks/useLiveStream.tsx:160-164 | a chunk is appended exactly when its size is positive; the viewer count stays 0 and no connection is ever stored |
| LiveStreamHook.LiveStream.StopRecording | src/hooks/useLiveStream.tsx:185-196 | nothing without a recorder; otherwise it is stopped, the ref cleared, and the record says not recording |
| LiveStreamHook.LiveStream.RecordedBlob | src/hooks/useLiveStream.tsx:198-201 | null exactly when there are no chunks, otherwise the chunks |
| Notifications.Prepended | src/components/ui/notification.tsx:95 | the new notification comes first, the previous list follows in order, and the length is the smaller of the old length plus one and 50 |
| Notifications.MarkedRead | src/components/ui/notification.tsx:112 | every notification with the id is marked read; the others, the order and the length are unchanged |
| Notifications.AllMarkedRead | src/components/ui/notification.tsx:120 | every notification is marked read and nothing else changes |
| Notifications.UnreadCount | src/components/ui/notification.tsx:131 | the unread count is at most the list's length |
| Notifications.BadgeText | src/components/ui/notification.tsx:151-157 | the badge is hidden exactly at 0, shows the one-digit count from 1 to 9, and shows "9+" above |
| Notifications.UnreadCountIsCount | src/components/ui/notification.tsx:131 | the unread count is the number of unread notifications |
| Notifications.PrependedUnread | src/components/ui/notification.tsx:95 | below the cap, adding an unread notification adds exactly one to the unread count |
| Notifications.AllMarkedReadNoneUnread | src/components/ui/notification.tsx:118-124 | after marking all read the unread count is 0 |
| Notifications.MarkedReadIdempotent | src/components/ui/notification.tsx:110-116 | marking an id read twice is marking it once |
| Notifications.MarkedReadUnread | src/components/ui/notification.tsx:110-116 | marking one id read never raises the unread count and leaves every other notification as it was |
| Notifications.NotificationCenter.constructor | src/components/ui/notification.tsx:22-23 | the list starts empty and the panel closed |
| Notifications.NotificationCenter.Fetch | src/components/ui/notification.tsx:73-84 | the stored list is loaded when there is one; otherwise the list stays |
| Notifications.NotificationCenter.Add | src/components/ui/notification.tsx:86-108 | an unread notification with the current time as id goes first, the list is capped at 50 and stored, the unread count rises by one below the cap, and a browser notification is shown only with permission |
| Notifications.NotificationCenter.OnStreamLive | src/components/ui/notification.tsx:31-47 | a stream going live adds "Live Stream Started!", "<title> is now live", linking to /live |
| Notifications.NotificationCenter.OnPrayerActive | src/components/ui/notification.tsx:49-65 | a session becoming active adds "Prayer Session Started!", "<title> is now active", linking to /prayer |
| Notifications.NotificationCenter.MarkAsRead | src/components/ui/notification.tsx:110-116 | the list becomes `MarkedRead` of the old one and is stored; the unread count does not rise |
| Notifications.NotificationCenter.Click | src/components/ui/notification.tsx:206-210 | a click marks the notification read and goes to its link only when the link is non-empty |
| Notifications.NotificationCenter.MarkAllAsRead | src/components/ui/notification.tsx:118-124 | every notification is marked read, the list is stored, and nothing is unread |
| Notifications.NotificationCenter.ClearAll | src/components/ui/notification.tsx:126-129 | the list and its stored copy are gone |
| Notifications.NotificationCenter.ToggleOpen | src/components/ui/notification.tsx:148 | the bell flips the panel and changes nothing else |
| Recordings.RoundToMinutesNearest | src/pages/Recordings.tsx:60 | `Math.round(diff / 60000)` is within half a minute of the duration, an exact half rounding up |
| Recordings.Minutes | src/pages/Recordings.tsx:60 | the minute count is at least 1; above 1 it is the duration rounded to the nearest minute, and a duration of 90 seconds or more counts more than one minute |
| Recordings.HoursAndMinutes | src/pages/Recordings.tsx:61-62 | hours times 60 plus the leftover minutes is the minute count, and the leftover is below 60 |
| Recordings.FormatDuration | src/pages/Recordings.tsx:57-64 | "" when either timestamp is missing; otherwise "Hh Mm" from the hours and leftover minutes when there is an hour, and "Mm" of the whole minute count below |
| Recordings.ShortRecordingsShowOneMinute | src/pages/Recordings.tsx:60-63 | a recording shorter than 90 seconds, including an empty or reversed one, shows "1m" |
| Recordings.LongRecordingsShowHours | src/pages/Recordings.tsx:60-63 | from 59.5 minutes on the minute count is at least 60 and both parts appear |
| Recordings.IdRun | src/pages/Recordings.tsx:71 | the greedy id group is the longest prefix of `[a-zA-Z0-9_-]` characters |
| Recordings.MatchHere | src/pages/Recordings.tsx:71 | a match at a position holds a non-empty run of id characters |
| Recordings.FirstMatch | src/pages/Recordings.tsx:71 | the group found is that of the leftmost position where the pattern matches; no match means no position matches |
| Recordings.GetEmbedUrl | src/pages/Recordings.tsx:67-82 | an empty URL gives null |
| Recordings.GetEmbedUrlCases | src/pages/Recordings.tsx:67-82 | the leftmost watch or short link becomes the embed base plus its id; failing that an embed URL is returned as it is; the result is null exactly for "" or a URL with neither |
| Recordings.EmbedUrlIsYouTube | src/pages/Recordings.tsx:67-86 | whenever `getEmbedUrl` gives a URL, `isYouTubeUrl` holds for the same input |
| Recordings.NoMatchWithoutMarks | src/pages/Recordings.tsx:71 | a string with no `?` and no `.b` contains no watch or short link |
| Recordings.EmbedOfIdHasNoMatch | src/pages/Recordings.tsx:71-79 | an embed URL built from an id contains no watch or short link but does contain the embed marker |
| Recordings.GetEmbedUrlIdempotent | src/pages/Recordings.tsx:67-82 | `getEmbedUrl` returns its own results unchanged |
| LivePage.JsRem | src/pages/Live.tsx:94 | JavaScript's `%`: Dafny's remainder for a non-negative dividend, and a remainder in (-b, 0] for a negative one |
| LivePage.FloorDiv | src/pages/Live.tsx:93-94 | `Math.floor(a / b)` is the quotient q with q*b <= a < q*b + b |
| LivePage.FormatDuration | src/pages/Live.tsx:90-96 | "N/A" when either timestamp is missing |
| LivePage.PartsOfNonNegative | src/pages/Live.tsx:93-94 | for a non-negative difference the minutes are in 0..59 and hours*60 + minutes is the number of whole minutes |
| LivePage.FormatNonNegative | src/pages/Live.tsx:93-95 | for end >= start the text is "Hh Mm" of the whole minutes when there are 60 or more, else "Mm" |
| LivePage.UnderAMinuteShowsZero | src/pages/Live.tsx:93-95 | a 59-second stream shows "0m": seconds are dropped |
| LivePage.NegativeDifference | src/pages/Live.tsx:92-95 | a stream whose end is 90 seconds before its start shows "-2m" |
| Auth.PasswordCore | src/pages/Auth.tsx:40 | the middle part has only a-z and 0-9 and is an order-preserving subsequence of the lower-cased e-mail |
| Auth.GeneratePassword | src/pages/Auth.tsx:39-41 | the password starts with "HSS_", ends with "#2024!", and the middle is the e-mail's filtered lower-case characters |
| Auth.PasswordIgnoresCase | src/pages/Auth.tsx:40 | e-mails that differ only in ASCII letter case give the same password |
| Auth.PasswordIgnoresPunctuation | src/pages/Auth.tsx:40 | inserting any character that is not a letter or digit, such as "." or "@", leaves the password unchanged |
| Auth.OtherMode | src/pages/Auth.tsx:247 | the toggle always changes the mode |
| Auth.AuthForm.constructor | src/pages/Auth.tsx:14-27 | the form opens in register mode exactly when the query has `register=true`, with empty fields |
| Auth.AuthForm.SetField | src/pages/Auth.tsx:31-36 | only the named field takes the value |
| Auth.AuthForm.ToggleMode | src/pages/Auth.tsx:247 | the mode alternates and nothing else changes |
| Auth.AuthForm.Submit | src/pages/Auth.tsx:43-82 | register mode signs up with the profile fields and login mode signs in, both with the password derived from the e-mail; an error is shown with its message or "Something went wrong"; success shows the mode's toast and goes to /dashboard; `loading` ends false |
| MediaCatalog.FilteredItems | src/pages/Media.tsx:82-86 | an item is kept exactly when the category is "All" or its own and its lower-cased title contains the lower-cased query; the result is an order-preserving subsequence |
| MediaCatalog.AllWithEmptyQueryKeepsEverything | src/pages/Media.tsx:83-84 | "All" with an empty query keeps every item, in order |
| MediaCatalog.QueryCaseIgnored | src/pages/Media.tsx:84 | the letter case of the query does not change the result |
| MediaCatalog.EmptyStateIff | src/pages/Media.tsx:213 | the empty state shows exactly when no item passes both tests |
| MediaCatalog.CategoryTabShowsOnlyThatCategory | src/pages/Media.tsx:83 | a tab other than "All" shows only items of its category |
| MediaCatalog.SermonsTab | src/pages/Media.tsx:11-74 | over the page's catalogue the Sermons tab with an empty query shows only "The Power of Faith" |
| MediaCatalog.OnlyFirstInCategory | src/pages/Media.tsx:82-86 | a list whose first item alone has the tab's category shows only that item under an empty query |
| MediaManagement.DetectMediaType | src/components/admin/MediaManagement.tsx:80-88 | video exactly for a `video/` prefix, audio exactly for `audio/`, pdf exactly for `application/pdf`, text for anything else |
| MediaManagement.DetectedNamePrefixes | src/components/admin/MediaManagement.tsx:80-83 | a file detected as video or audio has a MIME type starting with that type's name and a slash |
| MediaManagement.StoragePath | src/components/admin/MediaManagement.tsx:103-105 | the path starts with "media/" |
| MediaManagement.StoragePathKeepsExtension | src/components/admin/MediaManagement.tsx:103-105 | the text after the path's last dot is the file's extension |
| MediaManagement.StoragePathsDiffer | src/components/admin/MediaManagement.tsx:104 | uploads at different times go to different paths |
| MediaManagement.ToggledFlag | src/components/admin/MediaManagement.tsx:149 | the written flag is true exactly when the row was not published, a null flag counting as unpublished |
| MediaManagement.WithWrite | src/components/admin/MediaManagement.tsx:147-150 | the update sets the row's flag and nothing else |
| MediaManagement.ToggleTwice | src/components/admin/MediaManagement.tsx:149 | toggling twice restores a set flag and turns a null one into false |
| MediaManagement.MediaManager.constructor | src/components/admin/MediaManagement.tsx:41-55 | the form starts empty with type video and both flags false, with no file, not uploading and the dialog closed |
| MediaManagement.MediaManager.HandleFileSelect | src/components/admin/MediaManagement.tsx:75-90 | a chosen file becomes the selected file and only the form's media type changes; no file changes nothing |
| MediaManagement.MediaManager.UploadMedia | src/components/admin/MediaManagement.tsx:92-144 | a blank title is refused before any upload or insert; a file is uploaded under its storage path; a failed upload stops with no insert; otherwise the form is inserted with the file's URL or null; a saved row closes the dialog, resets the form and refetches; `uploading` ends false |
| MediaManagement.MediaManager.TogglePublished | src/components/admin/MediaManagement.tsx:146-157 | writes the negation of the row's flag; refetches on success and reports the error otherwise |
| UserManagement.RoleOf | src/components/admin/UserManagement.tsx:59-64 | without an answer from the roles query every user is shown as "user" |
| UserManagement.RoleInIsFirstRow | src/components/admin/UserManagement.tsx:63 | a user with no role row is shown as "user"; otherwise the first row of the user decides |
| UserManagement.RoleInFirstRow | src/components/admin/UserManagement.tsx:63 | when row `i` is the first for the user, the role shown is that row's |
| UserManagement.WithRoles | src/components/admin/UserManagement.tsx:61-64 | one entry per profile, in order, each with its role |
| UserManagement.FilteredUsers | src/components/admin/UserManagement.tsx:102-106 | a user is kept exactly when the lower-cased name or e-mail contains the lower-cased search, in order |
| UserManagement.EmptySearchKeepsEveryone | src/components/admin/UserManagement.tsx:102-106 | an empty search keeps everyone, in order |
| UserManagement.SearchCaseIgnored | src/components/admin/UserManagement.tsx:104-105 | the letter case of the search does not change the result |
| UserManagement.RoleBadgeVariant | src/components/admin/UserManagement.tsx:108-117 | admin gets destructive, moderator default, and user secondary, each exactly |
| UserManagement.RoleWriteFor | src/components/admin/UserManagement.tsx:71-96 | an update exactly when the user has one role row (what `.single()` returns data for), an insert otherwise, both carrying the user and the new role |
| UserManagement.Applied | src/components/admin/UserManagement.tsx:78-90 | an insert appends a row; an update keeps the table's length |
| UserManagement.UpdateSetsRole | src/components/admin/UserManagement.tsx:78-81 | after an update the user's role is the new one when the user has a row, and no one else's role changes |
| UserManagement.InsertSetsRole | src/components/admin/UserManagement.tsx:88-90 | after an insert the new row decides the user's role exactly when it is the user's first row, and no one else's role changes |
| UserManagement.RoleChangeTakesEffect | src/components/admin/UserManagement.tsx:70-99 | a user with at most one role row gets the chosen role, and every other user keeps theirs |
| UserManagement.SeveralRowsHideTheChange | src/components/admin/UserManagement.tsx:71-90 | a user with two or more role rows is sent an insert, and the role shown does not change |
| UserManagement.UserAdmin.constructor | src/components/admin/UserManagement.tsx:37-39 | no users, loading, and an empty search |
| UserManagement.UserAdmin.FetchUsers | src/components/admin/UserManagement.tsx:45-68 | a failed profiles query shows the error and keeps the list; otherwise the list is the profiles with their roles; loading ends false |
| UserManagement.UserAdmin.UpdateUserRole | src/components/admin/UserManagement.tsx:70-100 | the chosen write is sent; an error shows the write's own message and stops before the success toast and refetch; success toasts and refetches |
| UserManagement.UserAdmin.SetSearch | src/components/admin/UserManagement.tsx:39 | only the search text changes |
| UserManagement.UserAdmin.Shown | src/components/admin/UserManagement.tsx:102-106 | the shown rows are exactly the users matching the current search |
| Analytics.TotalMediaViews | src/components/admin/Analytics.tsx:59 | no data gives a total of 0 |
| Analytics.SumViewsAppend | src/components/admin/Analytics.tsx:59 | the total of two batches of rows is the sum of their totals |
| Analytics.SumViewsBounds | src/components/admin/Analytics.tsx:59 | with non-negative counts the total is non-negative and at least any one row's count, a null count adding 0 |
| Analytics.StatsOf | src/components/admin/Analytics.tsx:61-67 | each of the three counts shows as 0 when the database did not return it and as itself otherwise, and the views figure is the `TotalMediaViews` fold that SumViewsAppend and SumViewsBounds characterise |
| Analytics.Occurring | src/components/admin/Analytics.tsx:93-96 | the keys of the counting object are exactly the types that occur, each once |
| Analytics.Histogram | src/components/admin/Analytics.tsx:93-99 | one entry per occurring type, in first-occurrence order, each with the number of rows of that type |
| Analytics.Capitalized | src/components/admin/Analytics.tsx:100 | same length, the first character upper-cased, the rest unchanged |
| Analytics.Labelled | src/components/admin/Analytics.tsx:98-103 | each entry keeps its count and is labelled with its capitalised type name |
| Analytics.Labels | src/components/admin/Analytics.tsx:100 | the four types are labelled Video, Audio, Pdf and Text |
| Analytics.CountOfSnoc | src/components/admin/Analytics.tsx:94 | counting one more row adds one to its own type only |
| Analytics.CountOfAbsent | src/components/admin/Analytics.tsx:93-96 | a type with no rows counts 0 |
| Analytics.CountsAddUp | src/components/admin/Analytics.tsx:93-96 | the counts of the occurring types add up to the number of rows |
| Analytics.TypeCounts | src/components/admin/Analytics.tsx:93-96 | the counting loop gives a key for exactly the occurring types, in first-occurrence order, each mapped to its row count |
| Analytics.MediaTypeData | src/components/admin/Analytics.tsx:92-104 | the chart data is the labelled histogram of the rows |
| Analytics.ChartOfCounts | src/components/admin/Analytics.tsx:92-104 | entries read off the counting object key by key are exactly the labelled histogram |
| Analytics.ColorFor | src/components/admin/Analytics.tsx:225 | `index % 4` always picks one of the palette's colours |
| Analytics.NeighboursDiffer | src/components/admin/Analytics.tsx:225 | neighbouring slices never share a colour |
| StreamManagement.GoLiveError | src/components/admin/StreamManagement.tsx:181-189 | Go Live goes ahead exactly when the trimmed title is non-empty and, for an external source, so is the trimmed URL |
| StreamManagement.DisabledIffRefused | src/components/admin/StreamManagement.tsx:954 | the Go Live button is disabled exactly when the handler would refuse or a start is under way |
| StreamManagement.Offered | src/components/admin/StreamManagement.tsx:580-611 | Start exactly for scheduled rows, Stop exactly for live ones, Save and discard exactly for ended rows with a pending recording, View exactly for ended rows with a URL |
| StreamManagement.OfferedExclusive | src/components/admin/StreamManagement.tsx:580-592 | a row never offers both Start and Stop, and the recording buttons only once the stream has ended |
| StreamManagement.Applied | src/components/admin/StreamManagement.tsx:316-369 | a write lands on its own row |
| StreamManagement.OfferedFollowLifecycle | src/components/admin/StreamManagement.tsx:313-380 | every offered button moves its row one step along scheduled, live, ended and then pending to saved or discarded; Start stamps `started_at` and Stop `ended_at` with the click's time; only Save changes the URL |
| StreamManagement.StartThenStopShowsDuration | src/components/admin/StreamManagement.tsx:313-343 | starting a scheduled row at t1 and stopping it at t2 leaves `started_at` = t1 and `ended_at` = t2, so the recordings page shows a non-empty duration between the two clicks, "1m" under a minute and a half |
| StreamManagement.RecordingBadge | src/components/admin/StreamManagement.tsx:570-576 | Saved exactly for saved, Discarded exactly for discarded, Pending for anything else including null |
| StreamManagement.CardFor | src/components/admin/StreamManagement.tsx:653-654 | no preview without a URL; the YouTube card exactly when the URL contains "youtube.com" or "youtu.be" |
| StreamManagement.EmbeddableIsYouTubeCard | src/components/admin/StreamManagement.tsx:654 | any URL the recordings page can embed is shown here with the YouTube card |
| StreamManagement.StreamAdmin.constructor | src/components/admin/StreamManagement.tsx:73-88 | the whole initial screen: empty form on the camera source, no preview, both preview flags on, no dialog, nothing selected, and empty logs |
| StreamManagement.StreamAdmin.TogglePreviewVideo | src/components/admin/StreamManagement.tsx:154-162 | nothing without a preview or a video track; otherwise the first video track flips and the flag equals it afterwards; every other field is unchanged |
| StreamManagement.StreamAdmin.TogglePreviewAudio | src/components/admin/StreamManagement.tsx:164-172 | nothing without a preview or an audio track; otherwise the first audio track flips and the flag equals it afterwards; every other field is unchanged |
| StreamManagement.StreamAdmin.HandleGoLive | src/components/admin/StreamManagement.tsx:181-214 | a refused title or URL shows its error and changes nothing else; otherwise the preview tracks are stopped and the preview dropped, one start is made with the URL only for the external source, the form is cleared and the dialog closed only when the start succeeds, `isStarting` ends false, and every other field is unchanged |
| StreamManagement.StreamAdmin.StopPreview | src/components/admin/StreamManagement.tsx:193-197 | every preview track is stopped and the preview dropped, and nothing else changes |
| StreamManagement.StreamAdmin.StartLive | src/components/admin/StreamManagement.tsx:199-213 | one start with the form's values; a resolved start closes the dialog and clears title, description and URL; `isStarting` ends false; nothing else changes |
| StreamManagement.StreamAdmin.StartStream | src/components/admin/StreamManagement.tsx:313-327 | writes status live with `started_at` = now and toasts success or the error; nothing else changes |
| StreamManagement.StreamAdmin.StopStream | src/components/admin/StreamManagement.tsx:329-343 | writes status ended with `ended_at` = now and toasts success or the error; nothing else changes |
| StreamManagement.StreamAdmin.UpdateRecordingStatus | src/components/admin/StreamManagement.tsx:345-359 | writes the recording status; toasts Saved or Discarded by the status, or the error; nothing else changes |
| StreamManagement.StreamAdmin.OpenSaveDialog | src/components/admin/StreamManagement.tsx:382-386 | selects the row, opens the dialog, and starts the URL field from the row's URL, null as ""; nothing else changes |
| StreamManagement.StreamAdmin.SaveRecordingWithUrl | src/components/admin/StreamManagement.tsx:361-380 | nothing at all without a selected stream; otherwise writes saved with the typed URL, "" stored as null; success closes the dialog and clears the selection and the field; every other field is unchanged |
| StreamManagement.StreamAdmin.DeleteRecording | src/components/admin/StreamManagement.tsx:253-264 | writes discarded with a null URL and toasts the outcome; nothing else changes |
| StreamManagement.SaveKeepsUntouchedUrl | src/components/admin/StreamManagement.tsx:368-384 | saving without editing keeps the row's URL, except that an empty one is stored as null |
| StreamManagement.DeletedRecordingHidden | src/components/admin/StreamManagement.tsx:611-653 | a deleted recording offers neither View nor Save and shows no card |
| LiveStreamHook.ExternalUrlArgument | src/components/live/StreamControls.tsx:49 | the external URL is passed exactly when the source is external |
| StreamControls.Controls.constructor | src/components/live/StreamControls.tsx:34-39 | empty form on the camera source, not starting, stop dialog closed |
| StreamControls.Controls.HandleStartStream | src/components/live/StreamControls.tsx:41-53 | a blank title does nothing; an external source with a blank URL shows an error and starts nothing; otherwise exactly one start is made, with the URL only for the external source, `isStarting` ends false, and a thrown start is passed on |
| StreamControls.Controls.HandleStopStream | src/components/live/StreamControls.tsx:55-61 | the stop is made, the dialog closed, title, description and URL cleared, and the source kept |
| StreamControls.StopThenStart | src/components/live/StreamControls.tsx:41-61 | right after a stop, a start does nothing, because the title was cleared |
| PrayerSessionAdmin.TrimStart | src/components/admin/PrayerSessionManagement.tsx:274 | a suffix of the text that starts with no whitespace, as `parseInt` skips it |
| PrayerSessionAdmin.DigitRun | src/components/admin/PrayerSessionManagement.tsx:274 | the longest prefix made only of decimal digits |
| PrayerSessionAdmin.DigitRunAll | src/components/admin/PrayerSessionManagement.tsx:274 | text that is all digits is read whole |
| PrayerSessionAdmin.ParseIntOfInt | src/components/admin/PrayerSessionManagement.tsx:274 | `parseInt` reads every integer back from its own decimal text |
| PrayerSessionAdmin.ParseIntOfNat | src/components/admin/PrayerSessionManagement.tsx:274 | the decimal text of a non-negative number reads back as that number |
| PrayerSessionAdmin.ParseIntOfNegative | src/components/admin/PrayerSessionManagement.tsx:274 | a minus sign before the digits of a magnitude reads back as the negative number |
| PrayerSessionAdmin.ParseIntNaN | src/components/admin/PrayerSessionManagement.tsx:274 | text that starts with no digit, sign or space, including empty text, gives NaN |
| PrayerSessionAdmin.MaxParticipantsInput | src/components/admin/PrayerSessionManagement.tsx:274 | the field's value is never 0, because `|| 100` replaces both 0 and NaN |
| PrayerSessionAdmin.MaxParticipantsDefaults | src/components/admin/PrayerSessionManagement.tsx:274 | an empty field, a 0 or text without digits gives 100; any other integer is kept |
| PrayerSessionAdmin.Offered | src/components/admin/PrayerSessionManagement.tsx:215-226 | Start exactly for scheduled sessions, End exactly for active ones |
| PrayerSessionAdmin.OfferedAdvance | src/components/admin/PrayerSessionManagement.tsx:215-226 | every offered button moves its session one step, scheduled to active to ended; an ended session offers nothing |
| PrayerSessionAdmin.ShownCount | src/components/admin/PrayerSessionManagement.tsx:209 | a session with no counted entry shows 0, any other its count |
| PrayerSessionAdmin.CountParticipants | src/components/admin/PrayerSessionManagement.tsx:70-80 | the counts have a key for exactly the listed sessions, each holding its query's count, a missing count as 0 |
| PrayerSessionAdmin.SessionAdmin.constructor | src/components/admin/PrayerSessionManagement.tsx:34-44 | no sessions, no counts, the empty form with 100 participants, dialog closed, loading |
| PrayerSessionAdmin.SessionAdmin.FetchSessions | src/components/admin/PrayerSessionManagement.tsx:59-84 | a failed query toasts the error and keeps the table; a successful one shows its rows (null as empty) with their counts; loading ends either way |
| PrayerSessionAdmin.SessionAdmin.SetMaxParticipants | src/components/admin/PrayerSessionManagement.tsx:274 | only the form's maximum changes, to the parsed value or 100 |
| PrayerSessionAdmin.SessionAdmin.CreateSession | src/components/admin/PrayerSessionManagement.tsx:86-108 | a blank title is refused with an error and writes nothing; otherwise a scheduled session is inserted with the form's fields (empty date as null); success closes the dialog and resets the form, failure keeps both |
| PrayerSessionAdmin.SessionAdmin.Act | src/components/admin/PrayerSessionManagement.tsx:110-140 | Start writes active with `started_at` = now and End writes ended with `ended_at` = now on that session, with the matching success or error toast; nothing else changes |
| DownloadRequests.MediaIconFor | src/components/admin/DownloadRequestsManagement.tsx:95-104 | the video icon exactly for "video", the music icon exactly for "audio", the file icon for any other type |
| DownloadRequests.StatusBadge | src/components/admin/DownloadRequestsManagement.tsx:106-115 | Approved, Denied and Pending each exactly for their own status |
| DownloadRequests.MediaTitle | src/components/admin/DownloadRequestsManagement.tsx:149 | never empty; the media's title when it has one, otherwise "Unknown" |
| DownloadRequests.RequesterName | src/components/admin/DownloadRequestsManagement.tsx:154 | never empty; the requester's name when there is one, otherwise "Unknown" |
| DownloadRequests.ReasonText | src/components/admin/DownloadRequestsManagement.tsx:160 | never empty; the reason when given, otherwise "No reason provided" |
| DownloadRequests.Decisions | src/components/admin/DownloadRequestsManagement.tsx:168-185 | approve and deny are offered together, and exactly on pending requests |
| DownloadRequests.Reviewed | src/components/admin/DownloadRequestsManagement.tsx:74-82 | the write changes the status of the rows with its id and no other row |
| DownloadRequests.DecisionIsFinal | src/components/admin/DownloadRequestsManagement.tsx:74-93 | once a pending request is approved or denied it takes that status and offers no further decision |
| DownloadRequests.DecisionToast | src/components/admin/DownloadRequestsManagement.tsx:84-90 | a failure gives the destructive error toast; a success is titled Approved exactly for an approval and names the status |
| DownloadRequests.WithDetails | src/components/admin/DownloadRequestsManagement.tsx:55-68 | each request in order, with its requester's profile and its media looked up by its own ids, a missing one left out |
| DownloadRequests.RequestsAdmin.constructor | src/components/admin/DownloadRequestsManagement.tsx:35-36 | no requests, loading, nothing written |
| DownloadRequests.RequestsAdmin.FetchRequests | src/components/admin/DownloadRequestsManagement.tsx:42-72 | a failed query toasts the error and keeps the list; a successful one shows its rows with details, null as empty; loading ends either way |
| DownloadRequests.RequestsAdmin.UpdateRequestStatus | src/components/admin/DownloadRequestsManagement.tsx:74-93 | writes the status, reviewer and time, toasts the outcome, and fetches the list again exactly on success |
| Feedback.TypeBadge | src/components/admin/FeedbackManagement.tsx:72-83 | each known type has its own style and label, in both directions; any other type shows its own text in the outline style |
| Feedback.StatusBadge | src/components/admin/FeedbackManagement.tsx:128-135 | Reviewed exactly when the item is reviewed, Pending otherwise, a null flag counting as not reviewed |
| Feedback.OrNotProvided | src/components/admin/FeedbackManagement.tsx:172-176 | never empty; the phone or address when given, otherwise "Not provided" |
| Feedback.ReviewOffered | src/components/admin/FeedbackManagement.tsx:197 | Mark as Reviewed shows exactly while an unreviewed item is open |
| Feedback.Reviewed | src/components/admin/FeedbackManagement.tsx:53-60 | the write marks the rows with its id reviewed and changes no other row |
| Feedback.ReviewIsFinal | src/components/admin/FeedbackManagement.tsx:53-70 | a reviewed item no longer offers the button, and reviewing it again changes nothing |
| Feedback.FeedbackAdmin.constructor | src/components/admin/FeedbackManagement.tsx:31-33 | no items, loading, nothing open, nothing written |
| Feedback.FeedbackAdmin.FetchFeedback | src/components/admin/FeedbackManagement.tsx:39-51 | a failed query toasts the error and keeps the list; a successful one shows its rows, null as empty; loading ends either way |
| Feedback.FeedbackAdmin.Select | src/components/admin/FeedbackManagement.tsx:141-155 | opens the item, or closes the dialog with none, and changes nothing else |
| Feedback.FeedbackAdmin.MarkAsReviewed | src/components/admin/FeedbackManagement.tsx:53-70 | writes the review; success toasts, fetches again and closes the dialog; failure toasts the error and keeps the dialog open |
| PrayerRoomView.GridFor | src/components/prayer/PrayerRoom.tsx:227-234 | each layout is chosen for exactly its own range of participant counts, an empty room taking the two by two grid |
| PrayerRoomView.ColumnsGrow | src/components/prayer/PrayerRoom.tsx:227-234 | more participants never give fewer columns |
| PrayerRoomView.CellsSuffice | src/components/prayer/PrayerRoom.tsx:230-232 | a layout with fixed rows has at least one cell per participant it is chosen for |
| PrayerRoomView.ParticipantLabel | src/components/prayer/PrayerRoom.tsx:206 | the count followed by "participant" exactly for one, "participants" otherwise |
| PrayerRoomView.RemoteTilesAsWritten | src/components/prayer/PrayerRoom.tsx:271-273 | the tiles are the rows whose user id differs from the local stream's id |
| PrayerRoomView.OwnRowShownAsRemote | src/components/prayer/PrayerRoom.tsx:271-273 | the user's own row is shown again as a remote tile whenever the stream id is not their user id |
| PrayerRoomView.AsWrittenTileCount | src/components/prayer/PrayerRoom.tsx:235-273 | when no user id equals the stream id, the local tile plus the remote tiles are one more than the participants |
| PrayerRoomView.AsWrittenOverflowsGrid | src/components/prayer/PrayerRoom.tsx:227-273 | four participants get five tiles in the four-cell grid |
| PrayerRoomView.RemoteTiles | src/components/prayer/PrayerRoom.tsx:271-273 | the remote tiles are, in order, exactly the rows of other users |
| PrayerRoomView.RemoteTilesCount | src/components/prayer/PrayerRoom.tsx:271-273 | the remote tiles and the user's own rows together are the whole roster |
| PrayerRoomView.TilesFitGrid | src/components/prayer/PrayerRoom.tsx:227-273 | with the user present once, local plus remote tiles equal the participant count and fit the fixed-row grid |
| PrayerRoomView.WithEnabledSyncs | src/components/prayer/PrayerRoom.tsx:75-82 | setting one kind's tracks syncs that kind and leaves the other kind's tracks as they were |
| PrayerRoomView.RoomView.constructor | src/components/prayer/PrayerRoom.tsx:37-43 | preview shown, no stream, microphone and camera on, chat closed and empty |
| PrayerRoomView.RoomView.AdoptPreview | src/components/prayer/PrayerRoom.tsx:58-71 | the preview holds the camera's stream, and its tracks agree with the two flags |
| PrayerRoomView.RoomView.TogglePreviewMute | src/components/prayer/PrayerRoom.tsx:73-78 | nothing without a preview; otherwise the audio tracks take the new state and the flag flips, keeping the tracks in step with the flags |
| PrayerRoomView.RoomView.TogglePreviewVideo | src/components/prayer/PrayerRoom.tsx:80-85 | nothing without a preview; otherwise the video tracks take the new state and the flag flips, keeping the tracks in step with the flags |
| PrayerRoomView.RoomView.HandleJoinNow | src/components/prayer/PrayerRoom.tsx:87-93 | the preview's tracks are stopped, the preview hidden, and the room joined with the preview's microphone and camera choices |
| PrayerRoomView.RoomView.HandleLeave | src/components/prayer/PrayerRoom.tsx:101-104 | the hook's leave, then the page's leave, and nothing else |
| PrayerRoomView.RoomView.SetChatInput | src/components/prayer/PrayerRoom.tsx:43 | only the chat box changes |
| PrayerRoomView.RoomView.SendMessage | src/components/prayer/PrayerRoom.tsx:106-117 | blank text is ignored; otherwise one message from "You" with the text as typed is appended and the box cleared |
| PrayerRoomView.SendTwice | src/components/prayer/PrayerRoom.tsx:106-117 | sending twice in a row adds at most one message |
| PrayerPage.PrayerPage.constructor | src/pages/Prayer.tsx:22-27 | no dialog, no session, microphone and camera off, not in the room, no counts |
| PrayerPage.PrayerPage.FetchParticipantCounts | src/pages/Prayer.tsx:33-47 | a count for exactly the live and scheduled sessions, each its query's answer, a missing one as 0 |
| PrayerPage.PrayerPage.HandleJoinSession | src/pages/Prayer.tsx:49-56 | without a user the page goes to /auth and nothing else changes; with one the session is selected and the dialog opens |
| PrayerPage.PrayerPage.JoinLivePrayer | src/pages/Prayer.tsx:97 | nothing without a live session; otherwise joining the first one |
| PrayerPage.PrayerPage.ToggleAudio | src/pages/Prayer.tsx:185 | only the microphone choice flips |
| PrayerPage.PrayerPage.ToggleVideo | src/pages/Prayer.tsx:194 | only the camera choice flips |
| PrayerPage.PrayerPage.CancelJoin | src/pages/Prayer.tsx:210 | only the dialog closes |
| PrayerPage.PrayerPage.HandleConfirmJoin | src/pages/Prayer.tsx:58-61 | the dialog closes and the room opens |
| PrayerPage.PrayerPage.HandleLeaveRoom | src/pages/Prayer.tsx:63-68 | the room closes and nothing stays selected, so the lists show again |
| PrayerPage.JoinFlow | src/pages/Prayer.tsx:49-72 | a signed-in user who joins and confirms sees that session's room, and leaving returns to the lists; a visitor is sent to /auth and sees no room |
| Donate.DonationForm.constructor | src/pages/Donate.tsx:22-25 | no amount, the general fund, one-time giving |
| Donate.DonationForm.DisplayAmount | src/pages/Donate.tsx:37 | the custom amount when typed, else the preset; empty exactly when neither is filled |
| Donate.DonationForm.DonateLabel | src/pages/Donate.tsx:145-147 | "Enter Amount" exactly when the button is disabled, else "Donate $" and the amount |
| Donate.DonationForm.HandlePresetAmount | src/pages/Donate.tsx:27-30 | the preset's text replaces any custom amount, the button is enabled, and exactly that preset is highlighted |
| Donate.DonationForm.HandleCustomAmount | src/pages/Donate.tsx:32-35 | the typed text replaces the preset and no preset is highlighted; the button is disabled exactly for empty text |
| Donate.DonationForm.SelectFund | src/pages/Donate.tsx:123 | only the fund changes |
| Donate.DonationForm.SetFrequency | src/pages/Donate.tsx:78-85 | only the frequency changes |
| Donate.ChooseBoth | src/pages/Donate.tsx:27-37 | the last amount chosen is the one shown, and never both are filled |
| ProfileEdit.FirstChar | src/pages/ProfileEdit.tsx:122 | at most one character |
| ProfileEdit.WordStarts | src/pages/ProfileEdit.tsx:120-123 | the reference definition of the characters that start a word; it holds no space |
| ProfileEdit.FirstCharsOfSplit | src/pages/ProfileEdit.tsx:120-123 | splitting on spaces and joining first characters gives exactly the word starts; empty words add nothing |
| ProfileEdit.Initials | src/pages/ProfileEdit.tsx:119-126 | at most two characters |
| ProfileEdit.InitialsAreWordStarts | src/pages/ProfileEdit.tsx:119-126 | the initials are the first two word starts of the name, upper-cased |
| ProfileEdit.LoadedForm | src/pages/ProfileEdit.tsx:41-45 | the avatar as stored; a missing phone becomes empty and a stored one is kept |
| ProfileEdit.SavedUpdate | src/pages/ProfileEdit.tsx:93-98 | the name and avatar as in the form; phone and location null exactly when empty |
| ProfileEdit.LoadSaveRoundTrip | src/pages/ProfileEdit.tsx:93-98 | saving without edits writes back what was loaded, except that a stored empty phone or location becomes null and a missing name becomes empty |
| ProfileEdit.AvatarPath | src/pages/ProfileEdit.tsx:56-57 | the path lies under avatars/ |
| ProfileEdit.AvatarPathProperties | src/pages/ProfileEdit.tsx:56-61 | the path keeps the file's extension, and two files with the same extension get the same path, so an upload replaces the last one |
| ProfileEdit.ProfileEditor.constructor | src/pages/ProfileEdit.tsx:19-26 | loading, empty fields, no avatar, nothing written |
| ProfileEdit.ProfileEditor.FetchProfile | src/pages/ProfileEdit.tsx:28-48 | without a user nothing happens; with one the form takes the loaded row when there is one and loading ends |
| ProfileEdit.ProfileEditor.HandleAvatarUpload | src/pages/ProfileEdit.tsx:50-84 | without a file or a user nothing happens; otherwise one upload to the avatar path; success sets the public URL and toasts, failure toasts the error and keeps the form; `uploading` ends false |
| ProfileEdit.ProfileEditor.HandleSave | src/pages/ProfileEdit.tsx:86-117 | without a user nothing happens; otherwise the form is written; success toasts and goes to the dashboard, failure toasts the error and stays; `saving` ends false |
| Js.NullEmptyRoundTrip | src/pages/ProfileEdit.tsx:95-96 | `x \|\| ""` then `x \|\| null` gives back the value, except that an empty string becomes null |
| Js.OrNull | src/pages/ProfileEdit.tsx:95-96 | `s \|\| null` is null exactly for the empty string and the string itself otherwise |
| Js.OrEmpty | src/pages/ProfileEdit.tsx:42-44 | `x \|\| ""` is the empty string for null and the value otherwise |
| Text.ToLower | src/pages/Media.tsx:84 | same length, each character lower-cased on its own |
| Text.ToLowerIdempotent | src/pages/Media.tsx:84 | lower-casing twice is lower-casing once |
| Text.ToLowerAppend | src/pages/Media.tsx:84 | lower-casing distributes over concatenation |
| Text.SameUpToCaseLower | src/pages/Media.tsx:84 | strings that differ only in letter case lower-case alike |
| Text.ContainsIff | src/pages/Media.tsx:84 | `includes` holds exactly when the pattern occurs at some position |
| Text.ContainsTrans | src/pages/Media.tsx:84 | text containing a string contains everything that string contains |
| Text.Trim | src/components/prayer/PrayerRoom.tsx:107 | no longer than the input, and neither starting nor ending with whitespace |
| Text.BlankIff | src/components/admin/StreamManagement.tsx:182-186 | `!s.trim()` holds exactly when every character is whitespace |
| Text.Split | src/components/admin/MediaManagement.tsx:103 | at least one piece, and no piece holds the separator |
| Text.AfterLast | src/components/admin/MediaManagement.tsx:103 | the separator-free tail of the text, reaching back to the last separator or to the start |
| Text.SplitPopIsAfterLast | src/components/admin/MediaManagement.tsx:103 | `split(c).pop()` is the text after the last `c` |
| Text.AfterLastOfJoin | src/pages/ProfileEdit.tsx:56-57 | whatever precedes the last separator does not change what follows it |
| Text.FileExtension | src/components/admin/MediaManagement.tsx:103 | the text after the last dot, or the whole name when it has no dot |
| Text.NatToString | src/pages/Donate.tsx:28 | one or more decimal digits, a single one exactly below 10 |
| Text.ParseNatToString | src/pages/Donate.tsx:28 | reading the digits back gives the number |
| Text.NatToStringInjective | src/pages/Donate.tsx:100 | different amounts print differently, so only one preset can be highlighted |
| Text.ByteToHex | src/hooks/useLiveStream.tsx:15 | one hex digit below 16 and two from 16 on, reading back to the value |
| Media.WithEnabled | src/hooks/usePrayerSession.tsx:233-234 | one track per track; those of the kind take the flag, the others stay as they were |
| Media.WithEnabledEffect | src/hooks/usePrayerSession.tsx:313-328 | the tracks of the kind carry the flag, the others are unchanged, and no track changes kind |
| Media.WithEnabledIdempotent | src/hooks/usePrayerSession.tsx:313-328 | setting the flag twice is setting it once |
| Media.AllStopped | src/hooks/usePrayerSession.tsx:297 | every track ends, and nothing else about it changes |
| Media.FirstOfKind | src/components/admin/StreamManagement.tsx:156-166 | the first track of the kind, or none when there is no such track |
| Media.FlippedFirst | src/components/admin/StreamManagement.tsx:156-159 | only the first track of the kind flips its flag; with none, nothing changes |
| Media.FlippedFirstTwice | src/components/admin/StreamManagement.tsx:154-172 | flipping twice restores the tracks |
| Media.FirstOfKindSameKinds | src/components/admin/StreamManagement.tsx:156-166 | which track is first of a kind depends only on the kinds of the tracks |
| Media.MediaStream.constructor | src/hooks/usePrayerSession.tsx:227-230 | a new stream with one enabled, live track per requested kind |
| Media.MediaStream.SetEnabled | src/hooks/usePrayerSession.tsx:233-234 | the tracks become the flagged tracks |
| Media.MediaStream.FlipFirst | src/components/admin/StreamManagement.tsx:156-159 | the first track of the kind flips and its new flag is returned; none when the kind is missing |
| Media.MediaStream.StopAll | src/hooks/usePrayerSession.tsx:297 | every track is stopped |
| Media.PeerConnection.constructor | src/hooks/usePrayerSession.tsx:168-195 | a fresh connection for the participant with the local tracks attached, told nothing yet |
| Media.PeerConnection.SetRemoteDescription | src/hooks/usePrayerSession.tsx:156 | records the remote description and nothing else |
| Media.PeerConnection.SetLocalDescription | src/hooks/usePrayerSession.tsx:158 | records the local description and nothing else |
| Media.PeerConnection.AddIceCandidate | src/hooks/usePrayerSession.tsx:163 | appends the candidate and nothing else |
| Media.PeerConnection.Close | src/hooks/usePrayerSession.tsx:295 | marks the connection closed and nothing else |
| Media.CloseAll | src/hooks/usePrayerSession.tsx:295 | every connection of the set is closed and nothing else about it changes |
| Media.MediaRecorder.constructor | src/hooks/useLiveStream.tsx:156-183 | a recorder that is recording |
| Media.MediaRecorder.Stop | src/hooks/useLiveStream.tsx:187 | the recorder is no longer recording |

## Left out

- Supabase I/O: queries, inserts, updates, storage uploads and realtime channel subscriptions are not modelled. Each answer is a parameter, and each write, toast, navigation and channel message is appended to a log field.
- Realtime change notifications and the effects that refetch on them: a refetch is a counter or a later call of the fetch method with the new answer.
- `localStorage`, the router and the toast queue are only the logs above.
- Browser media and WebRTC objects (`RTCPeerConnection`, `getUserMedia`, `MediaRecorder`, `Blob`, `Notification`): they are objects with a few flags in `media.dfy`. SDP negotiation, ICE and media flow are not modelled.
- Async interleaving: each handler is one atomic step. Two handlers running at once, and a state setter that lands after a later event, are not modelled.
- Stale closures: where the source reads a captured value, the operation takes that value as a parameter, as in `createPeerConnection`'s local stream.
- Dates: parsing and formatting (`new Date`, date-fns `format` and `formatDistanceToNow`, `toLocaleTimeString`) are left out. Timestamps are integer milliseconds, and `Date.now()` and `new Date()` are `now` parameters.
- Timestamp columns (`started_at`, `ended_at`, `left_at`, `reviewed_at`) hold the `now` parameter of the operation that writes them, rather than an ISO string.
- Randomness: the values `crypto.getRandomValues` draws are a parameter, a sequence of bytes. The `crypto.randomUUID` branch of `generateId` is a foreign call and is left out. So is the `Math.random() * 16` branch for browsers without `getRandomValues`: it draws values below 16, which the byte model already covers.
- Floating-point donation totals (src/components/admin/Analytics.tsx:58, src/pages/admin/Dashboard.tsx:68) are left out, because they are float sums.
- Unicode case mapping: `toLowerCase` and `toUpperCase` are modelled on ASCII letters only. Every other character is unchanged.
- `parseInt` is modelled for decimal text: leading whitespace, a sign, then the digit run. Its `0x` hexadecimal prefix is not modelled, since the number input never produces it.
- Protocol behaviour the code does not have is not modelled: a queue for early ICE candidates, filtering on a signal's `to` field, a readiness handshake, glare resolution, viewer counting, speaking detection, upsert on rejoin, and applying received hand-raise broadcasts.
- Prayer.tsx keeps `audioEnabled` and `videoEnabled` flags that are never passed to the room (src/pages/Prayer.tsx:72). The model keeps the flags and, like the page, does nothing else with them.
- StreamManagement.tsx's other handlers are not modelled. These are `createStream` (290-311), `updateRecordingUrl` (272-288), `startCameraPreview` and the dialog openers (117-152), `handleStopLive`, `fetchStreams` and `fetchSavedRecordings`. They are database calls and dialog toggles with no rule beyond those stated for the modelled handlers.
- MediaManagement.tsx's `deleteMedia` and `fetchMedia`, UserManagement.tsx's `getRoleIcon`, and the fetch effects of the other screens are reads, deletes or icon choices with nothing to state beyond the log entry.
- `getInitials` in src/pages/admin/Dashboard.tsx:64-71 is identical to ProfileEdit.tsx's and is modelled once, as `ProfileEdit.Initials`.
- src/integrations/supabase/types.ts has no behaviour. Its enums are the datatypes of `schema.dfy`, and the duplicated `role` column of `prayer_participants` is one field.
- Presentational files are rendering only: Header, Footer, Index, App, CTASection, QuickActions, HeroSection, UpcomingEvents, TestimoniesPreview, SessionCard, StreamPlayer, ActiveStreams, the admin Dashboard and useNotificationPermission.
- Contact.tsx is plain field setters and a reset.
- PrayerRoomView.PreviewSynced and the other ghost predicates on track arrays are stated over the arrays' current contents. Aliasing of one stream between two screens is not modelled.

## Findings

| source | as written | input that shows it | evidently intended | confidence | as-written member | corrected member |
|---|---|---|---|---|---|---|
| src/hooks/useLiveStream.tsx:12-16 | each `x` of the UUID template becomes `v.toString(16)` of a random byte, one or two hex digits | random values [255] followed by thirty 0s give a 37-character id | each `x` is one hex digit (the byte taken modulo 16), so the id always has the 36 characters of an RFC 4122 section 4.4 UUID | not executed | LiveStreamHook.AsWrittenTooLong | LiveStreamHook.GenerateIdIsUuid |
| src/components/prayer/PrayerRoom.tsx:271-273 | remote tiles keep the participants whose `user_id` differs from `localStream?.id`, a media-stream id | four participants, the local user among them, and a stream id that is no user id give the local tile plus four remote tiles: five tiles in the 2x2 grid | a participant is remote when its `user_id` differs from the signed-in user's id, so the user's own row is not shown twice | not executed | PrayerRoomView.AsWrittenOverflowsGrid | PrayerRoomView.TilesFitGrid |
