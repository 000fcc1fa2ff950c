/** The notification bell (`NotificationCenter`): a list of at most fifty
    notifications, newest first, each read or unread, mirrored to
    `localStorage`. Each handler computes a new list from the previous one
    and stores it; the list transforms are functions here and the handlers
    are methods of a class holding the list. */
module Notifications {
  import opened Js
  import opened Text
  import Seqs

  datatype NotificationKind = StreamNotice | PrayerNotice | EventNotice | SystemNotice

  /** One notification; `timestamp` is in milliseconds. */
  datatype Notification = Notification(
    id: string,
    kind: NotificationKind,
    title: string,
    message: string,
    timestamp: int,
    read: bool,
    link: Option<string>)

  /** The list keeps the most recent fifty. */
  const Capacity := 50

  function Min(a: int, b: int): int { if a <= b then a else b }

  /** `[n, ...prev].slice(0, 50)`. */
  function Prepended(prev: seq<Notification>, n: Notification): (r: seq<Notification>)
    ensures |r| == Min(|prev| + 1, Capacity)
    ensures r[0] == n
    ensures forall i :: 1 <= i < |r| ==> r[i] == prev[i - 1]
  {
    ([n] + prev)[..Min(|prev| + 1, Capacity)]
  }

  /** `prev.map(n => n.id === id ? { ...n, read: true } : n)`. */
  function MarkedRead(prev: seq<Notification>, id: string): (r: seq<Notification>)
    ensures |r| == |prev|
    ensures forall i :: 0 <= i < |prev| ==> r[i] == if prev[i].id == id then prev[i].(read := true) else prev[i]
  {
    seq(|prev|, i requires 0 <= i < |prev| => if prev[i].id == id then prev[i].(read := true) else prev[i])
  }

  /** `prev.map(n => ({ ...n, read: true }))`. */
  function AllMarkedRead(prev: seq<Notification>): (r: seq<Notification>)
    ensures |r| == |prev|
    ensures forall i :: 0 <= i < |prev| ==> r[i] == prev[i].(read := true)
  {
    seq(|prev|, i requires 0 <= i < |prev| => prev[i].(read := true))
  }

  predicate IsUnread(n: Notification) { !n.read }

  /** `notifications.filter(n => !n.read).length`. */
  function UnreadCount(ns: seq<Notification>): (c: nat)
    ensures c <= |ns|
  {
    |Seqs.Filter(ns, IsUnread)|
  }

  /** The text of the bell's badge: none at zero, the count up to nine,
      `9+` above. */
  function BadgeText(unread: nat): (r: Option<string>)
    ensures r.None? <==> unread == 0
    ensures 0 < unread <= 9 ==> r == Some(NatToString(unread)) && |r.value| == 1
    ensures unread > 9 ==> r == Some("9+")
  {
    if unread == 0 then None else if unread > 9 then Some("9+") else Some(NatToString(unread))
  }

  lemma {:induction false} UnreadCountIsCount(ns: seq<Notification>)
    ensures UnreadCount(ns) == Seqs.Count(ns, IsUnread)
  {
    Seqs.CountIsFilterLength(ns, IsUnread);
  }

  /** A new notification below the cap adds exactly one unread. */
  lemma PrependedUnread(prev: seq<Notification>, n: Notification)
    requires |prev| < Capacity && !n.read
    ensures UnreadCount(Prepended(prev, n)) == UnreadCount(prev) + 1
  {
    assert Prepended(prev, n) == [n] + prev;
    UnreadCountIsCount(prev);
    UnreadCountIsCount([n] + prev);
    Seqs.CountAppend([n], prev, IsUnread);
  }

  /** After marking everything read nothing is unread. */
  lemma {:induction false} AllMarkedReadNoneUnread(prev: seq<Notification>)
    ensures UnreadCount(AllMarkedRead(prev)) == 0
  {
    Seqs.FilterNone(AllMarkedRead(prev), IsUnread);
  }

  /** Marking one id read twice is marking it once. */
  lemma MarkedReadIdempotent(prev: seq<Notification>, id: string)
    ensures MarkedRead(MarkedRead(prev, id), id) == MarkedRead(prev, id)
  {
  }

  /** Marking one id read never adds an unread notification, and leaves every
      notification with another id as it was. */
  lemma {:induction false} MarkedReadUnread(prev: seq<Notification>, id: string)
    ensures UnreadCount(MarkedRead(prev, id)) <= UnreadCount(prev)
    ensures forall i :: 0 <= i < |prev| && prev[i].id != id ==> MarkedRead(prev, id)[i] == prev[i]
  {
    UnreadCountIsCount(prev);
    UnreadCountIsCount(MarkedRead(prev, id));
    CountMarkedRead(prev, id);
  }

  lemma {:induction false} CountMarkedRead(prev: seq<Notification>, id: string)
    ensures Seqs.Count(MarkedRead(prev, id), IsUnread) <= Seqs.Count(prev, IsUnread)
  {
    if prev != [] {
      assert MarkedRead(prev, id)[1..] == MarkedRead(prev[1..], id);
      CountMarkedRead(prev[1..], id);
    }
  }

  class NotificationCenter {
    var notifications: seq<Notification>
    /** The `notifications` entry of `localStorage`, if any. */
    var stored: Option<seq<Notification>>
    var isOpen: bool

    constructor (stored: Option<seq<Notification>>)
      ensures notifications == [] && this.stored == stored && !isOpen
    {
      notifications, this.stored, isOpen := [], stored, false;
    }

    /** `fetchNotifications`: the stored list, when there is one. */
    method Fetch()
      modifies this
      ensures stored.Some? ==> notifications == stored.value
      ensures stored.None? ==> notifications == old(notifications)
      ensures stored == old(stored) && isOpen == old(isOpen)
    {
      if stored.Some? {
        notifications := stored.value;
      }
    }

    /** `addNotification` at time `now`: the new notification, unread and
        with id `now`, goes first; the oldest beyond fifty are dropped; the
        list is stored. Returns the title and body of the browser
        notification, shown when permission was granted. */
    method Add(kind: NotificationKind, title: string, message: string, link: Option<string>, now: int,
               permissionGranted: bool) returns (shown: Option<(string, string)>)
      modifies this
      ensures notifications == Prepended(old(notifications), Notification(IntToString(now), kind, title, message, now, false, link))
      ensures |old(notifications)| < Capacity ==> UnreadCount(notifications) == UnreadCount(old(notifications)) + 1
      ensures stored == Some(notifications) && isOpen == old(isOpen)
      ensures shown == if permissionGranted then Some((title, message)) else None
    {
      var n := Notification(IntToString(now), kind, title, message, now, false, link);
      if |notifications| < Capacity {
        PrependedUnread(notifications, n);
      }
      notifications := Prepended(notifications, n);
      stored := Some(notifications);
      shown := if permissionGranted then Some((title, message)) else None;
    }

    /** The `live_streams` subscription: a stream went live. */
    method OnStreamLive(streamTitle: string, now: int, permissionGranted: bool) returns (shown: Option<(string, string)>)
      modifies this
      ensures notifications == Prepended(old(notifications),
        Notification(IntToString(now), StreamNotice, "Live Stream Started!", streamTitle + " is now live", now, false, Some("/live")))
      ensures stored == Some(notifications) && isOpen == old(isOpen)
    {
      shown := Add(StreamNotice, "Live Stream Started!", streamTitle + " is now live", Some("/live"), now, permissionGranted);
    }

    /** The `prayer_sessions` subscription: a session became active. */
    method OnPrayerActive(sessionTitle: string, now: int, permissionGranted: bool) returns (shown: Option<(string, string)>)
      modifies this
      ensures notifications == Prepended(old(notifications),
        Notification(IntToString(now), PrayerNotice, "Prayer Session Started!", sessionTitle + " is now active", now, false, Some("/prayer")))
      ensures stored == Some(notifications) && isOpen == old(isOpen)
    {
      shown := Add(PrayerNotice, "Prayer Session Started!", sessionTitle + " is now active", Some("/prayer"), now, permissionGranted);
    }

    /** `markAsRead(id)`. */
    method MarkAsRead(id: string)
      modifies this
      ensures notifications == MarkedRead(old(notifications), id)
      ensures UnreadCount(notifications) <= UnreadCount(old(notifications))
      ensures stored == Some(notifications) && isOpen == old(isOpen)
    {
      MarkedReadUnread(notifications, id);
      notifications := MarkedRead(notifications, id);
      stored := Some(notifications);
    }

    /** A click on a notification: it is marked read and its link, if any,
        is where the page goes. */
    method Click(n: Notification) returns (goTo: Option<string>)
      modifies this
      ensures notifications == MarkedRead(old(notifications), n.id)
      ensures stored == Some(notifications) && isOpen == old(isOpen)
      ensures goTo == if n.link.Some? && n.link.value != "" then n.link else None
    {
      MarkAsRead(n.id);
      goTo := if n.link.Some? && n.link.value != "" then n.link else None;
    }

    /** `markAllAsRead`. */
    method MarkAllAsRead()
      modifies this
      ensures notifications == AllMarkedRead(old(notifications))
      ensures UnreadCount(notifications) == 0
      ensures stored == Some(notifications) && isOpen == old(isOpen)
    {
      AllMarkedReadNoneUnread(notifications);
      notifications := AllMarkedRead(notifications);
      stored := Some(notifications);
    }

    /** `clearAll`: the list and its stored copy are gone. */
    method ClearAll()
      modifies this
      ensures notifications == [] && stored.None? && isOpen == old(isOpen)
      ensures UnreadCount(notifications) == 0
    {
      notifications := [];
      stored := None;
    }

    /** The bell button opens and closes the panel. */
    method ToggleOpen()
      modifies this
      ensures isOpen == !old(isOpen)
      ensures notifications == old(notifications) && stored == old(stored)
    {
      isOpen := !isOpen;
    }
  }
}
