/**
 * The notification store of the dashboard (the `useNotifications` hook): a list
 * of notifications, the number of unread ones, and the three updates the hook
 * offers. Each update maps or filters the previous list into a new one, so the
 * hook's state is threaded here as a value of type `seq<Notification>`.
 */
module Notifications {
  import opened Wrappers
  import Seqs

  datatype NotificationType = ReconnectionExpired | CampaignCompleted | Info

  /** A notification; `timestamp` is in milliseconds since the epoch. */
  datatype Notification = Notification(
    id: string,
    kind: NotificationType,
    title: string,
    message: string,
    instanceId: Option<string>,
    instanceName: Option<string>,
    timestamp: int,
    isRead: bool)

  predicate IsUnread(n: Notification) {
    !n.isRead
  }

  function WithId(id: string): Notification -> bool {
    (n: Notification) => n.id == id
  }

  function OtherId(id: string): Notification -> bool {
    (n: Notification) => n.id != id
  }

  function UnreadWithId(id: string): Notification -> bool {
    (n: Notification) => !n.isRead && n.id == id
  }

  /** `notifications.filter(n => !n.isRead).length` */
  function UnreadCount(ns: seq<Notification>): nat {
    |Seqs.Filter(IsUnread, ns)|
  }

  /** The number of notifications carrying `id`. */
  function MatchCount(ns: seq<Notification>, id: string): nat {
    |Seqs.Filter(WithId(id), ns)|
  }

  /** `markAsRead(id)`: every entry with that id becomes read; nothing else changes. */
  function MarkAsRead(ns: seq<Notification>, id: string): (r: seq<Notification>)
    ensures |r| == |ns|
    ensures forall i :: 0 <= i < |ns| ==> r[i].isRead == (ns[i].isRead || ns[i].id == id)
    ensures forall i :: 0 <= i < |ns| ==> r[i].(isRead := ns[i].isRead) == ns[i]
  {
    seq(|ns|, i requires 0 <= i < |ns| => if ns[i].id == id then ns[i].(isRead := true) else ns[i])
  }

  /** `markAllAsRead()`: every entry becomes read; nothing else changes. */
  function MarkAllAsRead(ns: seq<Notification>): (r: seq<Notification>)
    ensures |r| == |ns|
    ensures forall i :: 0 <= i < |ns| ==> r[i].isRead && r[i].(isRead := ns[i].isRead) == ns[i]
  {
    seq(|ns|, i requires 0 <= i < |ns| => ns[i].(isRead := true))
  }

  /** `dismiss(id)`: `notifications.filter(n => n.id !== id)` */
  function Dismiss(ns: seq<Notification>, id: string): seq<Notification> {
    Seqs.Filter(OtherId(id), ns)
  }

  /** The unread count is the number of positions holding an unread notification. */
  lemma UnreadCountIsNumberOfUnreadPositions(ns: seq<Notification>)
    ensures UnreadCount(ns) == |set i: nat | i < |ns| && !ns[i].isRead|
  {
    Seqs.FilterLengthCountsIndices(IsUnread, ns);
    assert Seqs.IndicesWhere(IsUnread, ns) == set i: nat | i < |ns| && !ns[i].isRead;
  }

  /** The count is zero exactly when every notification is read. */
  lemma {:induction false} UnreadCountZeroIffAllRead(ns: seq<Notification>)
    ensures UnreadCount(ns) == 0 <==> forall i :: 0 <= i < |ns| ==> ns[i].isRead
  {
    if forall i :: 0 <= i < |ns| ==> ns[i].isRead {
      Seqs.FilterDropsAll(IsUnread, ns);
    } else {
      var i :| 0 <= i < |ns| && !ns[i].isRead;
      assert ns[i] in Seqs.Filter(IsUnread, ns);
    }
  }

  /** Marking one id as read lowers the count by exactly the unread entries with that id. */
  lemma {:induction false} MarkAsReadUnreadCount(ns: seq<Notification>, id: string)
    ensures UnreadCount(MarkAsRead(ns, id)) == UnreadCount(ns) - |Seqs.Filter(UnreadWithId(id), ns)|
    ensures UnreadCount(MarkAsRead(ns, id)) <= UnreadCount(ns)
  {
    if ns != [] {
      MarkAsReadUnreadCount(ns[1..], id);
      var r := MarkAsRead(ns, id);
      assert r[1..] == MarkAsRead(ns[1..], id);
      assert r[0] == ns[0].(isRead := ns[0].isRead || ns[0].id == id);
      assert Seqs.Filter(IsUnread, r) == (if IsUnread(r[0]) then [r[0]] else []) + Seqs.Filter(IsUnread, r[1..]);
    }
  }

  /** Marking the same id twice is the same as marking it once. */
  lemma MarkAsReadIdempotent(ns: seq<Notification>, id: string)
    ensures MarkAsRead(MarkAsRead(ns, id), id) == MarkAsRead(ns, id)
  {
  }

  /** After marking all as read nothing is unread, and doing it again changes nothing. */
  lemma MarkAllAsReadClearsUnread(ns: seq<Notification>)
    ensures UnreadCount(MarkAllAsRead(ns)) == 0
    ensures MarkAllAsRead(MarkAllAsRead(ns)) == MarkAllAsRead(ns)
  {
    Seqs.FilterDropsAll(IsUnread, MarkAllAsRead(ns));
  }

  /** Dismissing keeps, in their original order, exactly the entries with another id,
      and the list shrinks by the number of entries with that id. */
  lemma DismissRemovesExactlyMatches(ns: seq<Notification>, id: string)
    ensures Seqs.IsSubsequence(Dismiss(ns, id), ns)
    ensures forall n :: n in Dismiss(ns, id) <==> n in ns && n.id != id
    ensures |Dismiss(ns, id)| == |ns| - MatchCount(ns, id)
  {
    Seqs.FilterIsSubsequence(OtherId(id), ns);
    Seqs.FilterComplementLength(OtherId(id), WithId(id), ns);
  }

  /** Dismissing an id that no entry carries leaves the list as it was. */
  lemma DismissAbsentIsNoop(ns: seq<Notification>, id: string)
    requires forall i :: 0 <= i < |ns| ==> ns[i].id != id
    ensures Dismiss(ns, id) == ns
  {
    Seqs.FilterKeepsAll(OtherId(id), ns);
  }

  /** Marking an entry read before dismissing it makes no difference to the result. */
  lemma {:induction false} DismissAfterMarkAsRead(ns: seq<Notification>, id: string)
    ensures Dismiss(MarkAsRead(ns, id), id) == Dismiss(ns, id)
  {
    if ns != [] {
      DismissAfterMarkAsRead(ns[1..], id);
      var r := MarkAsRead(ns, id);
      assert r[1..] == MarkAsRead(ns[1..], id);
      assert Dismiss(r, id) == (if r[0].id != id then [r[0]] else []) + Dismiss(r[1..], id);
    }
  }
}
