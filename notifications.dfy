/**
 * The browser's notification centre (notification-system.js): the list of
 * notifications, newest first and at most 100, and the unread counter shown
 * on the badge. The WebSocket, the polling, the pop-ups, localStorage and
 * the read confirmations sent to the server are not modelled; a confirmation
 * is returned instead of sent.
 */
module Notifications {
  import opened Wrappers

  datatype Notification = Notification(id: string, kind: string, priority: string, timestamp: int, isRead: bool)

  /** The most notifications the centre keeps. */
  const NotificationLimit: nat := 100

  /** The number of unread notifications in a list. */
  function UnreadIn(ns: seq<Notification>): (c: nat)
    ensures c <= |ns|
    ensures c == 0 <==> forall k :: 0 <= k < |ns| ==> ns[k].isRead
  {
    if ns == [] then 0 else (if ns[0].isRead then 0 else 1) + UnreadIn(ns[1..])
  }

  lemma {:induction false} UnreadInAppend(a: seq<Notification>, b: seq<Notification>)
    ensures UnreadIn(a + b) == UnreadIn(a) + UnreadIn(b)
    decreases |a|
  {
    if a != [] {
      assert (a + b)[0] == a[0] && (a + b)[1..] == a[1..] + b;
      UnreadInAppend(a[1..], b);
    } else {
      assert a + b == b;
    }
  }

  /** The ids of the unread notifications, in list order. */
  function UnreadIds(ns: seq<Notification>): (ids: seq<string>)
    ensures |ids| == UnreadIn(ns)
    ensures forall x :: x in ids <==> exists k :: 0 <= k < |ns| && !ns[k].isRead && ns[k].id == x
  {
    if ns == [] then []
    else
      var rest := UnreadIds(ns[1..]);
      assert forall k :: 1 <= k < |ns| ==> ns[k] == ns[1..][k - 1];
      if ns[0].isRead then rest else [ns[0].id] + rest
  }

  predicate IdsDistinct(ns: seq<Notification>) {
    forall j, k :: 0 <= j < k < |ns| ==> ns[j].id != ns[k].id
  }

  predicate HasId(ns: seq<Notification>, id: string) {
    exists k :: 0 <= k < |ns| && ns[k].id == id
  }

  /** find / findIndex by id: the first notification with the id. */
  function IndexOf(ns: seq<Notification>, id: string): (i: Option<nat>)
    ensures i.Some? ==> i.value < |ns| && ns[i.value].id == id && forall k :: 0 <= k < i.value ==> ns[k].id != id
    ensures i.None? <==> !HasId(ns, id)
  {
    if ns == [] then None
    else if ns[0].id == id then Some(0)
    else
      match IndexOf(ns[1..], id)
      case None => assert forall k :: 1 <= k < |ns| ==> ns[k] == ns[1..][k - 1]; None
      case Some(i) => Some(i + 1)
  }

  /** A position with the id and none before it is the one IndexOf finds. */
  lemma FirstIndex(ns: seq<Notification>, id: string, i: nat)
    requires i < |ns| && ns[i].id == id && forall k :: 0 <= k < i ==> ns[k].id != id
    ensures IndexOf(ns, id) == Some(i)
  {
    assert HasId(ns, id);
  }

  function Take(ns: seq<Notification>, n: nat): (r: seq<Notification>)
    ensures |r| == if |ns| <= n then |ns| else n
    ensures r == ns[..|r|]
  {
    if |ns| <= n then ns else ns[..n]
  }

  // ---------------------------------------------------------------------
  // addNotification
  // ---------------------------------------------------------------------

  /** The list after addNotification: a new id is put in front, then the list is cut to 100. */
  function AddedList(ns: seq<Notification>, n: Notification): (r: seq<Notification>)
  {
    Take(if HasId(ns, n.id) then ns else [n] + ns, NotificationLimit)
  }

  /** The counter as addNotification keeps it: one more for a new unread notification. */
  function AsWrittenAddedCount(ns: seq<Notification>, count: nat, n: Notification): nat {
    if !HasId(ns, n.id) && !n.isRead then count + 1 else count
  }

  /** The counter corrected for the unread notifications the cut drops. */
  function AddedCount(ns: seq<Notification>, count: nat, n: Notification): nat {
    var grown := if HasId(ns, n.id) then ns else [n] + ns;
    var dropped := UnreadIn(grown) - UnreadIn(AddedList(ns, n));
    if AsWrittenAddedCount(ns, count, n) >= dropped then AsWrittenAddedCount(ns, count, n) - dropped else 0
  }

  lemma UnreadInTake(ns: seq<Notification>, n: nat)
    ensures UnreadIn(Take(ns, n)) <= UnreadIn(ns)
  {
    UnreadInAppend(Take(ns, n), ns[|Take(ns, n)|..]);
    assert Take(ns, n) + ns[|Take(ns, n)|..] == ns;
  }

  /**
   * A list with distinct ids and at most 100 entries keeps both, holds the
   * id afterwards, and the corrected counter counts the unread notifications
   * of the list that results.
   */
  lemma AddNotificationCorrect(ns: seq<Notification>, count: nat, n: Notification)
    requires IdsDistinct(ns) && |ns| <= NotificationLimit && count == UnreadIn(ns)
    ensures var r := AddedList(ns, n);
      IdsDistinct(r) && |r| <= NotificationLimit && HasId(r, n.id) &&
      AddedCount(ns, count, n) == UnreadIn(r)
  {
    var grown := if HasId(ns, n.id) then ns else [n] + ns;
    var r := AddedList(ns, n);
    UnreadInTake(grown, NotificationLimit);
    UnreadInAppend([n], ns);
    if !HasId(ns, n.id) {
      assert HasId(r, n.id) by { assert r[0] == n; }
      assert forall k :: 1 <= k < |grown| ==> grown[k] == ns[k - 1];
    }
  }

  /** An existing id changes nothing; a new one comes first, before the newest of the rest. */
  lemma AddNotificationShape(ns: seq<Notification>, count: nat, n: Notification)
    requires |ns| <= NotificationLimit
    ensures HasId(ns, n.id) ==> AddedList(ns, n) == ns && AddedCount(ns, count, n) == count
    ensures !HasId(ns, n.id) ==>
      (AddedList(ns, n)[0] == n && AddedList(ns, n)[1..] == ns[..|AddedList(ns, n)| - 1])
  {
  }

  /**
   * As written, the counter drifts: a new unread notification on a full list
   * whose oldest entry is unread counts one more unread notification than
   * the list then holds.
   */
  lemma CapDropsUnreadNotification(ns: seq<Notification>, n: Notification)
    requires |ns| == NotificationLimit && !ns[NotificationLimit - 1].isRead
    requires !HasId(ns, n.id) && !n.isRead
    ensures AsWrittenAddedCount(ns, UnreadIn(ns), n) == UnreadIn(AddedList(ns, n)) + 1
  {
    var grown := [n] + ns;
    var r := AddedList(ns, n);
    assert grown == r + [ns[NotificationLimit - 1]];
    UnreadInAppend(r, [ns[NotificationLimit - 1]]);
    UnreadInAppend([n], ns);
  }

  // ---------------------------------------------------------------------
  // markAsRead, markAllAsRead, deleteNotification
  // ---------------------------------------------------------------------

  /** The list after markAsRead: the first notification with the id, if unread, becomes read. */
  function MarkedRead(ns: seq<Notification>, id: string): (r: seq<Notification>)
    ensures |r| == |ns|
  {
    match IndexOf(ns, id)
    case None => ns
    case Some(i) => if ns[i].isRead then ns else ns[i := ns[i].(isRead := true)]
  }

  /** The unread count falls by one exactly when an unread notification had the id. */
  lemma MarkAsReadCount(ns: seq<Notification>, id: string)
    ensures var i := IndexOf(ns, id);
      UnreadIn(MarkedRead(ns, id)) == if i.Some? && !ns[i.value].isRead then UnreadIn(ns) - 1 else UnreadIn(ns)
  {
    match IndexOf(ns, id)
    case None =>
    case Some(i) =>
      if !ns[i].isRead {
        var r := MarkedRead(ns, id);
        assert ns == ns[..i] + [ns[i]] + ns[i + 1..];
        assert r == ns[..i] + [r[i]] + ns[i + 1..];
        UnreadInAppend(ns[..i] + [ns[i]], ns[i + 1..]);
        UnreadInAppend(ns[..i], [ns[i]]);
        UnreadInAppend(ns[..i] + [r[i]], ns[i + 1..]);
        UnreadInAppend(ns[..i], [r[i]]);
      }
  }

  /** The notification with the id is read afterwards, and marking twice is marking once. */
  lemma MarkAsReadIdempotent(ns: seq<Notification>, id: string)
    ensures IndexOf(ns, id).Some? ==> MarkedRead(ns, id)[IndexOf(ns, id).value].isRead
    ensures MarkedRead(MarkedRead(ns, id), id) == MarkedRead(ns, id)
  {
    match IndexOf(ns, id)
    case None =>
    case Some(i) =>
      var r := MarkedRead(ns, id);
      assert forall k :: 0 <= k < |r| ==> r[k].id == ns[k].id;
      assert HasId(r, id) by { assert r[i].id == id; }
      FirstIndex(r, id, i);
  }

  function AllRead(ns: seq<Notification>): (r: seq<Notification>)
    ensures |r| == |ns|
    ensures forall k :: 0 <= k < |r| ==> r[k] == ns[k].(isRead := true)
  {
    seq(|ns|, k requires 0 <= k < |ns| => ns[k].(isRead := true))
  }

  /** After markAllAsRead nothing is unread, and the ids stay as they were. */
  lemma MarkAllAsReadCorrect(ns: seq<Notification>)
    ensures UnreadIn(AllRead(ns)) == 0
    ensures forall k :: 0 <= k < |ns| ==> AllRead(ns)[k].id == ns[k].id
    ensures IdsDistinct(ns) ==> IdsDistinct(AllRead(ns))
  {
  }

  /** The ids markAllAsRead confirms as written: the unread ones, collected after all were marked read. */
  function AsWrittenReadConfirmation(ns: seq<Notification>): seq<string> {
    UnreadIds(AllRead(ns))
  }

  /** As written, the batch confirmation never names a notification, even when some were unread. */
  lemma ReadConfirmationAlwaysEmpty(ns: seq<Notification>)
    ensures AsWrittenReadConfirmation(ns) == []
    ensures UnreadIn(ns) > 0 ==> AsWrittenReadConfirmation(ns) != UnreadIds(ns)
  {
    MarkAllAsReadCorrect(ns);
  }

  /** The ids collected before marking: exactly the notifications that were unread. */
  lemma ReadConfirmationCorrected(ns: seq<Notification>)
    requires IdsDistinct(ns)
    ensures |UnreadIds(ns)| == UnreadIn(ns)
    ensures forall k :: 0 <= k < |ns| ==> (ns[k].id in UnreadIds(ns) <==> !ns[k].isRead)
  {
  }

  /** The list after deleteNotification: the first notification with the id is taken out. */
  function Deleted(ns: seq<Notification>, id: string): (r: seq<Notification>)
  {
    match IndexOf(ns, id)
    case None => ns
    case Some(i) => ns[..i] + ns[i + 1..]
  }

  /** Deleting takes one entry and, if it was unread, one unread. */
  lemma DeleteCounts(ns: seq<Notification>, id: string)
    ensures IndexOf(ns, id).None? ==> Deleted(ns, id) == ns
    ensures var i := IndexOf(ns, id);
      i.Some? ==>
        (|Deleted(ns, id)| == |ns| - 1 &&
         UnreadIn(Deleted(ns, id)) == if ns[i.value].isRead then UnreadIn(ns) else UnreadIn(ns) - 1)
  {
    match IndexOf(ns, id)
    case None =>
    case Some(i) =>
      assert ns == ns[..i] + [ns[i]] + ns[i + 1..];
      UnreadInAppend(ns[..i] + [ns[i]], ns[i + 1..]);
      UnreadInAppend(ns[..i], [ns[i]]);
      UnreadInAppend(ns[..i], ns[i + 1..]);
  }

  /** In a list with distinct ids, deleting keeps them distinct and removes the id. */
  lemma DeleteRemovesId(ns: seq<Notification>, id: string)
    requires IdsDistinct(ns)
    ensures IdsDistinct(Deleted(ns, id)) && !HasId(Deleted(ns, id), id)
  {
    match IndexOf(ns, id)
    case None =>
    case Some(i) =>
      var r := Deleted(ns, id);
      assert forall k :: 0 <= k < |r| ==> r[k] == if k < i then ns[k] else ns[k + 1];
  }

  /** Math.max(0, count - 1). */
  function Decremented(count: nat): (c: nat)
    ensures count > 0 ==> c == count - 1
    ensures count == 0 ==> c == 0
  {
    if count > 0 then count - 1 else 0
  }

  // ---------------------------------------------------------------------
  // The notification centre
  // ---------------------------------------------------------------------

  class NotificationCenter {
    var notifications: seq<Notification>
    var unreadCount: nat

    /** Distinct ids, at most 100 of them, and a counter that matches the list. */
    ghost predicate Valid()
      reads this
    {
      IdsDistinct(notifications) && |notifications| <= NotificationLimit && unreadCount == UnreadIn(notifications)
    }

    constructor()
      ensures Valid() && notifications == [] && unreadCount == 0
    {
      notifications := [];
      unreadCount := 0;
    }

    /** addNotification, with the counter corrected for the notifications the cut drops. */
    method AddNotification(n: Notification)
      requires Valid()
      modifies this
      ensures Valid()
      ensures notifications == AddedList(old(notifications), n)
      ensures unreadCount == AddedCount(old(notifications), old(unreadCount), n)
    {
      AddNotificationCorrect(notifications, unreadCount, n);
      var count := AddedCount(notifications, unreadCount, n);
      if IndexOf(notifications, n.id).None? {
        notifications := [n] + notifications;
      }
      if |notifications| > NotificationLimit {
        notifications := notifications[..NotificationLimit];
      }
      unreadCount := count;
    }

    /** markAsRead; sent says whether a read confirmation goes to the server. */
    method MarkAsRead(id: string) returns (sent: bool)
      requires Valid()
      modifies this
      ensures Valid()
      ensures notifications == MarkedRead(old(notifications), id)
      ensures sent <==> IndexOf(old(notifications), id).Some? && !old(notifications)[IndexOf(old(notifications), id).value].isRead
      ensures unreadCount == if sent then Decremented(old(unreadCount)) else old(unreadCount)
    {
      MarkAsReadCount(notifications, id);
      var i := IndexOf(notifications, id);
      sent := false;
      if i.Some? && !notifications[i.value].isRead {
        notifications := notifications[i.value := notifications[i.value].(isRead := true)];
        unreadCount := Decremented(unreadCount);
        sent := true;
      }
    }

    /**
     * markAllAsRead, marking each notification in turn; it returns the ids
     * to confirm, collected before the marking.
     */
    method MarkAllAsRead() returns (confirmed: seq<string>)
      requires Valid()
      modifies this
      ensures Valid()
      ensures notifications == AllRead(old(notifications)) && unreadCount == 0
      ensures confirmed == UnreadIds(old(notifications))
    {
      confirmed := UnreadIds(notifications);
      var ns := notifications;
      var k := 0;
      while k < |ns|
        invariant 0 <= k <= |ns| && |ns| == |notifications|
        invariant forall j :: 0 <= j < k ==> ns[j] == notifications[j].(isRead := true)
        invariant forall j :: k <= j < |ns| ==> ns[j] == notifications[j]
      {
        if !ns[k].isRead {
          ns := ns[k := ns[k].(isRead := true)];
        }
        k := k + 1;
      }
      MarkAllAsReadCorrect(notifications);
      notifications := ns;
      unreadCount := 0;
    }

    /** deleteNotification; a missing id changes nothing. */
    method DeleteNotification(id: string)
      requires Valid()
      modifies this
      ensures Valid()
      ensures notifications == Deleted(old(notifications), id)
      ensures unreadCount == if IndexOf(old(notifications), id).Some? && !old(notifications)[IndexOf(old(notifications), id).value].isRead
                             then Decremented(old(unreadCount)) else old(unreadCount)
    {
      DeleteCounts(notifications, id);
      DeleteRemovesId(notifications, id);
      var i := IndexOf(notifications, id);
      if i.Some? {
        if !notifications[i.value].isRead {
          unreadCount := Decremented(unreadCount);
        }
        notifications := notifications[..i.value] + notifications[i.value + 1..];
      }
    }

    /** clearAllNotifications once the user confirms the dialog. */
    method ClearAllNotifications(confirmedByUser: bool)
      requires Valid()
      modifies this
      ensures Valid()
      ensures confirmedByUser ==> notifications == [] && unreadCount == 0
      ensures !confirmedByUser ==> notifications == old(notifications) && unreadCount == old(unreadCount)
    {
      if confirmedByUser {
        notifications := [];
        unreadCount := 0;
      }
    }
  }

  /** Adding, then deleting, a new notification leaves the centre as it was when nothing was cut. */
  method AddThenDelete(c: NotificationCenter, n: Notification)
    requires c.Valid() && !HasId(c.notifications, n.id) && |c.notifications| < NotificationLimit
    modifies c
    ensures c.Valid()
    ensures c.notifications == old(c.notifications) && c.unreadCount == old(c.unreadCount)
  {
    ghost var before := c.notifications;
    c.AddNotification(n);
    assert c.notifications == [n] + before;
    assert IndexOf(c.notifications, n.id) == Some(0);
    c.DeleteNotification(n.id);
    assert c.notifications == ([n] + before)[1..];
  }
}
