/** The notification store (`useNotificationStore`): the loaded notifications,
    a separately tracked unread counter, the sound preference and whether the
    panel is open. The list updates are pure functions on sequences; the
    store is a class whose methods replace its fields with their results. */
module NotificationStore {
  import opened Common

  /** `NotificationResponse`; its free-form `data` payload is not modelled. */
  datatype Notification = Notification(
    id: int,
    userId: int,
    kind: string,
    title: string,
    message: Option<string>,
    isRead: bool,
    createdAt: string)

  /** `n.id === id ? { ...n, is_read: true } : n`. */
  function MarkOne(n: Notification, id: int): (r: Notification)
    ensures r.id == n.id && r.(isRead := n.isRead) == n
    ensures r.isRead <==> n.isRead || n.id == id
  {
    if n.id == id then n.(isRead := true) else n
  }

  /** `notifications.map(...)` of `markAsRead(id)`: the records with that id
      are read, every other record is kept as it was, in place. */
  function MarkedRead(ns: seq<Notification>, id: int): (r: seq<Notification>)
    ensures |r| == |ns|
    ensures forall i :: 0 <= i < |ns| && ns[i].id == id ==> r[i] == ns[i].(isRead := true)
    ensures forall i :: 0 <= i < |ns| && ns[i].id != id ==> r[i] == ns[i]
  {
    if ns == [] then [] else [MarkOne(ns[0], id)] + MarkedRead(ns[1..], id)
  }

  /** `notifications.filter((n) => n.id !== id)`. */
  function WithoutId(ns: seq<Notification>, id: int): (r: seq<Notification>)
    ensures forall n :: n in r <==> n in ns && n.id != id
    ensures |r| <= |ns|
    ensures (forall n :: n in ns ==> n.id != id) ==> r == ns
  {
    if ns == [] then []
    else if ns[0].id == id then WithoutId(ns[1..], id)
    else [ns[0]] + WithoutId(ns[1..], id)
  }

  /** Filtering distributes over concatenation: the records that stay keep
      their relative order. */
  lemma {:induction false} WithoutIdAppend(a: seq<Notification>, b: seq<Notification>, id: int)
    ensures WithoutId(a + b, id) == WithoutId(a, id) + WithoutId(b, id)
  {
    if a == [] {
      assert a + b == b;
    } else {
      assert (a + b)[1..] == a[1..] + b;
      WithoutIdAppend(a[1..], b, id);
    }
  }

  /** `notifications.find((n) => n.id === id && !n.is_read)` finds something. */
  predicate HasUnreadWithId(ns: seq<Notification>, id: int) {
    exists i :: 0 <= i < |ns| && ns[i].id == id && !ns[i].isRead
  }

  /** `Math.max(0, c - 1)`. */
  function FloorDecrement(c: int): (r: int)
    ensures r >= 0
    ensures c >= 1 ==> r == c - 1
    ensures c <= 1 ==> r == 0
  {
    if c - 1 > 0 then c - 1 else 0
  }

  /** Once a record is marked read there is nothing unread left under its id,
      so deleting it afterwards does not decrement the counter a second time. */
  lemma MarkedReadHasNoUnread(ns: seq<Notification>, id: int)
    ensures !HasUnreadWithId(MarkedRead(ns, id), id)
  {
    var r := MarkedRead(ns, id);
    forall i | 0 <= i < |r| && r[i].id == id
      ensures r[i].isRead
    {
      assert ns[i].id == id;
    }
  }

  /** Marking and then deleting an id leaves the same list as deleting it
      directly. */
  lemma {:induction false} WithoutIdAfterMarkedRead(ns: seq<Notification>, id: int)
    ensures WithoutId(MarkedRead(ns, id), id) == WithoutId(ns, id)
  {
    if ns != [] {
      WithoutIdAfterMarkedRead(ns[1..], id);
      assert MarkedRead(ns, id)[1..] == MarkedRead(ns[1..], id);
    }
  }

  class NotificationState {
    var notifications: seq<Notification>
    var unreadCount: int
    var soundEnabled: bool
    var isOpen: bool

    /** The counter is never negative. The store does not keep it in step
        with the list; only the floor is an invariant. */
    predicate CountValid()
      reads this
    {
      unreadCount >= 0
    }

    constructor ()
      ensures notifications == [] && unreadCount == 0 && soundEnabled && !isOpen
      ensures CountValid()
    {
      notifications, unreadCount, soundEnabled, isOpen := [], 0, true, false;
    }

    /** `setNotifications(ns, count)`: both replaced by the given values. */
    method SetNotifications(ns: seq<Notification>, count: int)
      modifies this`notifications, this`unreadCount
      ensures notifications == ns && unreadCount == count
    {
      notifications, unreadCount := ns, count;
    }

    method SetUnreadCount(count: int)
      modifies this`unreadCount
      ensures unreadCount == count
    {
      unreadCount := count;
    }

    method SetSoundEnabled(enabled: bool)
      modifies this`soundEnabled
      ensures soundEnabled == enabled
    {
      soundEnabled := enabled;
    }

    /** `togglePanel()`: flips `isOpen`; applying it twice restores it. */
    method TogglePanel()
      modifies this`isOpen
      ensures isOpen == !old(isOpen)
    {
      isOpen := !isOpen;
    }

    method ClosePanel()
      modifies this`isOpen
      ensures !isOpen
    {
      isOpen := false;
    }

    /** `markAsRead(id)`: the records with that id become read and the
        counter drops by one, floored at zero, even when no record was unread. */
    method MarkAsRead(id: int)
      modifies this`notifications, this`unreadCount
      ensures notifications == MarkedRead(old(notifications), id)
      ensures unreadCount == FloorDecrement(old(unreadCount))
      ensures CountValid()
    {
      notifications, unreadCount := MarkedRead(notifications, id), FloorDecrement(unreadCount);
    }

    /** `removeNotification(id)`: drops the records with that id; the counter
        drops by one (floored) iff one of them was unread. */
    method RemoveNotification(id: int)
      requires CountValid()
      modifies this`notifications, this`unreadCount
      ensures notifications == WithoutId(old(notifications), id)
      ensures HasUnreadWithId(old(notifications), id) ==> unreadCount == FloorDecrement(old(unreadCount))
      ensures !HasUnreadWithId(old(notifications), id) ==> unreadCount == old(unreadCount)
      ensures CountValid()
    {
      var count := if HasUnreadWithId(notifications, id) then FloorDecrement(unreadCount) else unreadCount;
      notifications, unreadCount := WithoutId(notifications, id), count;
    }

    method ClearAll()
      modifies this`notifications, this`unreadCount
      ensures notifications == [] && unreadCount == 0
      ensures CountValid()
    {
      notifications, unreadCount := [], 0;
    }

    /** `addNotification(n)`: prepends `n` and counts it as unread whatever
        its `is_read` says. */
    method AddNotification(n: Notification)
      requires CountValid()
      modifies this`notifications, this`unreadCount
      ensures notifications == [n] + old(notifications)
      ensures unreadCount == old(unreadCount) + 1
      ensures CountValid()
    {
      notifications, unreadCount := [n] + notifications, unreadCount + 1;
    }
  }

  /** Two toggles restore the panel and leave the list and the counter alone. */
  method ToggleTwice(ns: seq<Notification>, count: int, open: bool)
    returns (isOpen: bool, notifications: seq<Notification>, unreadCount: int)
    ensures isOpen == open && notifications == ns && unreadCount == count
  {
    var s := new NotificationState();
    s.SetNotifications(ns, count);
    if open { s.TogglePanel(); }
    var before := s.isOpen;
    s.TogglePanel();
    s.TogglePanel();
    assert s.isOpen == before;
    isOpen, notifications, unreadCount := s.isOpen, s.notifications, s.unreadCount;
  }

  /** `clearAll` twice leaves the store as `clearAll` once. */
  method ClearAllTwice(ns: seq<Notification>, count: int)
    returns (notifications: seq<Notification>, unreadCount: int)
    ensures notifications == [] && unreadCount == 0
  {
    var s := new NotificationState();
    s.SetNotifications(ns, count);
    s.ClearAll();
    s.ClearAll();
    notifications, unreadCount := s.notifications, s.unreadCount;
  }
}
