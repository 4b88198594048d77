/** The top bar's notification controls (`Header`): loading the list and the
    sound preference, and the handlers that call the server first and change
    the notification store only once the call succeeded. The 30-second poll
    repeats `Load`. */
module Header {
  import opened Common
  import opened Api
  import opened NotificationStore

  /** The page size of the notification list request. */
  const ListLimit: int := 50

  /** `NotificationList` as the server returns it. */
  datatype NotificationList = NotificationList(notifications: seq<Notification>, unreadCount: int, total: int)

  /** The badge on the bell: none for a zero (or negative) counter, the
      digit up to nine, `9+` above. */
  function BadgeText(count: int): (r: Option<string>)
    ensures r.Some? <==> count > 0
    ensures count > 9 ==> r == Some("9+")
    ensures 0 < count <= 9 ==> r.Some? && |r.value| == 1 && IsDigit(r.value[0])
  {
    if count <= 0 then None
    else if count > 9 then Some("9+")
    else Some([('0' as int + count) as char])
  }

  /** The badge reads as the counter for every single-digit value. */
  lemma BadgeShowsCount(count: int)
    requires 0 < count <= 9
    ensures BadgeText(count).Some? && BadgeText(count).value[0] as int - '0' as int == count
  {
  }

  /** The buttons in the open panel's heading. */
  datatype PanelActions = PanelActions(markAll: bool, clear: bool)

  function PanelActionsFor(ns: seq<Notification>, count: int): (r: PanelActions)
    ensures r.markAll <==> count > 0
    ensures r.clear <==> ns != []
    ensures r.markAll <==> BadgeText(count).Some?
  {
    PanelActions(count > 0, |ns| > 0)
  }

  /** The value of `enabled ?? true` from the sound-status reply. */
  function SoundFlag(enabled: Option<bool>): (r: bool)
    ensures enabled.None? ==> r
    ensures enabled.Some? ==> r == enabled.value
  {
    if enabled.Some? then enabled.value else true
  }

  /** The mount effect's first request (repeated by the poll). */
  method Load(store: NotificationState, reply: Reply<NotificationList>) returns (call: Call)
    modifies store
    ensures call == ListNotifications(ListLimit)
    ensures reply.Ok? ==>
      store.notifications == reply.value.notifications &&
      store.unreadCount == reply.value.unreadCount
    ensures !reply.Ok? ==>
      store.notifications == old(store.notifications) && store.unreadCount == old(store.unreadCount)
    ensures store.soundEnabled == old(store.soundEnabled) && store.isOpen == old(store.isOpen)
  {
    call := ListNotifications(ListLimit);
    if reply.Ok? {
      store.SetNotifications(reply.value.notifications, reply.value.unreadCount);
    }
  }

  /** The mount effect's sound-status request; a missing flag means on. */
  method LoadSound(store: NotificationState, reply: Reply<Option<bool>>) returns (call: Call)
    modifies store
    ensures call == GetSoundStatus
    ensures reply.Ok? ==> store.soundEnabled == SoundFlag(reply.value)
    ensures !reply.Ok? ==> store.soundEnabled == old(store.soundEnabled)
    ensures store.notifications == old(store.notifications) && store.unreadCount == old(store.unreadCount)
    ensures store.isOpen == old(store.isOpen)
  {
    call := GetSoundStatus;
    if reply.Ok? {
      store.SetSoundEnabled(SoundFlag(reply.value));
    }
  }

  /** `handleToggleSound`: asks for the opposite of the current flag and
      flips it locally only on success. */
  method ToggleSound(store: NotificationState, reply: Reply<bool>) returns (call: Call)
    modifies store
    ensures call == Api.ToggleSound(!old(store.soundEnabled))
    ensures store.soundEnabled == (if reply.Ok? then !old(store.soundEnabled) else old(store.soundEnabled))
    ensures store.notifications == old(store.notifications) && store.unreadCount == old(store.unreadCount)
    ensures store.isOpen == old(store.isOpen)
  {
    call := Api.ToggleSound(!store.soundEnabled);
    if reply.Ok? {
      store.SetSoundEnabled(!store.soundEnabled);
    }
  }

  /** `handleMarkRead(id)`. */
  method MarkRead(store: NotificationState, id: int, reply: Reply<bool>) returns (call: Call)
    modifies store
    ensures call == MarkNotificationRead(id)
    ensures reply.Ok? ==>
      store.notifications == MarkedRead(old(store.notifications), id) &&
      store.unreadCount == FloorDecrement(old(store.unreadCount))
    ensures !reply.Ok? ==>
      store.notifications == old(store.notifications) && store.unreadCount == old(store.unreadCount)
    ensures store.soundEnabled == old(store.soundEnabled) && store.isOpen == old(store.isOpen)
  {
    call := MarkNotificationRead(id);
    if reply.Ok? {
      store.MarkAsRead(id);
    }
  }

  /** `handleDelete(id)`. */
  method Delete(store: NotificationState, id: int, reply: Reply<bool>) returns (call: Call)
    requires store.CountValid()
    modifies store
    ensures call == DeleteNotification(id)
    ensures reply.Ok? ==>
      store.notifications == WithoutId(old(store.notifications), id) &&
      store.unreadCount == (if HasUnreadWithId(old(store.notifications), id)
                            then FloorDecrement(old(store.unreadCount)) else old(store.unreadCount))
    ensures !reply.Ok? ==>
      store.notifications == old(store.notifications) && store.unreadCount == old(store.unreadCount)
    ensures store.CountValid()
    ensures store.soundEnabled == old(store.soundEnabled) && store.isOpen == old(store.isOpen)
  {
    call := DeleteNotification(id);
    if reply.Ok? {
      store.RemoveNotification(id);
    }
  }

  /** `handleClearAll`. */
  method ClearAll(store: NotificationState, reply: Reply<bool>) returns (call: Call)
    modifies store
    ensures call == ClearNotifications
    ensures reply.Ok? ==> store.notifications == [] && store.unreadCount == 0
    ensures !reply.Ok? ==>
      store.notifications == old(store.notifications) && store.unreadCount == old(store.unreadCount)
    ensures store.soundEnabled == old(store.soundEnabled) && store.isOpen == old(store.isOpen)
  {
    call := ClearNotifications;
    if reply.Ok? {
      store.ClearAll();
    }
  }

  /** `handleMarkAllRead`: on success the counter is zeroed before the list
      is fetched again, and stays zero whatever count the refetch reports. */
  method MarkAllRead(store: NotificationState, reply: Reply<bool>, list: Reply<NotificationList>)
    returns (calls: seq<Call>)
    modifies store
    ensures calls == [MarkAllNotificationsRead] + (if reply.Ok? then [ListNotifications(ListLimit)] else [])
    ensures reply.Ok? ==> store.unreadCount == 0
    ensures reply.Ok? && list.Ok? ==> store.notifications == list.value.notifications
    ensures !(reply.Ok? && list.Ok?) ==> store.notifications == old(store.notifications)
    ensures !reply.Ok? ==> store.unreadCount == old(store.unreadCount)
    ensures store.soundEnabled == old(store.soundEnabled) && store.isOpen == old(store.isOpen)
  {
    calls := [MarkAllNotificationsRead];
    if !reply.Ok? {
      return;
    }
    store.SetUnreadCount(0);
    calls := calls + [ListNotifications(ListLimit)];
    if list.Ok? {
      store.SetNotifications(list.value.notifications, 0);
    }
  }

  /** A click outside the open panel closes it. */
  method OutsideClick(store: NotificationState)
    modifies store
    ensures !store.isOpen
    ensures store.notifications == old(store.notifications) && store.unreadCount == old(store.unreadCount)
    ensures store.soundEnabled == old(store.soundEnabled)
  {
    store.ClosePanel();
  }

  /** Whatever the server answers, a sequence of mark-read and delete clicks
      never drives the counter below zero. */
  method ClickThrough(ns: seq<Notification>, count: nat, ids: seq<int>, deletes: seq<bool>, replies: seq<bool>)
    returns (unreadCount: int)
    requires |deletes| == |ids| && |replies| == |ids|
    ensures unreadCount >= 0
    ensures unreadCount <= count
  {
    var store := new NotificationState();
    store.SetNotifications(ns, count);
    var k := 0;
    while k < |ids|
      invariant 0 <= k <= |ids|
      invariant store.CountValid() && store.unreadCount <= count
    {
      var reply: Reply<bool> := if replies[k] then Ok(true) else NoResponse;
      if deletes[k] {
        var _ := Delete(store, ids[k], reply);
      } else {
        var _ := MarkRead(store, ids[k], reply);
      }
      k := k + 1;
    }
    unreadCount := store.unreadCount;
  }
}
