/** The notification store (src/utils/notificationStorage.ts): one localStorage entry
    holding the list of notifications, read, transformed and written back by every
    operation. The store is the entry's parsed value, `None` when nothing is stored;
    JSON (de)serialisation is the identity on these records. */
module NotificationStorage {
  import opened Wrappers

  datatype Kind = Info | Warning | Success

  datatype Notification = Notification(id: string, title: string, message: string, time: string,
                                       isRead: bool, kind: Kind)

  /** `Omit<Notification, "id">`: what a caller of `addNotification` supplies. */
  datatype Draft = Draft(title: string, message: string, time: string, isRead: bool, kind: Kind)

  const Defaults: seq<Notification> := [
    Notification("1", "목적지 도착 알림", "대전역에 도착했습니다. 다음 목적지로 이동하세요.", "2분 전", false, Info),
    Notification("2", "새로운 추천 경로", "현재 위치 기반으로 새로운 추천 경로가 있습니다.", "10분 전", false, Success),
    Notification("3", "날씨 알림", "오늘 오후에 비가 올 예정입니다. 우산을 챙기세요.", "1시간 전", true, Warning),
    Notification("4", "D-CODE 업데이트", "새로운 기능이 추가되었습니다. 확인해보세요!", "2시간 전", true, Info)
  ]

  /** Number of unread entries. */
  function UnreadCount(ns: seq<Notification>): (n: nat)
    ensures n <= |ns|
  {
    if ns == [] then 0 else (if ns[0].isRead then 0 else 1) + UnreadCount(ns[1..])
  }

  /** Number of unread entries with the given id. */
  function UnreadWithId(ns: seq<Notification>, id: string): (n: nat)
    ensures n <= UnreadCount(ns)
  {
    if ns == [] then 0 else (if !ns[0].isRead && ns[0].id == id then 1 else 0) + UnreadWithId(ns[1..], id)
  }

  /** Number of entries with the given id. */
  function CountId(ns: seq<Notification>, id: string): nat {
    if ns == [] then 0 else (if ns[0].id == id then 1 else 0) + CountId(ns[1..], id)
  }

  /** The `map` of `markNotificationAsRead`. */
  function MarkRead(ns: seq<Notification>, id: string): (r: seq<Notification>)
    ensures |r| == |ns|
    ensures forall i :: 0 <= i < |ns| ==>
              r[i] == (if ns[i].id == id then ns[i].(isRead := true) else ns[i])
  {
    seq(|ns|, i requires 0 <= i < |ns| => if ns[i].id == id then ns[i].(isRead := true) else ns[i])
  }

  /** The `map` of `markAllNotificationsAsRead`. */
  function MarkAllRead(ns: seq<Notification>): (r: seq<Notification>)
    ensures |r| == |ns|
    ensures forall i :: 0 <= i < |ns| ==> r[i] == ns[i].(isRead := true)
  {
    seq(|ns|, i requires 0 <= i < |ns| => ns[i].(isRead := true))
  }

  /** The `filter` of `deleteNotification`. */
  function Remove(ns: seq<Notification>, id: string): (r: seq<Notification>)
    ensures forall n :: n in r <==> n in ns && n.id != id
    ensures |r| + CountId(ns, id) == |ns|
  {
    if ns == [] then []
    else if ns[0].id == id then Remove(ns[1..], id)
    else [ns[0]] + Remove(ns[1..], id)
  }

  /** Marking an id read lowers the unread count by exactly the unread entries with
      that id, so it never raises it. */
  lemma {:induction false} MarkReadUnread(ns: seq<Notification>, id: string)
    ensures UnreadCount(MarkRead(ns, id)) == UnreadCount(ns) - UnreadWithId(ns, id)
  {
    if ns != [] {
      MarkReadUnread(ns[1..], id);
      assert MarkRead(ns, id)[1..] == MarkRead(ns[1..], id);
    }
  }

  /** Marking the same id read twice is the same as once. */
  lemma MarkReadIdempotent(ns: seq<Notification>, id: string)
    ensures MarkRead(MarkRead(ns, id), id) == MarkRead(ns, id)
  {
  }

  /** After marking an id read no entry with it is unread, and ids, order and every
      other field stay as they were. */
  lemma MarkReadEffect(ns: seq<Notification>, id: string)
    ensures forall i :: 0 <= i < |ns| ==>
              var r := MarkRead(ns, id)[i];
              r.id == ns[i].id && r.title == ns[i].title && r.message == ns[i].message &&
              r.time == ns[i].time && r.kind == ns[i].kind &&
              r.isRead == (ns[i].isRead || ns[i].id == id)
  {
  }

  /** After marking everything read the unread count is zero. */
  lemma {:induction false} MarkAllReadUnread(ns: seq<Notification>)
    ensures UnreadCount(MarkAllRead(ns)) == 0
  {
    if ns != [] {
      MarkAllReadUnread(ns[1..]);
      assert MarkAllRead(ns)[1..] == MarkAllRead(ns[1..]);
    }
  }

  /** Deleting distributes over concatenation: the survivors keep their relative order. */
  lemma {:induction false} RemoveAppend(a: seq<Notification>, b: seq<Notification>, id: string)
    ensures Remove(a + b, id) == Remove(a, id) + Remove(b, id)
  {
    if a == [] {
      assert a + b == b;
    } else {
      var ab := a + b;
      assert ab[0] == a[0] && ab[1..] == a[1..] + b;
      RemoveAppend(a[1..], b, id);
      if a[0].id == id {
        assert Remove(ab, id) == Remove(a[1..] + b, id);
      } else {
        assert Remove(ab, id) == [a[0]] + Remove(a[1..] + b, id);
        assert Remove(a, id) == [a[0]] + Remove(a[1..], id);
      }
    }
  }

  /** Deleting an id that is not there changes nothing. */
  lemma {:induction false} RemoveAbsent(ns: seq<Notification>, id: string)
    requires forall i :: 0 <= i < |ns| ==> ns[i].id != id
    ensures Remove(ns, id) == ns
  {
    if ns != [] {
      RemoveAbsent(ns[1..], id);
    }
  }

  /** Deleting never raises the unread count. */
  lemma {:induction false} RemoveUnread(ns: seq<Notification>, id: string)
    ensures UnreadCount(Remove(ns, id)) == UnreadCount(ns) - UnreadWithId(ns, id)
  {
    if ns != [] {
      RemoveUnread(ns[1..], id);
      if ns[0].id != id {
        assert ([ns[0]] + Remove(ns[1..], id))[1..] == Remove(ns[1..], id);
      }
    }
  }

  /** Two defaults are unread. */
  lemma DefaultsUnread()
    ensures UnreadCount(Defaults) == 2
  {
    assert Defaults[1..][1..][1..][1..] == [];
  }

  class NotificationStore {
    /** The parsed value of the `dcode_notifications` entry; `None` when absent. */
    var stored: Option<seq<Notification>>

    /** A browser with nothing stored yet. */
    constructor ()
      ensures stored.None?
    {
      stored := None;
    }

    /** `getNotifications`: the stored list, or the four defaults when nothing is stored. */
    function GetNotifications(): (ns: seq<Notification>)
      reads this
      ensures stored.None? ==> ns == Defaults
      ensures stored.Some? ==> ns == stored.value
    {
      stored.GetOr(Defaults)
    }

    /** `getUnreadCount`. */
    function GetUnreadCount(): (n: nat)
      reads this
      ensures n == UnreadCount(GetNotifications())
      ensures stored.None? ==> n == 2
    {
      DefaultsUnread();
      UnreadCount(GetNotifications())
    }

    method MarkNotificationAsRead(id: string)
      modifies this
      ensures stored == Some(MarkRead(old(GetNotifications()), id))
      ensures GetUnreadCount() <= old(GetUnreadCount())
    {
      var ns := GetNotifications();
      MarkReadUnread(ns, id);
      stored := Some(MarkRead(ns, id));
    }

    method MarkAllNotificationsAsRead()
      modifies this
      ensures stored == Some(MarkAllRead(old(GetNotifications())))
      ensures GetUnreadCount() == 0
    {
      var ns := GetNotifications();
      MarkAllReadUnread(ns);
      stored := Some(MarkAllRead(ns));
    }

    method DeleteNotification(id: string)
      modifies this
      ensures stored == Some(Remove(old(GetNotifications()), id))
      ensures GetUnreadCount() <= old(GetUnreadCount())
    {
      var ns := GetNotifications();
      RemoveUnread(ns, id);
      stored := Some(Remove(ns, id));
    }

    /** `addNotification`: the new entry, with `nowId` (`Date.now().toString()`) as its
        id, goes in front of the old list. */
    method AddNotification(draft: Draft, nowId: string)
      modifies this
      ensures stored.Some? && |stored.value| == |old(GetNotifications())| + 1
      ensures stored.value[0] ==
                Notification(nowId, draft.title, draft.message, draft.time, draft.isRead, draft.kind)
      ensures stored.value[1..] == old(GetNotifications())
    {
      var ns := GetNotifications();
      var entry := Notification(nowId, draft.title, draft.message, draft.time, draft.isRead, draft.kind);
      stored := Some([entry] + ns);
    }

    /** `initializeNotifications`: writes the defaults only if nothing is stored, so a
        second call changes nothing, and what is read afterwards is what was read before. */
    method InitializeNotifications()
      modifies this
      ensures old(stored).None? ==> stored == Some(Defaults)
      ensures old(stored).Some? ==> stored == old(stored)
      ensures GetNotifications() == old(GetNotifications())
    {
      if stored.None? {
        stored := Some(Defaults);
      }
    }
  }
}
