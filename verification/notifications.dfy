/** The notifications slice: the notification list, its page counters and the unread count. */
module Notifications {
  import opened Wrappers
  import Seqs
  import IdList
  import Slice

  datatype NotificationType =
    | SystemGeneral | NewInvoice | InvoiceReminder | PaymentConfirmed | ContractExpiringSoon
    | AdminAnnouncement | MaintenanceSchedule | NewIncidentReported | IncidentStatusUpdated

  /** A stored notification. `kind` and `message` are `None` when the notification came from a
      socket message that lacked them: `addNotification` copies them through unchecked. */
  datatype Notification = Notification(
    id: int,
    kind: Option<NotificationType>,
    message: Option<string>,
    link: Option<string>,
    isRead: bool,
    createdAt: string)

  function IdOf(n: Notification): int { n.id }

  /** The `Partial<Notification>` a socket message carries; any of its fields may be missing. */
  datatype PartialNotification = PartialNotification(
    id: Option<int>,
    kind: Option<NotificationType>,
    message: Option<string>,
    link: Option<string>,
    createdAt: Option<string>)

  datatype State = State(
    items: seq<Notification>,
    unreadCount: int,
    status: Slice.Status,
    error: Option<string>,
    currentPage: int,
    totalPages: int)

  function Initial(): State
  {
    State([], 0, Slice.Idle, None, 0, 0)
  }

  /** `incrementUnreadCount`: one more unread, nothing else changes. */
  function IncrementUnread(s: State): (r: State)
    ensures r.unreadCount == s.unreadCount + 1
    ensures r == s.(unreadCount := r.unreadCount)
  {
    s.(unreadCount := s.unreadCount + 1)
  }

  /** `addNotification`: the completed notification is put in front. A missing or zero id is
      replaced by the clock reading `now`, a missing or empty timestamp by `nowIso`, and the
      notification is always unread; type, message and link are copied as they are, missing or
      not. The unread count is not touched. */
  function Added(s: State, p: PartialNotification, now: int, nowIso: string): (r: State)
    ensures |r.items| == |s.items| + 1 && r.items[1..] == s.items
    ensures !r.items[0].isRead
    ensures r.items[0].id == (if p.id.Some? && p.id.value != 0 then p.id.value else now)
    ensures r.items[0].createdAt == (if p.createdAt.Some? && p.createdAt.value != "" then p.createdAt.value else nowIso)
    ensures r.items[0].kind == p.kind && r.items[0].message == p.message && r.items[0].link == p.link
    ensures r == s.(items := r.items)
  {
    var id := if p.id.Some? && p.id.value != 0 then p.id.value else now;
    var createdAt := if p.createdAt.Some? && p.createdAt.value != "" then p.createdAt.value else nowIso;
    var n := Notification(id, p.kind, p.message, p.link, false, createdAt);
    s.(items := [n] + s.items)
  }

  /** `fetchNotifications.fulfilled`: the page's notifications and two of its counters; the
      page's total is not kept, and the unread count is left alone. */
  function PageLoaded(s: State, page: Slice.Page<Notification>): (r: State)
    ensures r.items == page.content && r.currentPage == page.number && r.totalPages == page.totalPages
    ensures r.status == Slice.Succeeded
    ensures r.unreadCount == s.unreadCount && r.error == s.error
  {
    s.(status := Slice.Succeeded, items := page.content, currentPage := page.number,
       totalPages := page.totalPages)
  }

  /** The number of unread notifications in `items`. */
  function CountUnread(items: seq<Notification>): nat
  {
    if |items| == 0 then 0 else (if items[0].isRead then 0 else 1) + CountUnread(items[1..])
  }

  /** The mark-as-read handler fires: the first notification with `id` exists and is unread. */
  predicate MarkApplies(s: State, id: int)
  {
    var k := IdList.FindIndex(s.items, id, IdOf);
    k >= 0 && !s.items[k].isRead
  }

  /** `markNotificationAsRead.fulfilled`: when the first notification with `id` is unread it
      becomes read, and the unread count drops by one but never below zero; otherwise nothing
      changes. */
  function MarkedAsRead(s: State, id: int): (r: State)
    ensures !MarkApplies(s, id) ==> r == s
    ensures MarkApplies(s, id) ==>
              var k := IdList.FindIndex(s.items, id, IdOf);
              r.items == s.items[k := s.items[k].(isRead := true)]
              && r.unreadCount >= 0
              && r.unreadCount == (if s.unreadCount > 0 then s.unreadCount - 1 else 0)
              && CountUnread(r.items) == CountUnread(s.items) - 1
    ensures r == s.(items := r.items, unreadCount := r.unreadCount)
  {
    var k := IdList.FindIndex(s.items, id, IdOf);
    if k >= 0 && !s.items[k].isRead then
      var items := s.items[k := s.items[k].(isRead := true)];
      CountUnreadAfterRead(s.items, k);
      s.(items := items, unreadCount := if s.unreadCount - 1 > 0 then s.unreadCount - 1 else 0)
    else s
  }

  /** Marking one unread notification read lowers the number of unread ones by one. */
  lemma {:induction false} CountUnreadAfterRead(items: seq<Notification>, k: nat)
    requires k < |items| && !items[k].isRead
    ensures CountUnread(items[k := items[k].(isRead := true)]) == CountUnread(items) - 1
  {
    var after := items[k := items[k].(isRead := true)];
    if k > 0 {
      CountUnreadAfterRead(items[1..], k - 1);
      assert after[1..] == items[1..][k - 1 := items[k].(isRead := true)];
    } else {
      assert after[1..] == items[1..];
    }
  }

  /** Marking the same notification read twice is the same as marking it once. */
  lemma MarkedAsReadIdempotent(s: State, id: int)
    ensures MarkedAsRead(MarkedAsRead(s, id), id) == MarkedAsRead(s, id)
  {
    var once := MarkedAsRead(s, id);
    if MarkApplies(s, id) {
      var k := IdList.FindIndex(s.items, id, IdOf);
      IdList.FindIndexAfterIdPreservingWrite(s.items, k, s.items[k].(isRead := true), id, IdOf);
      assert !MarkApplies(once, id);
    }
  }

  datatype Action =
    | IncrementUnreadCount
    | AddNotification(partial: PartialNotification, now: int, nowIso: string)
    | ResetNotifications
    | FetchPending
    | FetchFulfilled(page: Slice.Page<Notification>)
    | FetchRejected(reason: Option<string>)
    | UnreadCountFulfilled(count: int)
    | MarkAsReadFulfilled(id: int)

  /** `notificationsSlice.reducer`. A reset gives back exactly the initial state; the unread
      count changes only through the increment, the count fetch, a mark-as-read and a reset, and a
      mark-as-read never makes it negative. */
  function Reduce(s: State, a: Action): (r: State)
    ensures a.ResetNotifications? ==> r == Initial()
    ensures r.unreadCount != s.unreadCount ==>
              a.IncrementUnreadCount? || a.UnreadCountFulfilled? || a.MarkAsReadFulfilled?
              || a.ResetNotifications?
    ensures a.MarkAsReadFulfilled? ==> r.unreadCount >= 0 || r.unreadCount == s.unreadCount
  {
    match a
    case IncrementUnreadCount => IncrementUnread(s)
    case AddNotification(p, now, nowIso) => Added(s, p, now, nowIso)
    case ResetNotifications => Initial()
    case FetchPending => s.(status := Slice.Loading)
    case FetchFulfilled(page) => PageLoaded(s, page)
    case FetchRejected(reason) => s.(status := Slice.Failed, error := reason)
    case UnreadCountFulfilled(count) => s.(unreadCount := count)
    case MarkAsReadFulfilled(id) => MarkedAsRead(s, id)
  }
}
