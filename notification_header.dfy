/** The header's notification bell: the unread counter, the durable
    notification list with its mark-read updates, the live (socket) list,
    the badge and the dropdown's order. */
module NotificationHeader {
  import opened Common
  import SocketChannel

  /** A notification stored by the server. */
  datatype Alert = Alert(id: string, title: string, message: string, kind: string,
                         read: bool, createdAt: string)

  /** The list `markAsRead` leaves: the entries with `id` read, the rest as
      they were. */
  function MarkedRead(ns: seq<Alert>, id: string): (r: seq<Alert>)
    ensures |r| == |ns|
    ensures forall i :: 0 <= i < |r| ==> r[i].id == ns[i].id && (r[i].id == id ==> r[i].read)
    ensures forall i :: 0 <= i < |r| && ns[i].id != id ==> r[i] == ns[i]
    ensures forall i :: 0 <= i < |r| ==> r[i] == ns[i].(read := r[i].read)
  {
    if ns == [] then []
    else [if ns[0].id == id then ns[0].(read := true) else ns[0]] + MarkedRead(ns[1..], id)
  }

  /** The list `markAllAsRead` leaves. */
  function AllRead(ns: seq<Alert>): (r: seq<Alert>)
    ensures |r| == |ns|
    ensures forall i :: 0 <= i < |r| ==> r[i] == ns[i].(read := true)
  {
    if ns == [] then [] else [ns[0].(read := true)] + AllRead(ns[1..])
  }

  function Unread(ns: seq<Alert>): nat {
    if ns == [] then 0 else (if ns[0].read then 0 else 1) + Unread(ns[1..])
  }

  function UnreadWithId(ns: seq<Alert>, id: string): nat {
    if ns == [] then 0 else (if !ns[0].read && ns[0].id == id then 1 else 0) + UnreadWithId(ns[1..], id)
  }

  /** Marking `id` read removes exactly the unread entries with that id from
      the unread ones. */
  lemma {:induction false} MarkedReadUnread(ns: seq<Alert>, id: string)
    ensures Unread(MarkedRead(ns, id)) == Unread(ns) - UnreadWithId(ns, id)
    ensures UnreadWithId(ns, id) <= Unread(ns)
  {
    if ns != [] {
      MarkedReadUnread(ns[1..], id);
      assert MarkedRead(ns, id)[1..] == MarkedRead(ns[1..], id);
    }
  }

  lemma {:induction false} AllReadNoneUnread(ns: seq<Alert>)
    ensures Unread(AllRead(ns)) == 0
  {
    if ns != [] {
      AllReadNoneUnread(ns[1..]);
      assert AllRead(ns)[1..] == AllRead(ns[1..]);
    }
  }

  /** The number shown on the bell: the counter plus the live list. */
  function Total(unreadCount: int, live: seq<SocketChannel.Notice>): int {
    unreadCount + |live|
  }

  /** The badge text, if a badge is drawn. */
  function BadgeLabel(total: int): (r: Option<string>)
    ensures r.Some? <==> total > 0
    ensures total > 99 ==> r == Some("99+")
    ensures 0 < total <= 99 ==> r.Some? && ParseDecimal(r.value) == total
  {
    if total <= 0 then None
    else if total > 99 then Some("99+")
    else NatToStringRoundTrip(total); Some(IntToString(total))
  }

  /** The "Mark all read" button is offered exactly when a badge is drawn. */
  predicate ShowsMarkAll(total: int) {
    total > 0
  }

  lemma MarkAllOfferedWithBadge(total: int)
    ensures ShowsMarkAll(total) <==> BadgeLabel(total).Some?
  {
  }

  datatype Icon = SuccessIcon | WarningIcon | ErrorIcon | AnnouncementIcon

  /** `getNotificationIcon`. */
  function NotificationIcon(kind: string): (r: Icon)
    ensures r == SuccessIcon <==> kind == "success"
    ensures r == WarningIcon <==> kind == "warning"
    ensures r == ErrorIcon <==> kind == "error"
  {
    match kind
    case "success" => SuccessIcon
    case "warning" => WarningIcon
    case "error" => ErrorIcon
    case _ => AnnouncementIcon
  }

  datatype FeedEntry = Live(notice: SocketChannel.Notice) | Durable(alert: Alert)

  function LiveEntries(live: seq<SocketChannel.Notice>): (r: seq<FeedEntry>)
    ensures |r| == |live| && forall i :: 0 <= i < |r| ==> r[i] == Live(live[i])
  {
    if live == [] then [] else [Live(live[0])] + LiveEntries(live[1..])
  }

  function DurableEntries(ns: seq<Alert>): (r: seq<FeedEntry>)
    ensures |r| == |ns| && forall i :: 0 <= i < |r| ==> r[i] == Durable(ns[i])
  {
    if ns == [] then [] else [Durable(ns[0])] + DurableEntries(ns[1..])
  }

  /** The dropdown's entries once loaded; empty means the "No notifications"
      notice is shown. */
  function Feed(live: seq<SocketChannel.Notice>, ns: seq<Alert>): seq<FeedEntry> {
    LiveEntries(live) + DurableEntries(ns)
  }

  /** Live notifications come first, in arrival order, then the durable
      ones. */
  lemma LiveFirst(live: seq<SocketChannel.Notice>, ns: seq<Alert>)
    ensures |Feed(live, ns)| == |live| + |ns|
    ensures forall i :: 0 <= i < |live| ==> Feed(live, ns)[i] == Live(live[i])
    ensures forall i :: 0 <= i < |ns| ==> Feed(live, ns)[|live| + i] == Durable(ns[i])
    ensures Feed(live, ns) == [] <==> live == [] && ns == []
  {
  }

  // ---------------------------------------------------------------------
  // The counter

  /** The effect run when the live list changes to `liveLength` entries. */
  function CounterEffect(unreadCount: int, liveLength: nat): int {
    if liveLength > 0 then unreadCount + liveLength else unreadCount
  }

  /** The counter after `k` single pushes onto a live list of `n` entries,
      one effect run per push. */
  function CounterAfterPushes(unreadCount: int, n: nat, k: nat): int
    decreases k
  {
    if k == 0 then unreadCount else CounterAfterPushes(CounterEffect(unreadCount, n + 1), n + 1, k - 1)
  }

  /** Each push adds the whole new list length to the counter. */
  lemma {:induction false} CounterGrowth(unreadCount: int, n: nat, k: nat)
    decreases k
    ensures CounterAfterPushes(unreadCount, n, k) == unreadCount + k * n + k * (k + 1) / 2
  {
    if k > 0 {
      CounterGrowth(unreadCount + n + 1, n + 1, k - 1);
      assert (k - 1) * (n + 1) + (k - 1) * k / 2 + n + 1 == k * n + k * (k + 1) / 2 by {
        assert (k - 1) * k / 2 + k == k * (k + 1) / 2 by {
          assert (k - 1) * k + 2 * k == k * (k + 1);
        }
      }
    }
  }

  /** As written, `pushed` arriving on an empty live list raise the bell by
      k + k(k+1)/2 for k = |pushed| instead of by k: the counter takes the
      whole list length at every push, and the total adds the list once
      more. */
  lemma PushesOvercount(unreadCount: int, pushed: seq<SocketChannel.Notice>)
    ensures Total(CounterAfterPushes(unreadCount, 0, |pushed|), pushed)
            == Total(unreadCount, []) + |pushed| + |pushed| * (|pushed| + 1) / 2
  {
    CounterGrowth(unreadCount, 0, |pushed|);
  }

  /** With no unread notifications stored, two pushes show 5 on the bell. */
  lemma TwoPushesShowFive()
    ensures Total(CounterAfterPushes(0, 0, 2), [SocketChannel.Notice("a", "", ""), SocketChannel.Notice("b", "", "")]) == 5
  {
  }

  /** The corrected counter leaves the live list to the total alone. */
  function CorrectedCounterEffect(unreadCount: int, liveLength: nat): int {
    unreadCount
  }

  function CorrectedCounterAfterPushes(unreadCount: int, n: nat, k: nat): int
    decreases k
  {
    if k == 0 then unreadCount
    else CorrectedCounterAfterPushes(CorrectedCounterEffect(unreadCount, n + 1), n + 1, k - 1)
  }

  /** Corrected, each push raises the bell by exactly one. */
  lemma {:induction false} CorrectedPushesCountOnce(unreadCount: int, live: seq<SocketChannel.Notice>,
                                                   pushed: seq<SocketChannel.Notice>)
    decreases |pushed|
    ensures Total(CorrectedCounterAfterPushes(unreadCount, |live|, |pushed|), live + pushed)
            == Total(unreadCount, live) + |pushed|
  {
    if pushed != [] {
      CorrectedPushesCountOnce(unreadCount, live + [pushed[0]], pushed[1..]);
      assert live + [pushed[0]] + pushed[1..] == live + pushed;
    }
  }

  class Bell {
    var unreadCount: int
    var notifications: seq<Alert>
    /** The socket context's notification list, as the header sees it. */
    var live: seq<SocketChannel.Notice>

    ghost predicate Valid()
      reads this
    {
      unreadCount >= 0
    }

    constructor()
      ensures Valid() && unreadCount == 0 && notifications == [] && live == []
    {
      unreadCount := 0;
      notifications := [];
      live := [];
    }

    /** `fetchUnreadCount`: the server's count, or no change on failure. */
    method FetchUnreadCount(count: Option<nat>)
      requires Valid()
      modifies this
      ensures Valid()
      ensures unreadCount == if count.Some? then count.value else old(unreadCount)
      ensures notifications == old(notifications) && live == old(live)
    {
      if count.Some? {
        unreadCount := count.value;
      }
    }

    /** `fetchNotifications`: replaced by the fetched list, or no change. */
    method FetchNotifications(fetched: Option<seq<Alert>>)
      requires Valid()
      modifies this
      ensures Valid()
      ensures notifications == if fetched.Some? then fetched.value else old(notifications)
      ensures unreadCount == old(unreadCount) && live == old(live)
    {
      if fetched.Some? {
        notifications := fetched.value;
      }
    }

    /** A socket notification arrives and the counter effect runs. */
    method Push(n: SocketChannel.Notice)
      requires Valid()
      modifies this
      ensures Valid()
      ensures live == old(live) + [n]
      ensures unreadCount == CounterEffect(old(unreadCount), |live|)
      ensures unreadCount == old(unreadCount) + |old(live)| + 1
      ensures notifications == old(notifications)
    {
      live := live + [n];
      if |live| > 0 {
        unreadCount := unreadCount + |live|;
      }
    }

    /** `markAsRead(id)`, with `acknowledged` the outcome of the PUT. */
    method MarkAsRead(id: string, acknowledged: bool)
      requires Valid()
      modifies this
      ensures Valid()
      ensures acknowledged ==> notifications == MarkedRead(old(notifications), id)
                               && unreadCount == if old(unreadCount) > 0 then old(unreadCount) - 1 else 0
      ensures !acknowledged ==> notifications == old(notifications) && unreadCount == old(unreadCount)
      ensures live == old(live)
    {
      if acknowledged {
        notifications := MarkedRead(notifications, id);
        unreadCount := if unreadCount - 1 > 0 then unreadCount - 1 else 0;
      }
    }

    /** `markAllAsRead`: everything read, counter and live list cleared (the
        counter effect then sees an empty list and does nothing). */
    method MarkAllAsRead(acknowledged: bool)
      requires Valid()
      modifies this
      ensures Valid()
      ensures acknowledged ==> notifications == AllRead(old(notifications)) && unreadCount == 0 && live == []
      ensures !acknowledged ==>
                notifications == old(notifications) && unreadCount == old(unreadCount) && live == old(live)
    {
      if acknowledged {
        notifications := AllRead(notifications);
        unreadCount := 0;
        live := [];
        unreadCount := CounterEffect(unreadCount, |live|);
      }
    }

    /** Clicking an entry marks it read only when it is unread. */
    method Click(i: nat, acknowledged: bool)
      requires Valid() && i < |notifications|
      modifies this
      ensures Valid()
      ensures !old(notifications)[i].read && acknowledged ==>
                notifications == MarkedRead(old(notifications), old(notifications)[i].id)
                && unreadCount == if old(unreadCount) > 0 then old(unreadCount) - 1 else 0
      ensures old(notifications)[i].read || !acknowledged ==>
                notifications == old(notifications) && unreadCount == old(unreadCount)
      ensures live == old(live)
    {
      if !notifications[i].read {
        MarkAsRead(notifications[i].id, acknowledged);
      }
    }
  }
}
