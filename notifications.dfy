/**
 * The notification list of client/src/contexts/NotificationProvider.tsx: the
 * unread count, the merges after marking as read, the prepend of a pushed
 * notification, and the provider state they are committed to.
 */
module NotificationProvider {
  import opened Outcomes

  datatype Status = Read | Unread

  datatype Notification = Notification(
    id: string,
    userEmail: string,
    message: string,
    status: Status,
    createdAt: string,
    updatedAt: string)

  /** `notifications.filter(n => n.status === "unread")` */
  function UnreadOf(ns: seq<Notification>): (r: seq<Notification>)
    ensures |r| <= |ns|
    ensures forall n :: n in r <==> n in ns && n.status == Unread
  {
    if ns == [] then []
    else (if ns[0].status == Unread then [ns[0]] else []) + UnreadOf(ns[1..])
  }

  /**
   * `filter` keeps order and multiplicity: the unread notifications of a
   * concatenation are those of each part, one after the other.
   */
  lemma {:induction false} UnreadKeepsOrder(a: seq<Notification>, b: seq<Notification>)
    ensures UnreadOf(a + b) == UnreadOf(a) + UnreadOf(b)
  {
    if a == [] {
      assert a + b == b;
    } else {
      assert (a + b)[1..] == a[1..] + b;
      UnreadKeepsOrder(a[1..], b);
    }
  }

  /** `unreadCount`: never more than the list holds, and positive as soon as one notification is unread. */
  function UnreadCount(ns: seq<Notification>): (c: nat)
    ensures c <= |ns|
    ensures (exists n :: n in ns && n.status == Unread) ==> c > 0
  {
    |UnreadOf(ns)|
  }

  /** The unread count is zero exactly when every notification is read. */
  lemma {:induction false} NoUnreadIffAllRead(ns: seq<Notification>)
    ensures UnreadCount(ns) == 0 <==> forall n :: n in ns ==> n.status == Read
  {
    if UnreadCount(ns) != 0 {
      assert UnreadOf(ns)[0] in UnreadOf(ns);
    }
  }

  /** The ids `markAllAsRead` sends a status update for, one per unread notification, in order. */
  function UnreadIds(ns: seq<Notification>): (ids: seq<string>)
    ensures |ids| == UnreadCount(ns)
    ensures forall i :: 0 <= i < |ids| ==> ids[i] == UnreadOf(ns)[i].id
  {
    if ns == [] then []
    else (if ns[0].status == Unread then [ns[0].id] else []) + UnreadIds(ns[1..])
  }

  /** `markAsRead`'s merge: the entries with the id become the server's updated notification. */
  function ReplaceById(ns: seq<Notification>, id: string, updated: Notification): (r: seq<Notification>)
    ensures |r| == |ns|
    ensures forall i :: 0 <= i < |ns| ==> r[i] == if ns[i].id == id then updated else ns[i]
  {
    if ns == [] then []
    else [if ns[0].id == id then updated else ns[0]] + ReplaceById(ns[1..], id, updated)
  }

  /** `updatedNotifications.find(u => u.id === id)`: the first update with the id. */
  function FindById(updates: seq<Notification>, id: string): (r: Option<Notification>)
    ensures r.None? <==> forall u :: u in updates ==> u.id != id
    ensures r.Some? ==> exists j :: 0 <= j < |updates| && updates[j] == r.value && r.value.id == id
                          && forall k :: 0 <= k < j ==> updates[k].id != id
  {
    if updates == [] then None
    else if updates[0].id == id then Some(updates[0])
    else
      var r := FindById(updates[1..], id);
      if r.Some? then
        var j :| 0 <= j < |updates[1..]| && updates[1..][j] == r.value && r.value.id == id
                 && forall k :: 0 <= k < j ==> updates[1..][k].id != id;
        assert updates[j + 1] == r.value;
        r
      else r
  }

  /** `markAllAsRead`'s merge: each entry whose id has an update becomes that update. */
  function MergeUpdates(ns: seq<Notification>, updates: seq<Notification>): (r: seq<Notification>)
    ensures |r| == |ns|
    ensures forall i :: 0 <= i < |ns| ==>
      r[i] == match FindById(updates, ns[i].id) { case Some(u) => u case None => ns[i] }
  {
    if ns == [] then []
    else
      var head := match FindById(updates, ns[0].id) { case Some(u) => u case None => ns[0] };
      [head] + MergeUpdates(ns[1..], updates)
  }

  /** `Promise.all` over the status updates: all responses, or the first failure. */
  function AllUpdates<E>(ids: seq<string>, server: string -> Outcome<Notification, E>): (r: Outcome<seq<Notification>, E>)
    ensures r.Ok? <==> forall i :: 0 <= i < |ids| ==> server(ids[i]).Ok?
    ensures r.Ok? ==> |r.value| == |ids| && forall i :: 0 <= i < |ids| ==> r.value[i] == server(ids[i]).value
  {
    if ids == [] then Ok([])
    else match server(ids[0])
      case Err(e) => Err(e)
      case Ok(u) =>
        match AllUpdates(ids[1..], server)
        case Err(e) => Err(e)
        case Ok(us) => Ok([u] + us)
  }

  /** The subscription callback: the pushed notification goes in front. */
  function Prepend(ns: seq<Notification>, n: Notification): (r: seq<Notification>)
    ensures |r| == |ns| + 1 && r[0] == n && r[1..] == ns
  {
    [n] + ns
  }

  /** A pushed unread notification raises the unread count by one. */
  lemma PrependUnreadCounts(ns: seq<Notification>, n: Notification)
    ensures UnreadCount(Prepend(ns, n)) == UnreadCount(ns) + (if n.status == Unread then 1 else 0)
  {
    assert Prepend(ns, n)[1..] == ns;
  }

  /** A server that answers each status update with a read notification carrying the requested id. */
  ghost predicate ReadsBack<E>(server: string -> Outcome<Notification, E>)
  {
    forall id :: server(id).Ok? ==> server(id).value.id == id && server(id).value.status == Read
  }

  /** Every unread notification's id is among the ids sent by `markAllAsRead`. */
  lemma UnreadIdSent(ns: seq<Notification>, n: Notification)
    requires n in ns && n.status == Unread
    ensures n.id in UnreadIds(ns)
  {
    assert n in UnreadOf(ns);
    var j :| 0 <= j < |UnreadOf(ns)| && UnreadOf(ns)[j] == n;
    assert UnreadIds(ns)[j] == n.id;
  }

  /** Updates from such a server are all read and each carries the id it was requested for. */
  lemma UpdatesFromReadsBack<E>(ids: seq<string>, server: string -> Outcome<Notification, E>)
    requires ReadsBack(server) && AllUpdates(ids, server).Ok?
    ensures var updates := AllUpdates(ids, server).value;
      (forall u :: u in updates ==> u.status == Read) && forall id :: id in ids ==> FindById(updates, id).Some?
  {
    var updates := AllUpdates(ids, server).value;
    forall id | id in ids ensures FindById(updates, id).Some? {
      var j :| 0 <= j < |ids| && ids[j] == id;
      assert updates[j].id == id;
    }
  }

  /**
   * When the server answers every update with a read notification carrying the
   * requested id, marking all as read leaves no unread notification.
   */
  lemma MarkAllLeavesNoneUnread<E>(ns: seq<Notification>, server: string -> Outcome<Notification, E>)
    requires ReadsBack(server) && AllUpdates(UnreadIds(ns), server).Ok?
    ensures UnreadCount(MergeUpdates(ns, AllUpdates(UnreadIds(ns), server).value)) == 0
  {
    var updates := AllUpdates(UnreadIds(ns), server).value;
    UpdatesFromReadsBack(UnreadIds(ns), server);
    var r := MergeUpdates(ns, updates);
    forall i | 0 <= i < |r| ensures r[i].status == Read {
      if ns[i].status == Unread {
        UnreadIdSent(ns, ns[i]);
      }
      var found := FindById(updates, ns[i].id);
      if found.Some? {
        var j :| 0 <= j < |updates| && updates[j] == found.value;
        assert found.value in updates;
      }
    }
    NoUnreadIffAllRead(r);
  }

  /** The provider's state: the list and the loading flag. */
  class NotificationCenter<E> {
    var notifications: seq<Notification>
    var loading: bool

    constructor ()
      ensures notifications == [] && !loading
    {
      notifications, loading := [], false;
    }

    /** `fetchNotifications`: nothing without a user; otherwise the response replaces the list, a failure keeps it. */
    method FetchNotifications(user: Option<string>, response: Outcome<seq<Notification>, E>)
      modifies this
      ensures user.None? ==> notifications == old(notifications) && loading == old(loading)
      ensures user.Some? ==> !loading
      ensures user.Some? ==> notifications == if response.Ok? then response.value else old(notifications)
    {
      if user.None? {
        return;
      }
      loading := true;
      if response.Ok? {
        notifications := response.value;
      }
      loading := false;
    }

    /** `markAsRead(id)`: merge the server's updated notification, or keep the list on failure. */
    method MarkAsRead(id: string, response: Outcome<Notification, E>)
      modifies this`notifications
      ensures notifications == if response.Ok? then ReplaceById(old(notifications), id, response.value) else old(notifications)
    {
      if response.Ok? {
        notifications := ReplaceById(notifications, id, response.value);
      }
    }

    /**
     * `markAllAsRead`: one status update per unread notification (returned as
     * `requested`); all must succeed for the merge to happen.
     */
    method MarkAllAsRead(server: string -> Outcome<Notification, E>) returns (requested: seq<string>)
      modifies this`notifications
      ensures requested == UnreadIds(old(notifications))
      ensures var all := AllUpdates(requested, server);
        notifications == if all.Ok? then MergeUpdates(old(notifications), all.value) else old(notifications)
    {
      requested := UnreadIds(notifications);
      var all := AllUpdates(requested, server);
      if all.Ok? {
        notifications := MergeUpdates(notifications, all.value);
      }
    }

    /** A notification pushed by the subscription. */
    method Push(n: Notification)
      modifies this`notifications
      ensures notifications == Prepend(old(notifications), n)
    {
      notifications := Prepend(notifications, n);
    }
  }
}
