/** The notification REST endpoints (backend/notifications/views.py): the
    requester's notification list with its read filter, the bulk mark-read
    action, and the group-chat subscription status, subscribe, unsubscribe and
    mute views.  The requester is always authenticated here: the endpoints'
    `IsAuthenticated` gate answers for anonymous callers before any of this
    runs. */
module NotificationViews {
  import opened Wrappers
  import opened Text
  import opened Json
  import opened ChatViewRules
  import opened Sorting

  /** A persisted notification row. */
  datatype Notification = Notification(user: nat, kind: string, payload: Json, isRead: bool, createdAt: int)

  // ---------------------------------------------------------------------------
  // NotificationViewSet.get_queryset

  /** The `is_read` query parameter as the list reads it: lower-cased, a
      yes-word keeps read rows, a no-word keeps unread rows, anything else or
      no parameter keeps both. */
  datatype ReadFilter = OnlyRead | OnlyUnread | EitherRead

  predicate IsNo(s: string) {
    Lower(s) in {"0", "false", "no"}
  }

  function ReadFilterFor(isRead: Option<string>): (r: ReadFilter)
    ensures r == OnlyRead <==> isRead.Some? && IsYes(isRead.value)
    ensures r == OnlyUnread <==> isRead.Some? && !IsYes(isRead.value) && IsNo(isRead.value)
  {
    if isRead.None? then EitherRead
    else if IsYes(isRead.value) then OnlyRead
    else if IsNo(isRead.value) then OnlyUnread
    else EitherRead
  }

  predicate Keeps(f: ReadFilter, n: Notification) {
    match f
    case OnlyRead => n.isRead
    case OnlyUnread => !n.isRead
    case EitherRead => true
  }

  /** The ids the list shows: the requester's rows, filtered by `is_read`. */
  function NotificationQuery(rows: map<nat, Notification>, me: nat, isRead: Option<string>): (r: set<nat>)
    ensures forall id :: id in r <==> id in rows && rows[id].user == me && Keeps(ReadFilterFor(isRead), rows[id])
  {
    set id | id in rows && rows[id].user == me && Keeps(ReadFilterFor(isRead), rows[id])
  }

  /** The newest-first key of a notification id; an id without a row sorts
      as time 0. */
  function NotificationNewestFirst(rows: map<nat, Notification>, id: nat): int {
    if id in rows then -rows[id].createdAt else 0
  }

  /** The list the endpoint answers: the ids `NotificationQuery` selects, taken
      in the table's scan order `table` and then ordered by the model's
      `-created_at`. */
  function NotificationList(rows: map<nat, Notification>, table: seq<nat>, me: nat, isRead: Option<string>): (r: seq<nat>)
    ensures forall id :: id in r <==> id in table && id in NotificationQuery(rows, me, isRead)
    ensures forall i :: 0 <= i < |r| ==> r[i] in rows && rows[r[i]].user == me
    ensures forall i, j :: 0 <= i < j < |r| ==> rows[r[i]].createdAt >= rows[r[j]].createdAt
  {
    var q := NotificationQuery(rows, me, isRead);
    var s := Filter(table, id => id in q);
    var r := SortBy(s, id => NotificationNewestFirst(rows, id));
    assert forall id :: id in r <==> id in multiset(r);
    assert forall id :: id in s <==> id in multiset(s);
    assert forall i :: 0 <= i < |r| ==> r[i] in q by {
      forall i | 0 <= i < |r| ensures r[i] in q { assert r[i] in r; }
    }
    r
  }

  /** The list holds a row once for each time the scan meets it: a table
      without repeats gives a list without repeats. */
  lemma NotificationListDistinct(rows: map<nat, Notification>, table: seq<nat>, me: nat, isRead: Option<string>)
    requires NoDuplicates(table)
    ensures NoDuplicates(NotificationList(rows, table, me, isRead))
  {
    var q := NotificationQuery(rows, me, isRead);
    var s := Filter(table, id => id in q);
    FilterKeepsDistinct(table, id => id in q);
    var r := SortBy(s, id => NotificationNewestFirst(rows, id));
    assert r == NotificationList(rows, table, me, isRead);
    DistinctByMultiset(s, r);
  }

  /** Without a recognised `is_read` word the list is every row of the
      requester, and the two filters split it. */
  lemma ReadFilterSplits(rows: map<nat, Notification>, me: nat)
    ensures NotificationQuery(rows, me, Some("true")) + NotificationQuery(rows, me, Some("false"))
            == NotificationQuery(rows, me, None)
    ensures NotificationQuery(rows, me, Some("true")) * NotificationQuery(rows, me, Some("false")) == {}
  {
    LowerNoUpper("true");
    LowerNoUpper("false");
    assert ReadFilterFor(Some("true")) == OnlyRead;
    assert ReadFilterFor(Some("false")) == OnlyUnread;
  }

  // ---------------------------------------------------------------------------
  // NotificationViewSet.mark_read

  /** `ids` as `filter(id__in=ids)` reads it: a falsy value is the empty list;
      a list whose every element converts with `int` is that set of ids;
      anything else makes the query raise. */
  function IdsParam(ids: Option<Json>): (r: Option<set<int>>)
    ensures !OptPyTruthy(ids) ==> r == Some({})
    ensures r.Some? && OptPyTruthy(ids) ==>
      ids.value.JArr? && forall x :: x in r.value <==> exists j :: j in ids.value.items && PyInt(j) == Some(x)
  {
    if !OptPyTruthy(ids) then Some({})
    else match ids.value
      case JArr(items) => IntsOf(items)
      case _ => None
  }

  function IntsOf(items: seq<Json>): (r: Option<set<int>>)
    ensures r.Some? <==> forall j :: j in items ==> PyInt(j).Some?
    ensures r.Some? ==> forall x :: x in r.value <==> exists j :: j in items && PyInt(j) == Some(x)
  {
    if items == [] then Some({})
    else
      var last := items[|items| - 1];
      var init := items[..|items| - 1];
      assert items == init + [last];
      match (IntsOf(init), PyInt(last))
      case (Some(xs), Some(x)) => Some(xs + {x})
      case _ => None
  }

  /** The rows `update(is_read=True)` touches: the requester's rows, all of
      them or those whose id was listed. */
  function Matched(rows: map<nat, Notification>, me: nat, ids: set<int>, all: bool): (r: set<nat>)
    ensures forall id :: id in r <==> id in rows && rows[id].user == me && (all || id as int in ids)
  {
    set id | id in rows && rows[id].user == me && (all || id as int in ids)
  }

  /** The table after the update: matched rows are read, all else as before. */
  function MarkedRead(rows: map<nat, Notification>, me: nat, ids: set<int>, all: bool): (r: map<nat, Notification>)
    ensures r.Keys == rows.Keys
    ensures forall id :: id in rows ==>
      r[id] == if id in Matched(rows, me, ids, all) then rows[id].(isRead := true) else rows[id]
  {
    map id | id in rows :: if id in Matched(rows, me, ids, all) then rows[id].(isRead := true) else rows[id]
  }

  /** The requester's unread rows. */
  function Unread(rows: map<nat, Notification>, me: nat): (r: set<nat>)
    ensures forall id :: id in r <==> id in rows && rows[id].user == me && !rows[id].isRead
  {
    set id | id in rows && rows[id].user == me && !rows[id].isRead
  }

  /** Marking never clears a read flag, and other users' rows are untouched. */
  lemma MarkReadOnlyRaises(rows: map<nat, Notification>, me: nat, ids: set<int>, all: bool, id: nat)
    requires id in rows
    ensures rows[id].isRead ==> MarkedRead(rows, me, ids, all)[id].isRead
    ensures rows[id].user != me ==> MarkedRead(rows, me, ids, all)[id] == rows[id]
    ensures MarkedRead(rows, me, ids, all)[id].(isRead := rows[id].isRead) == rows[id]
  {
  }

  /** After marking, the unread rows are the previous unread rows that were
      not matched; with `all`, none remain. */
  lemma MarkReadUnread(rows: map<nat, Notification>, me: nat, ids: set<int>, all: bool)
    ensures Unread(MarkedRead(rows, me, ids, all), me) == Unread(rows, me) - Matched(rows, me, ids, all)
    ensures all ==> Unread(MarkedRead(rows, me, ids, all), me) == {}
  {
    var after := MarkedRead(rows, me, ids, all);
    forall id | id in Unread(after, me)
      ensures id in Unread(rows, me) - Matched(rows, me, ids, all)
    {
      assert id in rows;
    }
    forall id | id in Unread(rows, me) - Matched(rows, me, ids, all)
      ensures id in Unread(after, me)
    {
      assert after[id] == rows[id];
    }
  }

  /** Listing two unread rows of three marks exactly those two, and one unread
      row remains. */
  lemma MarkTwoOfThree(a: Notification, b: Notification, c: Notification, me: nat)
    requires a.user == me && b.user == me && c.user == me
    requires !a.isRead && !b.isRead && !c.isRead
    ensures var rows := map[1 := a, 2 := b, 3 := c];
            |Matched(rows, me, {1, 2}, false)| == 2 &&
            Unread(MarkedRead(rows, me, {1, 2}, false), me) == {3}
  {
    var rows := map[1 := a, 2 := b, 3 := c];
    assert Matched(rows, me, {1, 2}, false) == {1, 2};
    assert Unread(rows, me) == {1, 2, 3};
    MarkReadUnread(rows, me, {1, 2}, false);
  }

  /** The mark-read response body. */
  datatype MarkReadReply = MarkReadReply(updated: nat, unreadCount: nat)

  class NotificationTable {
    var rows: map<nat, Notification>

    constructor ()
      ensures rows == map[]
    {
      rows := map[];
    }

    /** `mark_read`: `all` marks every row of the requester, otherwise the
        listed ids; `updated` counts the matched rows and `unread_count` the
        requester's remaining unread ones.  An `ids` value the query cannot
        use raises before any row changes (500). */
    method MarkRead(me: nat, ids: Option<Json>, all: Option<Json>) returns (status: nat, reply: Option<MarkReadReply>)
      modifies this
      ensures status in {OK, SERVER_ERROR}
      ensures status == OK <==> OptPyTruthy(all) || IdsParam(ids).Some?
      ensures status != OK ==> reply.None? && rows == old(rows)
      ensures status == OK ==>
        var sel := if OptPyTruthy(all) then {} else IdsParam(ids).value;
        rows == MarkedRead(old(rows), me, sel, OptPyTruthy(all)) &&
        reply == Some(MarkReadReply(|Matched(old(rows), me, sel, OptPyTruthy(all))|, |Unread(rows, me)|))
    {
      var markAll := OptPyTruthy(all);
      var sel: set<int> := {};
      if !markAll {
        var p := IdsParam(ids);
        if p.None? {
          return SERVER_ERROR, None;
        }
        sel := p.value;
      }
      var updated := |Matched(rows, me, sel, markAll)|;
      rows := MarkedRead(rows, me, sel, markAll);
      return OK, Some(MarkReadReply(updated, |Unread(rows, me)|));
    }
  }

  // ---------------------------------------------------------------------------
  // Group-chat subscriptions

  /** One subscription row, keyed by (user, room) - the `unique_together`
      pair is the map key. */
  datatype Subscription = Subscription(muted: bool, createdAt: int, updatedAt: int)

  type Subscriptions = map<(nat, nat), Subscription>

  /** The status body: subscribed iff a row exists, muted only then. */
  datatype SubscriptionStatus = SubscriptionStatus(room: nat, isSubscribed: bool, muted: bool)

  function StatusOf(subs: Subscriptions, user: nat, room: nat): (r: SubscriptionStatus)
    ensures r.room == room
    ensures r.isSubscribed <==> (user, room) in subs
    ensures r.muted <==> (user, room) in subs && subs[(user, room)].muted
  {
    if (user, room) in subs then SubscriptionStatus(room, true, subs[(user, room)].muted)
    else SubscriptionStatus(room, false, false)
  }

  /** `get_or_create` with `muted` defaulting to false. */
  function Subscribed(subs: Subscriptions, user: nat, room: nat, now: int): (r: Subscriptions)
    ensures (user, room) in r
    ensures (user, room) in subs ==> r == subs
    ensures (user, room) !in subs ==> r == subs[(user, room) := Subscription(false, now, now)]
  {
    if (user, room) in subs then subs else subs[(user, room) := Subscription(false, now, now)]
  }

  function Unsubscribed(subs: Subscriptions, user: nat, room: nat): (r: Subscriptions)
    ensures (user, room) !in r
    ensures forall k :: k != (user, room) ==> (k in r <==> k in subs) && (k in subs ==> r[k] == subs[k])
  {
    subs - {(user, room)}
  }

  /** `mute`: create with the requested flag, or change the flag (and the
      update time) only when it differs. */
  function Muted(subs: Subscriptions, user: nat, room: nat, muted: bool, now: int): (r: Subscriptions)
    ensures (user, room) in r && r[(user, room)].muted == muted
    ensures forall k :: k != (user, room) ==> (k in r <==> k in subs) && (k in subs ==> r[k] == subs[k])
    ensures (user, room) in subs && subs[(user, room)].muted == muted ==> r == subs
    ensures (user, room) in subs ==> r[(user, room)].createdAt == subs[(user, room)].createdAt
  {
    var k := (user, room);
    if k !in subs then subs[k := Subscription(muted, now, now)]
    else if subs[k].muted != muted then subs[k := subs[k].(muted := muted, updatedAt := now)]
    else subs
  }

  /** Subscribing again changes nothing, whatever the time. */
  lemma SubscribeIdempotent(subs: Subscriptions, user: nat, room: nat, t1: int, t2: int)
    ensures Subscribed(Subscribed(subs, user, room, t1), user, room, t2) == Subscribed(subs, user, room, t1)
    ensures StatusOf(Subscribed(subs, user, room, t1), user, room).isSubscribed
  {
  }

  /** A subscription keeps its `muted` flag when subscribed to again. */
  lemma SubscribeKeepsMuted(subs: Subscriptions, user: nat, room: nat, now: int)
    requires (user, room) in subs
    ensures StatusOf(Subscribed(subs, user, room, now), user, room) == StatusOf(subs, user, room)
  {
  }

  /** After unsubscribing the status is "not subscribed, not muted". */
  lemma UnsubscribeStatus(subs: Subscriptions, user: nat, room: nat)
    ensures StatusOf(Unsubscribed(subs, user, room), user, room) == SubscriptionStatus(room, false, false)
  {
  }

  /** Muting reports the requested flag; repeating it touches nothing. */
  lemma MuteSettles(subs: Subscriptions, user: nat, room: nat, muted: bool, t1: int, t2: int)
    ensures StatusOf(Muted(subs, user, room, muted, t1), user, room) == SubscriptionStatus(room, true, muted)
    ensures Muted(Muted(subs, user, room, muted, t1), user, room, muted, t2) == Muted(subs, user, room, muted, t1)
  {
  }

  class SubscriptionTable {
    var subs: Subscriptions

    constructor ()
      ensures subs == map[]
    {
      subs := map[];
    }

    function Status(user: nat, room: nat): (r: SubscriptionStatus)
      reads this
      ensures r == StatusOf(subs, user, room)
    {
      StatusOf(subs, user, room)
    }

    /** `group_chat_subscribe`: the row, created unmuted when absent. */
    method Subscribe(user: nat, room: nat, now: int) returns (sub: Subscription)
      modifies this
      ensures subs == Subscribed(old(subs), user, room, now)
      ensures sub == subs[(user, room)]
    {
      if (user, room) !in subs {
        subs := subs[(user, room) := Subscription(false, now, now)];
      }
      sub := subs[(user, room)];
    }

    /** `group_chat_unsubscribe`: deletes the row if any; the reply is the
        fixed "not subscribed, not muted" status. */
    method Unsubscribe(user: nat, room: nat) returns (reply: SubscriptionStatus)
      modifies this
      ensures subs == Unsubscribed(old(subs), user, room)
      ensures reply == Status(user, room)
    {
      subs := subs - {(user, room)};
      reply := SubscriptionStatus(room, false, false);
    }

    /** `group_chat_mute` with the body's `muted` read by `bool()`. */
    method Mute(user: nat, room: nat, mutedParam: Option<Json>, now: int) returns (sub: Subscription)
      modifies this
      ensures subs == Muted(old(subs), user, room, OptPyTruthy(mutedParam), now)
      ensures sub == subs[(user, room)]
    {
      var muted := OptPyTruthy(mutedParam);
      var k := (user, room);
      if k !in subs {
        subs := subs[k := Subscription(muted, now, now)];
      }
      sub := subs[k];
      if sub.muted != muted {
        sub := sub.(muted := muted, updatedAt := now);
        subs := subs[k := sub];
      }
    }
  }
}
