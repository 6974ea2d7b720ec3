/** The personal notifications WebSocket consumer
    (backend/notifications/consumers.py): joining `user_<id>`, announcing the
    user's presence to their friends, and forwarding group events to the
    socket under their client-side type names. */
module NotificationConsumer {
  import opened Wrappers
  import opened Json
  import opened Channels
  import opened ChatViewRules
  import opened NotifyUtils

  // ---------------------------------------------------------------------------
  // The group handlers

  /** Channels routes an event to the method named by its `type` with every
      `.` replaced by `_`. */
  function HandlerName(t: string): (r: string)
    ensures |r| == |t|
    ensures forall i :: 0 <= i < |t| ==> r[i] == if t[i] == '.' then '_' else t[i]
  {
    if t == [] then [] else HandlerName(t[..|t| - 1]) + [if t[|t| - 1] == '.' then '_' else t[|t| - 1]]
  }

  /** The five handlers and the type each puts on the frame it sends. */
  function ClientType(handler: string): (r: Option<string>)
    ensures r.Some? <==> handler in {"friend_request", "friend_accept", "dm_badge", "dm_read", "presence"}
  {
    match handler
    case "friend_request" => Some("friend:request")
    case "friend_accept" => Some("friend:accept")
    case "dm_badge" => Some("dm:badge")
    case "dm_read" => Some("dm:read")
    case "presence" => Some("presence")
    case _ => None
  }

  /** The frame a handler sends: the client type plus every other key of the
      event, unchanged. */
  function Forward(event: map<string, Json>, clientType: string): (r: Json)
    ensures r.JObj? && r.fields.Keys == (event.Keys - {"type"}) + {"type"}
    ensures Get(r, "type") == Some(JStr(clientType))
    ensures forall k :: k in event && k != "type" ==> Get(r, k) == Some(event[k])
  {
    JObj((map k | k in event && k != "type" :: event[k])["type" := JStr(clientType)])
  }

  datatype Delivery = Delivered(frame: Json) | NoHandler

  /** What the consumer does with one group event. */
  function Deliver(event: map<string, Json>): (r: Delivery)
    ensures r.Delivered? <==>
      "type" in event && event["type"].JStr? && ClientType(HandlerName(event["type"].s)).Some?
    ensures r.Delivered? ==> r.frame == Forward(event, ClientType(HandlerName(event["type"].s)).value)
  {
    if "type" !in event || !event["type"].JStr? then NoHandler
    else match ClientType(HandlerName(event["type"].s))
      case Some(ct) => Delivered(Forward(event, ct))
      case None => NoHandler
  }

  /** A type without dots names its handler directly. */
  lemma HandlerNameNoDots(t: string)
    requires forall i :: 0 <= i < |t| ==> t[i] != '.'
    ensures HandlerName(t) == t
  {
  }

  /** An event sent with `notify_user(type="dm_badge", ...)` reaches the
      client as its payload under type "dm:badge". */
  lemma NotifiedBadgeArrives(payload: map<string, Json>)
    requires "type" !in payload
    ensures Deliver(EventOf("dm_badge", payload).fields) == Delivered(JObj(payload["type" := JStr("dm:badge")]))
  {
    HandlerNameNoDots("dm_badge");
    var e := EventOf("dm_badge", payload).fields;
    assert Forward(e, "dm:badge").fields == payload["type" := JStr("dm:badge")];
  }

  /** The dotted spelling of a type reaches the same handler. */
  lemma DottedTypeSameHandler(payload: map<string, Json>)
    requires "type" !in payload
    ensures Deliver(EventOf("dm.badge", payload).fields) == Deliver(EventOf("dm_badge", payload).fields)
  {
    var h := HandlerName("dm.badge");
    assert h[2] == '_';
    assert h == "dm_badge";
    HandlerNameNoDots("dm_badge");
  }

  // ---------------------------------------------------------------------------
  // _get_friend_ids and _update_user_presence

  /** `user2_id` of the rows whose `user1_id` is me, in row order. */
  function Seconds(rows: seq<(nat, nat)>, me: nat): (r: seq<nat>)
    ensures forall x :: x in r <==> (me, x) in rows
  {
    if rows == [] then []
    else
      var last := rows[|rows| - 1];
      var init := rows[..|rows| - 1];
      assert rows == init + [last];
      Seconds(init, me) + (if last.0 == me then [last.1] else [])
  }

  /** `user1_id` of the rows whose `user2_id` is me, in row order. */
  function Firsts(rows: seq<(nat, nat)>, me: nat): (r: seq<nat>)
    ensures forall x :: x in r <==> (x, me) in rows
  {
    if rows == [] then []
    else
      var last := rows[|rows| - 1];
      var init := rows[..|rows| - 1];
      assert rows == init + [last];
      Firsts(init, me) + (if last.1 == me then [last.0] else [])
  }

  /** `_get_friend_ids`: both directions of the friendship table, or nothing
      when the friendship model cannot be imported. */
  function FriendIds(rows: seq<(nat, nat)>, me: nat, importable: bool): (r: seq<nat>)
    ensures !importable ==> r == []
    ensures importable ==> forall x :: x in r <==> (me, x) in rows || (x, me) in rows
  {
    if !importable then [] else Seconds(rows, me) + Firsts(rows, me)
  }

  /** The ids presence goes to are the friends list of the REST API, counted
      with multiplicity and up to order (no one befriends themself). */
  lemma {:induction false} FriendIdsMatchFriendsList(rows: seq<(nat, nat)>, me: nat)
    requires (me, me) !in rows
    ensures multiset(FriendIds(rows, me, true)) == multiset(FriendsOf(rows, me))
    decreases |rows|
  {
    if rows != [] {
      var last := rows[|rows| - 1];
      var init := rows[..|rows| - 1];
      assert rows == init + [last];
      assert last in rows;
      FriendIdsMatchFriendsList(init, me);
    }
  }

  /** The presence columns a user model may have; `None` is a column
      that the model lacks. */
  datatype PresenceColumns = PresenceColumns(isOnline: Option<bool>, lastSeen: Option<int>)

  /** `_update_user_presence`: nothing for a missing user; otherwise only the
      columns the model has are written. */
  function UpdateUserPresence(row: Option<PresenceColumns>, online: bool, now: int): (r: Option<PresenceColumns>)
    ensures row.None? <==> r.None?
    ensures row.Some? ==> (r.value.isOnline.Some? <==> row.value.isOnline.Some?)
    ensures row.Some? ==> (r.value.lastSeen.Some? <==> row.value.lastSeen.Some?)
    ensures row.Some? && row.value.isOnline.Some? ==> r.value.isOnline == Some(online)
    ensures row.Some? && row.value.lastSeen.Some? ==> r.value.lastSeen == Some(now)
  {
    match row
    case None => None
    case Some(c) =>
      Some(PresenceColumns(if c.isOnline.Some? then Some(online) else None,
                           if c.lastSeen.Some? then Some(now) else None))
  }

  /** The repository's user model has neither column, so the update writes
      nothing. */
  lemma UpdateUserPresenceNoopHere(row: Option<PresenceColumns>, online: bool, now: int)
    requires row.Some? ==> row.value == PresenceColumns(None, None)
    ensures UpdateUserPresence(row, online, now) == row
  {
  }

  /** The presence event for a user's friends. */
  function PresencePayload(userId: nat, online: bool): (r: map<string, Json>)
    ensures "type" !in r && r.Keys == {"user_id", "online"}
  {
    map["user_id" := JNum(userId), "online" := JBool(online)]
  }

  /** As written, `_set_presence` awaits the value of `notify_friends_ids`, a
      plain function that returns `None`, so the coroutine raises however
      many friends there are; and with friends, its first `async_to_sync`
      send raises already, called from the consumer's own event loop.  No
      presence event leaves: this is the list of sends as written. */
  function PresenceSendsAsWritten(friendIds: seq<nat>, userId: nat, online: bool): (r: seq<Sent>)
    ensures r == []
  {
    []
  }

  /** The sends that go missing: one per friend. */
  lemma PresenceLostAsWritten(rows: seq<(nat, nat)>, me: nat, friend: nat, online: bool)
    requires (me, friend) in rows
    ensures |FanOut(FriendIds(rows, me, true), EventOf("presence", PresencePayload(me, online)))| >= 1
    ensures PresenceSendsAsWritten(FriendIds(rows, me, true), me, online) !=
            FanOut(FriendIds(rows, me, true), EventOf("presence", PresencePayload(me, online)))
  {
    assert friend in FriendIds(rows, me, true);
  }

  // ---------------------------------------------------------------------------
  // The consumer

  class NotificationsConsumer {
    const layer: ChannelLayer
    const channelName: string
    /** `self.user_id`, set only by an authenticated `connect` */
    var userId: Option<nat>
    var accepted: bool
    var closed: bool
    /** `self._offline_task` is a scheduled task that has not finished */
    var offlinePending: bool
    /** the frames sent on the socket, in order */
    var outbox: seq<Json>

    constructor (layer: ChannelLayer, channelName: string)
      ensures this.layer == layer && this.channelName == channelName
      ensures userId.None? && !accepted && !closed && !offlinePending && outbox == []
    {
      this.layer := layer;
      this.channelName := channelName;
      userId := None;
      accepted := false;
      closed := false;
      offlinePending := false;
      outbox := [];
    }

    /** `connect` as written: an anonymous socket is closed and joins nothing;
        an authenticated one joins `user_<id>` and is accepted, and then the
        presence announcement raises without sending anything.  Nothing in
        `connect` catches it, so the consumer ends and the server closes the
        socket it has just accepted; the group entry is left behind, because
        `disconnect` does not run for a consumer that raised. */
    method ConnectAsWritten(user: Option<nat>, friendships: seq<(nat, nat)>) returns (raised: bool)
      modifies this, layer
      ensures user.None? ==> closed && accepted == old(accepted) && userId == old(userId) && !raised
      ensures user.None? ==> layer.groups == old(layer.groups)
      ensures user.Some? ==> userId == user && accepted && closed && !offlinePending && raised
      ensures user.Some? ==> layer.groups == old(layer.groups)[UserGroup(user.value) :=
                                                                old(layer.Members(UserGroup(user.value))) + {channelName}]
      ensures layer.sent == old(layer.sent) + (if user.Some? then PresenceSendsAsWritten(FriendIds(friendships, user.value, true), user.value, true) else [])
      ensures outbox == old(outbox)
    {
      if user.None? {
        closed := true;
        return false;
      }
      userId := user;
      offlinePending := false;
      layer.GroupAdd(UserGroup(user.value), channelName);
      accepted := true;
      closed := true;
      return true;
    }

    /** `connect` as evidently intended: after joining and accepting, every
        friend's group gets one `presence` event saying the user is online. */
    method Connect(user: Option<nat>, friendships: seq<(nat, nat)>)
      modifies this, layer
      ensures user.None? ==> closed && accepted == old(accepted) && userId == old(userId)
      ensures user.None? ==> layer.groups == old(layer.groups) && layer.sent == old(layer.sent)
      ensures user.Some? ==> userId == user && accepted && !offlinePending
      ensures user.Some? ==> layer.groups == old(layer.groups)[UserGroup(user.value) :=
                                                                old(layer.Members(UserGroup(user.value))) + {channelName}]
      ensures user.Some? ==>
                layer.sent == old(layer.sent) + FanOut(FriendIds(friendships, user.value, true), EventOf("presence", PresencePayload(user.value, true)))
      ensures outbox == old(outbox)
    {
      if user.None? {
        closed := true;
        return;
      }
      userId := user;
      offlinePending := false;
      layer.GroupAdd(UserGroup(user.value), channelName);
      accepted := true;
      SetPresence(true, friendships);
    }

    /** `_set_presence` as evidently intended: going online cancels a pending
        offline task; then the friends are told.  The user table update is
        `UpdateUserPresence`, a no-op for this user model. */
    method SetPresence(online: bool, friendships: seq<(nat, nat)>)
      requires userId.Some?
      modifies this, layer
      ensures userId == old(userId) && accepted == old(accepted) && closed == old(closed)
      ensures offlinePending == (old(offlinePending) && !online)
      ensures layer.sent == old(layer.sent) +
                FanOut(FriendIds(friendships, userId.value, true), EventOf("presence", PresencePayload(userId.value, online)))
      ensures layer.groups == old(layer.groups) && outbox == old(outbox)
    {
      if online && offlinePending {
        offlinePending := false;
      }
      NotifyFriendsIds(layer, FriendIds(friendships, userId.value, true), "presence", PresencePayload(userId.value, online));
    }

    /** `disconnect`: leave the personal group and schedule going offline;
        a socket that never authenticated (or user id 0) does neither. */
    method Disconnect()
      modifies this, layer
      ensures userId == old(userId) && accepted == old(accepted) && closed == old(closed)
      ensures userId.Some? ==> layer.groups == old(layer.groups)[UserGroup(userId.value) :=
                                                                  old(layer.Members(UserGroup(userId.value))) - {channelName}]
      ensures userId.None? ==> layer.groups == old(layer.groups)
      ensures offlinePending == (old(offlinePending) || (userId.Some? && userId.value != 0))
      ensures layer.sent == old(layer.sent) && outbox == old(outbox)
    {
      if userId.Some? {
        layer.GroupDiscard(UserGroup(userId.value), channelName);
        if userId.value != 0 {
          offlinePending := true;
        }
      }
    }

    /** The scheduled offline task running to completion (its delay is not
        modelled): the friends are told the user went offline. */
    method OfflineDue(friendships: seq<(nat, nat)>)
      requires userId.Some? && offlinePending
      modifies this, layer
      ensures !offlinePending && userId == old(userId)
      ensures layer.sent == old(layer.sent) +
                FanOut(FriendIds(friendships, userId.value, true), EventOf("presence", PresencePayload(userId.value, false)))
      ensures layer.groups == old(layer.groups) && outbox == old(outbox)
    {
      offlinePending := false;
      SetPresence(false, friendships);
    }

    /** A group event addressed to this socket: one frame for the five known
        types.  Any other event has no handler, and Channels raises
        `ValueError` for it, which ends the consumer and closes the socket. */
    method Handle(event: map<string, Json>)
      modifies this
      ensures Deliver(event).Delivered? ==> outbox == old(outbox) + [Deliver(event).frame] && closed == old(closed)
      ensures Deliver(event).NoHandler? ==> outbox == old(outbox) && closed
      ensures userId == old(userId) && offlinePending == old(offlinePending) && accepted == old(accepted)
    {
      match Deliver(event)
      case Delivered(frame) => outbox := outbox + [frame];
      case NoHandler => closed := true;
    }
  }
}
