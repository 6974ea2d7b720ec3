/** Sending notification events to the personal `user_<id>` groups
    (backend/notifications/utils.py).  The process-wide channel layer is passed
    in; `null` stands for a deployment without one. */
module NotifyUtils {
  import opened Wrappers
  import opened Text
  import opened Json
  import opened Channels

  /** The personal group every notifications socket of a user joins. */
  function UserGroup(id: nat): string { "user_" + NatToString(id) }

  lemma UserGroupInjective(a: nat, b: nat)
    ensures UserGroup(a) == UserGroup(b) <==> a == b
  {
    if UserGroup(a) == UserGroup(b) {
      assert NatToString(a) == UserGroup(a)[5..];
      assert NatToString(b) == UserGroup(b)[5..];
      NatToStringInjective(a, b);
    }
  }

  /** The event dict `{"type": type, **payload}`.  A keyword argument cannot
      repeat `type`, so the payload never carries that key itself. */
  function EventOf(typ: string, payload: map<string, Json>): (r: Json)
    requires "type" !in payload
    ensures r.JObj? && r.fields.Keys == payload.Keys + {"type"}
    ensures Get(r, "type") == Some(JStr(typ))
    ensures forall k :: k in payload ==> Get(r, k) == Some(payload[k])
  {
    JObj(payload["type" := JStr(typ)])
  }

  /** One send per listed id, in list order, all with the same event. */
  function FanOut(ids: seq<nat>, event: Json): (r: seq<Sent>)
    ensures |r| == |ids|
    ensures forall i :: 0 <= i < |ids| ==> r[i] == Sent(UserGroup(ids[i]), event)
  {
    if ids == [] then []
    else FanOut(ids[..|ids| - 1], event) + [Sent(UserGroup(ids[|ids| - 1]), event)]
  }

  /** The groups reached by a fan-out are exactly those of the listed ids. */
  lemma FanOutReaches(ids: seq<nat>, event: Json, id: nat)
    ensures (exists s :: s in FanOut(ids, event) && s.group == UserGroup(id)) <==> id in ids
  {
    var r := FanOut(ids, event);
    if id in ids {
      var i :| 0 <= i < |ids| && ids[i] == id;
      assert r[i].group == UserGroup(id);
    }
    if exists s :: s in r && s.group == UserGroup(id) {
      var s :| s in r && s.group == UserGroup(id);
      var i :| 0 <= i < |r| && r[i] == s;
      UserGroupInjective(ids[i], id);
    }
  }

  /** `notify_user`: one event to the user's group, nothing without a layer. */
  method NotifyUser(layer: ChannelLayer?, userId: nat, typ: string, payload: map<string, Json>)
    requires "type" !in payload
    modifies layer
    ensures layer != null ==> layer.sent == old(layer.sent) + [Sent(UserGroup(userId), EventOf(typ, payload))]
    ensures layer != null ==> layer.groups == old(layer.groups)
  {
    if layer == null {
      return;
    }
    layer.GroupSend(UserGroup(userId), EventOf(typ, payload));
  }

  /** `notify_friends_ids`: the same event to every listed id, in order;
      nothing without a layer or for an empty list. */
  method NotifyFriendsIds(layer: ChannelLayer?, friendIds: seq<nat>, typ: string, payload: map<string, Json>)
    requires "type" !in payload
    modifies layer
    ensures layer != null ==> layer.sent == old(layer.sent) + FanOut(friendIds, EventOf(typ, payload))
    ensures layer != null ==> layer.groups == old(layer.groups)
  {
    if layer == null || friendIds == [] {
      return;
    }
    var event := EventOf(typ, payload);
    for i := 0 to |friendIds|
      invariant layer.sent == old(layer.sent) + FanOut(friendIds[..i], event)
      invariant layer.groups == old(layer.groups)
    {
      assert friendIds[..i + 1][..i] == friendIds[..i];
      layer.GroupSend(UserGroup(friendIds[i]), event);
    }
    assert friendIds[..|friendIds|] == friendIds;
  }
}
