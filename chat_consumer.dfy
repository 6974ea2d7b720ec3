/** The room WebSocket consumer (backend/chat/consumers.py): joining and
    leaving the `chat_<room>` group, dispatching inbound frames, and the
    outbound handlers that turn group events into socket frames. */
module ChatConsumer {
  import opened Wrappers
  import opened Text
  import opened Json
  import opened Users
  import opened ChatModels
  import opened Channels
  import opened ChatViews

  /** Python `str(x)` on the scalar values a frame may carry for the sender
      name.  Django would store a list or dict as its Python repr, such as
      `['x']`; the JSON values here keep no key order, so that text is not
      formed and such a name is `None`. */
  function PyStr(j: Json): (r: Option<string>)
    ensures j.JStr? ==> r == Some(j.s)
    ensures j.JArr? || j.JObj? || j.JNull? ==> r.None?
  {
    match j
    case JStr(s) => Some(s)
    case JNum(n) => Some(IntToString(n))
    case JBool(b) => Some(if b then "True" else "False")
    case _ => None
  }

  /** The sender name as written: the frame's `displayName` when truthy, else
      `user.username` for a signed-in user and "User" otherwise.  The
      user model has no `username` attribute, so for a signed-in user without a
      `displayName` the lookup raises (`Err`). */
  function FrameDisplayNameAsWritten(payload: Json, user: Option<User>): (r: Result<Json, ()>)
    ensures OptPyTruthy(Get(payload, "displayName")) ==> r == Ok(Get(payload, "displayName").value)
  {
    var given := Get(payload, "displayName");
    if OptPyTruthy(given) then Ok(given.value)
    else if user.None? then Ok(JStr("User"))
    else if user.value.username.Some? then Ok(JStr(user.value.username.value))
    else Err(())
  }

  /** A signed-in user who sends a message without `displayName` gets no
      message stored or broadcast: the name lookup raises first. */
  lemma FrameDisplayNameRaisesForSignedIn(u: User)
    requires u.username.None?
    ensures FrameDisplayNameAsWritten(Obj1("type", JStr("message")), Some(u)).Err?
    ensures FrameDisplayNameAsWritten(JObj(map["type" := JStr("message"), "content" := JStr("hi")]), Some(u)).Err?
  {
    assert Get(Obj1("type", JStr("message")), "displayName").None?;
  }

  /** The sender name as evidently intended: the frame's `displayName` when
      truthy, else the user's login name (`get_username()`, the email for
      this model) and "User" for an anonymous sender; it never raises. */
  function FrameDisplayName(payload: Json, user: Option<User>): (r: Json)
    ensures OptPyTruthy(Get(payload, "displayName")) ==> r == Get(payload, "displayName").value
    ensures !OptPyTruthy(Get(payload, "displayName")) && user.None? ==> r == JStr("User")
    ensures !OptPyTruthy(Get(payload, "displayName")) && user.Some? ==>
      r == JStr(if user.value.username.Some? then user.value.username.value else user.value.email)
  {
    var given := Get(payload, "displayName");
    if OptPyTruthy(given) then given.value
    else if user.None? then JStr("User")
    else JStr(if user.value.username.Some? then user.value.username.value else user.value.email)
  }

  /** Wherever the code as written gives a name, the corrected one gives the
      same name. */
  lemma FrameDisplayNameAgrees(payload: Json, user: Option<User>)
    ensures FrameDisplayNameAsWritten(payload, user).Ok? ==>
      FrameDisplayNameAsWritten(payload, user).value == FrameDisplayName(payload, user)
  {
  }

  /** What `receive` decides to do with a frame. */
  datatype Action =
    | NoAction
    | Raises
    | BroadcastTyping(event: Json)
    | Persist(content: string, displayName: Json)

  /** `receive`: text that is not JSON is ignored; a payload that is not an
      object cannot be read (`.get` raises); a `typing` frame becomes one
      typing event with `isTyping` made boolean; a `message` frame is
      trimmed and dropped when empty, else persisted; any other type is
      ignored.  A `content` that is truthy but not a string cannot be
      stripped, and a sender name that cannot be stored is refused. */
  function Dispatch(payload: Option<Json>, user: Option<User>): (a: Action)
    ensures payload.None? ==> a == NoAction
    ensures payload.Some? && !payload.value.JObj? ==> a == Raises
    ensures a.BroadcastTyping? ==>
      payload.Some? && Get(payload.value, "type") == Some(JStr("typing")) &&
      a.event == JObj(map["type" := JStr("typing"),
                          "user" := Get(payload.value, "user").GetOr(JNull),
                          "isTyping" := JBool(OptPyTruthy(Get(payload.value, "isTyping")))])
    ensures a.Persist? ==>
      payload.Some? && Get(payload.value, "type") == Some(JStr("message")) &&
      a.content != "" && a.content == Trim(a.content)
    ensures (payload.Some? && payload.value.JObj? &&
             Get(payload.value, "type") !in {Some(JStr("typing")), Some(JStr("message"))}) ==> a == NoAction
  {
    if payload.None? then NoAction
    else if !payload.value.JObj? then Raises
    else
      var p := payload.value;
      var t := Get(p, "type");
      if t == Some(JStr("typing")) then
        BroadcastTyping(JObj(map["type" := JStr("typing"),
                                 "user" := Get(p, "user").GetOr(JNull),
                                 "isTyping" := JBool(OptPyTruthy(Get(p, "isTyping")))]))
      else if t == Some(JStr("message")) then
        var raw := Get(p, "content");
        if OptPyTruthy(raw) && !raw.value.JStr? then Raises
        else
          var content := if OptPyTruthy(raw) then Trim(raw.value.s) else "";
          var name := FrameDisplayName(p, user);
          if content == "" then NoAction
          else if PyStr(name).None? then Raises
          else
            TrimIdempotent(if OptPyTruthy(raw) then raw.value.s else "");
            Persist(content, name)
      else NoAction
  }

  /** `receive` as written: the sender name is looked up before the blank
      check, so for a signed-in sender without `displayName` every message
      frame raises, blank or not; every other frame is decided as by
      `Dispatch`. */
  function DispatchAsWritten(payload: Option<Json>, user: Option<User>): (a: Action)
    ensures a == Raises || a == Dispatch(payload, user)
    ensures a != Dispatch(payload, user) <==>
      payload.Some? && payload.value.JObj? && Get(payload.value, "type") == Some(JStr("message")) &&
      FrameDisplayNameAsWritten(payload.value, user).Err? && Dispatch(payload, user) != Raises
  {
    if payload.Some? && payload.value.JObj? && Get(payload.value, "type") == Some(JStr("message"))
       && FrameDisplayNameAsWritten(payload.value, user).Err?
    then Raises
    else Dispatch(payload, user)
  }

  /** As written, a blank message from a signed-in sender raises where the
      corrected dispatch drops it. */
  lemma BlankMessageRaisesAsWritten(content: string, u: User)
    requires AllSpace(content) && u.username.None?
    ensures var p := Some(JObj(map["type" := JStr("message"), "content" := JStr(content)]));
      DispatchAsWritten(p, Some(u)) == Raises && Dispatch(p, Some(u)) == NoAction
  {
    var p := JObj(map["type" := JStr("message"), "content" := JStr(content)]);
    assert Get(p, "type") == Some(JStr("message"));
    assert Get(p, "displayName").None?;
    BlankMessageIsDropped(content, Some(u));
  }

  /** A message frame whose content is blank after trimming, or absent, is
      dropped: nothing is stored and nothing is sent. */
  lemma BlankMessageIsDropped(content: string, user: Option<User>)
    requires AllSpace(content)
    ensures Dispatch(Some(JObj(map["type" := JStr("message"), "content" := JStr(content)])), user) == NoAction
    ensures Dispatch(Some(Obj1("type", JStr("message"))), user) == NoAction
  {
    var p := JObj(map["type" := JStr("message"), "content" := JStr(content)]);
    assert Get(p, "content") == Some(JStr(content));
    assert Get(p, "type") == Some(JStr("message"));
    assert Get(Obj1("type", JStr("message")), "type") == Some(JStr("message"));
  }

  /** A message frame with text to send is persisted with that text trimmed. */
  lemma TextMessageIsPersisted(content: string, user: Option<User>)
    requires !AllSpace(content)
    ensures Dispatch(Some(JObj(map["type" := JStr("message"), "content" := JStr(content)])), user) ==
      Persist(Trim(content), FrameDisplayName(JObj(map["type" := JStr("message"), "content" := JStr(content)]), user))
  {
    var p := JObj(map["type" := JStr("message"), "content" := JStr(content)]);
    assert Get(p, "content") == Some(JStr(content));
    assert Get(p, "type") == Some(JStr("message"));
    assert Get(p, "displayName").None?;
    assert content != [];
    assert OptPyTruthy(Get(p, "content"));
    assert Trim(content) != "";
    var name := FrameDisplayName(p, user);
    assert name.JStr?;
    assert PyStr(name).Some?;
  }

  /** The `chat_message` event `receive` sends for a stored message. */
  function ChatMessageEvent(m: Message, displayName: Json): Json {
    JObj(map["type" := JStr("chat_message"),
             "data" := JObj(map["id" := JStr(m.id),
                                "content" := JStr(m.content),
                                "display_name" := displayName,
                                "created_at" := JNum(m.createdAt)])])
  }

  /** `chat_message` handler: the event's `data` under type `message`. */
  function OutboundChatMessage(event: Json): (r: Json)
    ensures Get(r, "type") == Some(JStr("message"))
    ensures Get(r, "data") == Some(Get(event, "data").GetOr(JNull))
  {
    JObj(map["type" := JStr("message"), "data" := Get(event, "data").GetOr(JNull)])
  }

  /** `typing` handler: user and flag under `data`. */
  function OutboundTyping(event: Json): (r: Json)
    ensures Get(r, "type") == Some(JStr("typing"))
    ensures Get(r, "data") == Some(JObj(map["user" := Get(event, "user").GetOr(JNull),
                                            "isTyping" := Get(event, "isTyping").GetOr(JNull)]))
  {
    JObj(map["type" := JStr("typing"),
             "data" := JObj(map["user" := Get(event, "user").GetOr(JNull),
                                "isTyping" := Get(event, "isTyping").GetOr(JNull)])])
  }

  /** `presence` handler: the count under `data`, 0 when the event has none. */
  function OutboundPresence(event: Json): (r: Json)
    ensures Get(r, "type") == Some(JStr("presence"))
    ensures Get(event, "count").None? ==> Get(r, "data") == Some(Obj1("count", JNum(0)))
    ensures Get(event, "count").Some? ==> Get(r, "data") == Some(Obj1("count", Get(event, "count").value))
  {
    JObj(map["type" := JStr("presence"),
             "data" := Obj1("count", Get(event, "count").GetOr(JNum(0)))])
  }

  /** A typing frame reaches the room's sockets as a typing frame carrying
      the sender's user and the boolean flag. */
  lemma TypingRoundTrip(payload: Json, user: Option<User>)
    requires Dispatch(Some(payload), user).BroadcastTyping?
    ensures OutboundTyping(Dispatch(Some(payload), user).event) ==
      JObj(map["type" := JStr("typing"),
               "data" := JObj(map["user" := Get(payload, "user").GetOr(JNull),
                                  "isTyping" := JBool(OptPyTruthy(Get(payload, "isTyping")))])])
  {
  }

  function PresenceEvent(count: nat): Json {
    JObj(map["type" := JStr("presence"), "count" := JNum(count)])
  }

  /** The event `destroy` publishes when a message is deleted for everyone. */
  function ChatDeleteEvent(id: string): Json {
    JObj(map["type" := JStr("chat_delete"), "id" := JStr(id)])
  }

  /** A type with its dots read as underscores. */
  function Underscored(t: string): (r: string)
    ensures |r| == |t| && '.' !in r
    ensures '.' !in t ==> r == t
  {
    seq(|t|, i requires 0 <= i < |t| => if t[i] == '.' then '_' else t[i])
  }

  /** The handler an event is dispatched to: its `type` with dots read as
      underscores; an event whose type is not text names none. */
  function HandlerName(event: Json): (r: Option<string>)
    ensures r.Some? <==> Get(event, "type").Some? && Get(event, "type").value.JStr?
    ensures r.Some? ==> r.value == Underscored(Get(event, "type").value.s)
  {
    match Get(event, "type")
    case Some(JStr(t)) => Some(Underscored(t))
    case _ => None
  }

  /** The frame a socket sends for a group event, as the consumer is
      written: one handler each for `chat_message`, `typing` and
      `presence`.  `None` is an event with no handler: dispatching it raises,
      which closes the socket. */
  function OutboundAsWritten(event: Json): (r: Option<Json>)
    ensures r.Some? ==> HandlerName(event).Some? && HandlerName(event).value in {"chat_message", "typing", "presence"}
  {
    match HandlerName(event)
    case Some(h) =>
      if h == "chat_message" then Some(OutboundChatMessage(event))
      else if h == "typing" then Some(OutboundTyping(event))
      else if h == "presence" then Some(OutboundPresence(event))
      else None
    case None => None
  }

  /** Deleting for everyone publishes an event no handler serves: every
      socket in the room fails on it instead of passing the deletion on. */
  lemma DeleteEventHasNoHandler(id: string)
    ensures OutboundAsWritten(ChatDeleteEvent(id)).None?
  {
    var name: string := "chat_delete";
    assert Get(ChatDeleteEvent(id), "type") == Some(JStr(name));
    assert '.' !in name;
    assert name != "chat_message" && name != "typing" && name != "presence" by {
      assert name[5] == 'd';
      assert |name| != |"typing"| && |name| != |"presence"|;
    }
  }

  /** `chat_delete` handler of the corrected consumer: a `delete` frame with
      the message id, the shape the chat screen listens for. */
  function OutboundDelete(event: Json): (r: Json)
    ensures Get(r, "type") == Some(JStr("delete"))
    ensures Get(r, "id") == Some(Get(event, "id").GetOr(JNull))
  {
    JObj(map["type" := JStr("delete"), "id" := Get(event, "id").GetOr(JNull)])
  }

  /** The corrected dispatch: as written, plus the `chat_delete` handler. */
  function Outbound(event: Json): (r: Option<Json>)
    ensures OutboundAsWritten(event).Some? ==> r == OutboundAsWritten(event)
    ensures HandlerName(event) == Some("chat_delete") ==> r == Some(OutboundDelete(event))
    ensures r.None? <==> OutboundAsWritten(event).None? && HandlerName(event) != Some("chat_delete")
  {
    if HandlerName(event) == Some("chat_delete") then
      var name: string := "chat_delete";
      assert name[5] == 'd' && |name| != |"typing"| && |name| != |"presence"|;
      Some(OutboundDelete(event))
    else OutboundAsWritten(event)
  }

  /** With the corrected dispatch the deletion reaches every socket as a
      `delete` frame carrying the id. */
  lemma DeleteEventDelivered(id: string)
    ensures Outbound(ChatDeleteEvent(id)) == Some(JObj(map["type" := JStr("delete"), "id" := JStr(id)]))
  {
    var name: string := "chat_delete";
    assert Get(ChatDeleteEvent(id), "type") == Some(JStr(name));
    assert '.' !in name;
  }

  /** A value of the `data` dict `receive` puts in a `chat_message` event:
      JSON-shaped, or the `uuid.UUID` object that a message's primary key is
      (backend/chat/models.py:165), held as its text. */
  datatype PyValue = Plain(j: Json) | UuidObject(hex: string)

  /** The `data` of the `chat_message` event as written: `"id": msg.id`
      puts the UUID object itself in the event. */
  function ChatMessageDataAsWritten(m: Message, displayName: Json): (r: map<string, PyValue>)
    ensures r.Keys == {"id", "content", "display_name", "created_at"}
    ensures r["id"] == UuidObject(m.id) && r["content"] == Plain(JStr(m.content))
    ensures r["display_name"] == Plain(displayName) && r["created_at"] == Plain(JNum(m.createdAt))
  {
    map["id" := UuidObject(m.id), "content" := Plain(JStr(m.content)),
        "display_name" := Plain(displayName), "created_at" := Plain(JNum(m.createdAt))]
  }

  /** `json.dumps({"type": "message", "data": data})` in the `chat_message`
      handler: it raises `TypeError` (`None`) as soon as a value is a UUID
      object.  The in-memory channel layer hands the event over unchanged. */
  function DumpMessageFrame(data: map<string, PyValue>): (r: Option<Json>)
    ensures r.Some? <==> forall k :: k in data ==> data[k].Plain?
    ensures r.Some? ==> Get(r.value, "type") == Some(JStr("message"))
    ensures r.Some? ==> Get(r.value, "data") == Some(JObj(map k | k in data :: data[k].j))
  {
    if forall k :: k in data ==> data[k].Plain? then
      Some(JObj(map["type" := JStr("message"), "data" := JObj(map k | k in data :: data[k].j)]))
    else None
  }

  /** As written, every `chat_message` handler raises on the socket frame,
      so no socket in the room receives a message sent over the socket, and
      the failing handler closes each of them. */
  lemma ChatMessageFrameRaisesAsWritten(m: Message, displayName: Json)
    ensures DumpMessageFrame(ChatMessageDataAsWritten(m, displayName)).None?
  {
    var d := ChatMessageDataAsWritten(m, displayName);
    assert "id" in d && !d["id"].Plain?;
  }

  /** The data with every UUID object replaced by its text, `str(msg.id)`. */
  function UuidsAsText(data: map<string, PyValue>): (r: map<string, Json>)
    ensures r.Keys == data.Keys
    ensures forall k :: k in data && data[k].Plain? ==> r[k] == data[k].j
    ensures forall k :: k in data && data[k].UuidObject? ==> r[k] == JStr(data[k].hex)
  {
    map k | k in data :: if data[k].Plain? then data[k].j else JStr(data[k].hex)
  }

  /** With the id sent as its text (`ChatMessageEvent`), the event's data is
      the as-written data with the UUID written out. */
  lemma ChatMessageDataHasIdText(m: Message, displayName: Json)
    ensures Get(ChatMessageEvent(m, displayName), "data") ==
            Some(JObj(UuidsAsText(ChatMessageDataAsWritten(m, displayName))))
  {
    var t := UuidsAsText(ChatMessageDataAsWritten(m, displayName));
    assert t == map["id" := JStr(m.id), "content" := JStr(m.content),
                    "display_name" := displayName, "created_at" := JNum(m.createdAt)];
  }

  /** The `chat_message` handler serves that event: every socket gets its
      data as a `message` frame. */
  lemma ChatMessageFrameDelivered(m: Message, displayName: Json)
    ensures OutboundAsWritten(ChatMessageEvent(m, displayName)) ==
            Some(JObj(map["type" := JStr("message"), "data" := Get(ChatMessageEvent(m, displayName), "data").value]))
  {
    var e := ChatMessageEvent(m, displayName);
    var name: string := "chat_message";
    assert Get(e, "type") == Some(JStr(name));
    assert '.' !in name;
  }

  class RoomConsumer {
    const layer: ChannelLayer
    const channelName: string
    /** set by `connect` from the URL */
    var roomId: nat
    var accepted: bool

    constructor (layer: ChannelLayer, channelName: string)
      ensures this.layer == layer && this.channelName == channelName && !accepted
    {
      this.layer := layer;
      this.channelName := channelName;
      roomId := 0;
      accepted := false;
    }

    function GroupName(): string
      reads this
    {
      ChatGroup(roomId)
    }

    /** `connect` as written: join, accept, then announce presence with a
        count of 0, although the group then holds at least this socket. */
    method ConnectAsWritten(room: nat)
      modifies this, layer
      ensures roomId == room && accepted
      ensures layer.groups == old(layer.groups)[ChatGroup(room) := old(layer.Members(ChatGroup(room))) + {channelName}]
      ensures layer.sent == old(layer.sent) + [Sent(ChatGroup(room), PresenceEvent(0))]
      ensures |layer.Members(ChatGroup(room))| >= 1
    {
      roomId := room;
      layer.GroupAdd(GroupName(), channelName);
      accepted := true;
      layer.GroupSend(GroupName(), PresenceEvent(0));
    }

    /** `connect` as evidently intended: the presence count is the number of
        sockets in the room's group after joining, so never 0. */
    method Connect(room: nat)
      modifies this, layer
      ensures roomId == room && accepted
      ensures layer.groups == old(layer.groups)[ChatGroup(room) := old(layer.Members(ChatGroup(room))) + {channelName}]
      ensures layer.sent == old(layer.sent) + [Sent(ChatGroup(room), PresenceEvent(|layer.Members(ChatGroup(room))|))]
      ensures |layer.Members(ChatGroup(room))| >= 1
    {
      roomId := room;
      layer.GroupAdd(GroupName(), channelName);
      accepted := true;
      layer.GroupSend(GroupName(), PresenceEvent(|layer.Members(GroupName())|));
    }

    /** `disconnect`: leave the room's group. */
    method Disconnect()
      modifies layer
      ensures layer.groups == old(layer.groups)[GroupName() := old(layer.Members(GroupName())) - {channelName}]
      ensures layer.sent == old(layer.sent)
    {
      layer.GroupDiscard(GroupName(), channelName);
    }

    /** `receive`: performs the `Dispatch` decision.  A persisted message is
        stored once (author only for a signed-in user) in an existing room and
        then broadcast once as `chat_message`; a missing room raises before
        anything is stored. */
    method Receive(payload: Option<Json>, user: Option<User>, store: MessageTable, rooms: set<nat>,
                   freshId: string, now: int)
      requires store.Valid() && freshId !in store.rows
      modifies layer, store
      ensures store.Valid()
      ensures layer.groups == old(layer.groups) && store.hidden == old(store.hidden)
      ensures match Dispatch(payload, user)
        case BroadcastTyping(e) =>
          layer.sent == old(layer.sent) + [Sent(GroupName(), e)] && store.rows == old(store.rows)
        case Persist(content, name) =>
          if roomId in rooms then
            var m := Message(freshId, roomId, if user.Some? then Some(user.value.id) else None,
                             PyStr(name).GetOr(""), content, None, "", "", None, None, now, None, None, EmptyMeta);
            store.rows == old(store.rows)[freshId := m] &&
            layer.sent == old(layer.sent) + [Sent(GroupName(), ChatMessageEvent(m, name))]
          else
            store.rows == old(store.rows) && layer.sent == old(layer.sent)
        case _ => layer.sent == old(layer.sent) && store.rows == old(store.rows)
    {
      match Dispatch(payload, user)
      case BroadcastTyping(e) =>
        layer.GroupSend(GroupName(), e);
      case Persist(content, name) =>
        if roomId in rooms {
          var m := Message(freshId, roomId, if user.Some? then Some(user.value.id) else None,
                           PyStr(name).GetOr(""), content, None, "", "", None, None, now, None, None, EmptyMeta);
          store.Insert(m);
          layer.GroupSend(GroupName(), ChatMessageEvent(m, name));
        }
      case _ =>
    }
  }
}
