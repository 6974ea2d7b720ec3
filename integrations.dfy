/** The save-signal integrations (backend/notifications/integrations.py): model
    names taken from settings, attribute probing on whatever row was saved,
    the 80-character preview, and what each of the three handlers hands to
    the notification sinks.  A saved row is a `Json` object whose keys are its
    attributes (`None` attributes are `JNull`, related rows nested objects);
    the sinks `notify_room_subscribers` and `create_and_notify` are not part
    of the repository, so a handler's outcome is the call it makes. */
module Integrations {
  import opened Wrappers
  import opened Text
  import opened Json
  import opened ChatViewRules

  // ---------------------------------------------------------------------------
  // ModelSpec.parse and _resolve_model

  datatype ModelSpec = ModelSpec(appLabel: string, modelName: string)

  /** The position of the first `c` in `s`. */
  function IndexOf(s: string, c: char): (r: Option<nat>)
    ensures r.None? <==> c !in s
    ensures r.Some? ==> r.value < |s| && s[r.value] == c && c !in s[..r.value]
  {
    if s == [] then None
    else if s[0] == c then Some(0)
    else match IndexOf(s[1..], c)
      case None => None
      case Some(i) =>
        assert s[..i + 1] == [s[0]] + s[1..][..i];
        Some(i + 1)
  }

  /** `'app.Model'`: nothing for an empty name or one without a dot, else
      the split at the first dot. */
  function ParseModelSpec(dotted: string): (r: Option<ModelSpec>)
    ensures r.None? <==> '.' !in dotted
    ensures r.Some? ==> r.value.appLabel + "." + r.value.modelName == dotted && '.' !in r.value.appLabel
  {
    if dotted == [] || '.' !in dotted then None
    else
      var i := IndexOf(dotted, '.').value;
      assert dotted == dotted[..i] + "." + dotted[i + 1..];
      Some(ModelSpec(dotted[..i], dotted[i + 1..]))
  }

  /** Any app label without a dot and any model name come back from the
      dotted form. */
  lemma ParseModelSpecRoundTrip(app: string, model: string)
    requires '.' !in app
    ensures ParseModelSpec(app + "." + model) == Some(ModelSpec(app, model))
  {
    var s := app + "." + model;
    assert s[|app|] == '.';
    assert s[..|app|] == app;
    assert s[|app| + 1..] == model;
  }

  /** `_resolve_model`: the installed model named by the setting, looked up as
      `apps.get_model` does (app label exact, model name case-insensitive), or
      nothing when the setting is unset, malformed or names no model.  The
      registry lists the installed `(app_label, lower-cased model name)`
      pairs; failures are absorbed, so the function is total. */
  function ResolveModel(dotted: Option<string>, registry: set<(string, string)>): (r: Option<(string, string)>)
    ensures r.Some? ==> r.value in registry
    ensures r.Some? <==>
      var spec := ParseModelSpec(dotted.GetOr(""));
      spec.Some? && (spec.value.appLabel, Lower(spec.value.modelName)) in registry
  {
    match ParseModelSpec(dotted.GetOr(""))
    case None => None
    case Some(spec) =>
      if (spec.appLabel, Lower(spec.modelName)) in registry then Some((spec.appLabel, Lower(spec.modelName)))
      else None
  }

  lemma ResolveUnsetModel(registry: set<(string, string)>)
    ensures ResolveModel(None, registry).None?
    ensures ResolveModel(Some(""), registry).None?
  {
  }

  datatype Integration = GroupMessages | DirectMessages | FriendRequests

  /** `connect_signals`: an integration is connected exactly when its setting
      resolves to an installed model. */
  function ConnectedIntegrations(groupModel: Option<string>, dmModel: Option<string>, friendRequestModel: Option<string>,
                                 registry: set<(string, string)>): (r: set<Integration>)
    ensures GroupMessages in r <==> ResolveModel(groupModel, registry).Some?
    ensures DirectMessages in r <==> ResolveModel(dmModel, registry).Some?
    ensures FriendRequests in r <==> ResolveModel(friendRequestModel, registry).Some?
  {
    set i | i in {GroupMessages, DirectMessages, FriendRequests} &&
            ResolveModel(SettingOf(i, groupModel, dmModel, friendRequestModel), registry).Some?
  }

  /** The setting that names the model behind an integration. */
  function SettingOf(i: Integration, groupModel: Option<string>, dmModel: Option<string>,
                     friendRequestModel: Option<string>): Option<string> {
    match i
    case GroupMessages => groupModel
    case DirectMessages => dmModel
    case FriendRequests => friendRequestModel
  }

  // ---------------------------------------------------------------------------
  // _get_attr

  predicate HasAttr(obj: Json, name: string) { Get(obj, name).Some? }

  /** The value of the first attribute among `names` that `obj` has, else
      `default`. */
  function FirstAttr(obj: Json, names: seq<string>, default: Json): (r: Json)
    ensures (forall n :: n in names ==> !HasAttr(obj, n)) ==> r == default
    ensures r == default || exists n :: n in names && Get(obj, n) == Some(r)
  {
    if names == [] then default
    else if HasAttr(obj, names[0]) then Get(obj, names[0]).value
    else FirstAttr(obj, names[1..], default)
  }

  /** Probing follows the order of `names`: the first attribute present wins,
      whatever the later ones hold. */
  lemma {:induction false} FirstAttrPicksFirst(obj: Json, names: seq<string>, default: Json, i: nat)
    requires i < |names| && HasAttr(obj, names[i])
    requires forall j :: 0 <= j < i ==> !HasAttr(obj, names[j])
    ensures FirstAttr(obj, names, default) == Get(obj, names[i]).value
    decreases i
  {
    if i > 0 {
      assert !HasAttr(obj, names[0]);
      FirstAttrPicksFirst(obj, names[1..], default, i - 1);
    }
  }

  /** `_get_attr`: the first-match loop over the candidate names. */
  method GetAttr(obj: Json, names: seq<string>, default: Json) returns (r: Json)
    ensures r == FirstAttr(obj, names, default)
  {
    var k := 0;
    while k < |names|
      invariant 0 <= k <= |names|
      invariant FirstAttr(obj, names, default) == FirstAttr(obj, names[k..], default)
    {
      if HasAttr(obj, names[k]) {
        return Get(obj, names[k]).value;
      }
      assert names[k..][1..] == names[k + 1..];
      k := k + 1;
    }
    return default;
  }

  // ---------------------------------------------------------------------------
  // _extract_room_id, _extract_author_id, _extract_dm_recipient_id

  /** None of the attributes `names` is present on `obj`. */
  predicate NoneOf(obj: Json, names: seq<string>) {
    forall n :: n in names ==> !HasAttr(obj, n)
  }

  /** `x` is what `int()` makes of one of the attributes `names` of `obj`. */
  predicate IdFrom(obj: Json, names: seq<string>, x: int) {
    exists n :: n in names && HasAttr(obj, n) && PyInt(Get(obj, n).value) == Some(x)
  }

  /** `x` is what `int()` makes of the `id` or `pk` of one of the related
      objects `names` of `obj`. */
  predicate RelatedIdFrom(obj: Json, names: seq<string>, x: int) {
    exists n :: n in names && HasAttr(obj, n) && IdFrom(Get(obj, n).value, ["id", "pk"], x)
  }

  /** The common shape of the id extractors: a truthy id attribute converted
      with `int`, else the `id`/`pk` of the first related object present.
      A conversion that raises gives `None`. */
  function IdVia(inst: Json, idNames: seq<string>, objNames: seq<string>): (r: Option<int>)
    ensures PyTruthy(FirstAttr(inst, idNames, JNull)) ==> r == PyInt(FirstAttr(inst, idNames, JNull))
    ensures r.Some? ==> IdFrom(inst, idNames, r.value) || RelatedIdFrom(inst, objNames, r.value)
    ensures NoneOf(inst, idNames) && NoneOf(inst, objNames) ==> r.None?
  {
    var v := FirstAttr(inst, idNames, JNull);
    if PyTruthy(v) then PyInt(v)
    else
      var o := FirstAttr(inst, objNames, JNull);
      if !o.JNull? then PyInt(FirstAttr(o, ["id", "pk"], JNull)) else None
  }

  function ExtractRoomId(inst: Json): (r: Option<int>)
    ensures PyTruthy(FirstAttr(inst, ["room_id", "chat_id", "group_id"], JNull)) ==>
      r == PyInt(FirstAttr(inst, ["room_id", "chat_id", "group_id"], JNull))
    ensures r.Some? ==>
      IdFrom(inst, ["room_id", "chat_id", "group_id"], r.value) || RelatedIdFrom(inst, ["room", "chat", "group"], r.value)
    ensures NoneOf(inst, ["room_id", "chat_id", "group_id"]) && NoneOf(inst, ["room", "chat", "group"]) ==> r.None?
  {
    IdVia(inst, ["room_id", "chat_id", "group_id"], ["room", "chat", "group"])
  }

  function ExtractAuthorId(inst: Json): (r: Option<int>)
    ensures PyTruthy(FirstAttr(inst, ["author_id", "user_id", "sender_id"], JNull)) ==>
      r == PyInt(FirstAttr(inst, ["author_id", "user_id", "sender_id"], JNull))
    ensures r.Some? ==>
      IdFrom(inst, ["author_id", "user_id", "sender_id"], r.value) || RelatedIdFrom(inst, ["author", "user", "sender"], r.value)
    ensures NoneOf(inst, ["author_id", "user_id", "sender_id"]) && NoneOf(inst, ["author", "user", "sender"]) ==> r.None?
  {
    IdVia(inst, ["author_id", "user_id", "sender_id"], ["author", "user", "sender"])
  }

  /** A non-zero `room_id` is the room, whatever related objects the row has. */
  lemma RoomIdDirect(inst: Json, n: int)
    requires Get(inst, "room_id") == Some(JNum(n)) && n != 0
    ensures ExtractRoomId(inst) == Some(n)
  {
    FirstAttrPicksFirst(inst, ["room_id", "chat_id", "group_id"], JNull, 0);
  }

  /** A row whose `room_id` is unset falls back to the related room's id; a
      `room_id` of 0 does the same, being falsy. */
  lemma RoomIdViaObject(roomId: Json, n: int)
    requires roomId == JNull || roomId == JNum(0)
    ensures ExtractRoomId(JObj(map["room_id" := roomId, "room" := Obj1("id", JNum(n))])) == Some(n)
  {
    var inst := JObj(map["room_id" := roomId, "room" := Obj1("id", JNum(n))]);
    FirstAttrPicksFirst(inst, ["room_id", "chat_id", "group_id"], JNull, 0);
    FirstAttrPicksFirst(inst, ["room", "chat", "group"], JNull, 0);
    FirstAttrPicksFirst(Obj1("id", JNum(n)), ["id", "pk"], JNull, 0);
  }

  /** A row with none of the probed attributes has no room and no author. */
  lemma NoIdsFound()
    ensures ExtractRoomId(JObj(map[])) == None && ExtractAuthorId(JObj(map[])) == None
  {
  }

  /** `user_id` is probed after `author_id`: a row carrying both is
      attributed to `author_id`. */
  lemma AuthorIdBeforeUserId(a: int, u: int)
    requires a != 0
    ensures ExtractAuthorId(JObj(map["author_id" := JNum(a), "user_id" := JNum(u)])) == Some(a)
  {
    var inst := JObj(map["author_id" := JNum(a), "user_id" := JNum(u)]);
    FirstAttrPicksFirst(inst, ["author_id", "user_id", "sender_id"], JNull, 0);
  }

  /** The recipient of a thread given its two user ids: the one who is not
      the author, `u1` when the author is unknown. */
  function OtherOfPair(u1: int, u2: int, authorId: Option<int>): (r: int)
    ensures r == u1 || r == u2
    ensures authorId.Some? && authorId.value == u1 ==> r == u2
    ensures authorId.Some? && authorId.value == u2 && u1 != u2 ==> r == u1
    ensures authorId.None? ==> r == u1
  {
    if authorId.None? then u1
    else if authorId.value == u1 then u2 else u1
  }

  /** Both user ids of a thread converted with `int`, or `None` when either
      conversion raises. */
  function PairIds(v1: Json, v2: Json, authorId: Option<int>): (r: Option<int>)
    ensures r.Some? <==> PyInt(v1).Some? && PyInt(v2).Some?
    ensures r.Some? ==> r.value == OtherOfPair(PyInt(v1).value, PyInt(v2).value, authorId)
  {
    match (PyInt(v1), PyInt(v2))
    case (Some(a), Some(b)) => Some(OtherOfPair(a, b, authorId))
    case _ => None
  }

  const RecipientIdNames := ["recipient_id", "receiver_id", "to_user_id", "to_id"]
  const RecipientNames := ["recipient", "receiver", "to_user", "to"]
  const ThreadNames := ["thread", "dialog", "conversation", "chat"]
  const FirstUserIdNames := ["user1_id", "user_a_id", "first_user_id"]
  const SecondUserIdNames := ["user2_id", "user_b_id", "second_user_id"]
  const FirstUserNames := ["user1", "user_a", "first_user"]
  const SecondUserNames := ["user2", "user_b", "second_user"]

  /** `x` is one of the two users of the thread the row belongs to, read
      from the thread's user-id attributes or from its user objects. */
  predicate ThreadUserFrom(inst: Json, x: int) {
    exists t :: t in ThreadNames && HasAttr(inst, t) &&
      var thread := Get(inst, t).value;
      IdFrom(thread, FirstUserIdNames, x) || IdFrom(thread, SecondUserIdNames, x) ||
      RelatedIdFrom(thread, FirstUserNames, x) || RelatedIdFrom(thread, SecondUserNames, x)
  }

  /** `_extract_dm_recipient_id`: an explicit recipient id, else a recipient
      object's id, else the other user of the thread the row belongs to -
      first by its user-id attributes, then by its user objects. */
  function DmRecipientId(inst: Json, authorId: Option<int>): (r: Option<int>)
    ensures PyTruthy(FirstAttr(inst, RecipientIdNames, JNull)) ==> r == PyInt(FirstAttr(inst, RecipientIdNames, JNull))
    ensures r.Some? ==>
      IdFrom(inst, RecipientIdNames, r.value) || RelatedIdFrom(inst, RecipientNames, r.value) ||
      ThreadUserFrom(inst, r.value)
    ensures NoneOf(inst, RecipientIdNames) && NoneOf(inst, RecipientNames) && NoneOf(inst, ThreadNames) ==> r.None?
  {
    var rid := FirstAttr(inst, RecipientIdNames, JNull);
    if PyTruthy(rid) then PyInt(rid)
    else
      var rec := FirstAttr(inst, RecipientNames, JNull);
      if !rec.JNull? then PyInt(FirstAttr(rec, ["id", "pk"], JNull))
      else
        var thread := FirstAttr(inst, ThreadNames, JNull);
        if thread.JNull? then None
        else
          var u1 := FirstAttr(thread, FirstUserIdNames, JNull);
          var u2 := FirstAttr(thread, SecondUserIdNames, JNull);
          if PyTruthy(u1) && PyTruthy(u2) then PairIds(u1, u2, authorId)
          else
            var u1o := FirstAttr(thread, FirstUserNames, JNull);
            var u2o := FirstAttr(thread, SecondUserNames, JNull);
            if !u1o.JNull? && !u2o.JNull? then
              PairIds(FirstAttr(u1o, ["id", "pk"], JNull), FirstAttr(u2o, ["id", "pk"], JNull), authorId)
            else None
  }

  /** An explicit recipient id wins over everything else on the row. */
  lemma DmRecipientExplicit(inst: Json, n: int, authorId: Option<int>)
    requires Get(inst, "recipient_id") == Some(JNum(n)) && n != 0
    ensures DmRecipientId(inst, authorId) == Some(n)
  {
    FirstAttrPicksFirst(inst, ["recipient_id", "receiver_id", "to_user_id", "to_id"], JNull, 0);
  }

  /** A row holding only its thread finds neither recipient attribute but
      finds the thread. */
  lemma ThreadOnlyRow(thread: Json)
    ensures FirstAttr(Obj1("thread", thread), ["recipient_id", "receiver_id", "to_user_id", "to_id"], JNull) == JNull
    ensures FirstAttr(Obj1("thread", thread), ["recipient", "receiver", "to_user", "to"], JNull) == JNull
    ensures FirstAttr(Obj1("thread", thread), ["thread", "dialog", "conversation", "chat"], JNull) == thread
  {
    FirstAttrPicksFirst(Obj1("thread", thread), ["thread", "dialog", "conversation", "chat"], JNull, 0);
  }

  /** A message in a two-user thread goes to the participant who did not
      write it, and to `user1` when the author is unknown. */
  lemma DmRecipientFromThread(a: nat, b: nat, authorId: Option<int>)
    requires a != 0 && b != 0 && a != b
    requires authorId.Some? ==> authorId.value == a || authorId.value == b
    ensures var thread := JObj(map["user1_id" := JNum(a), "user2_id" := JNum(b)]);
            var r := DmRecipientId(Obj1("thread", thread), authorId);
            r.Some? && (r.value == a || r.value == b) &&
            (authorId.Some? ==> r.value != authorId.value) &&
            (authorId.None? ==> r.value == a)
  {
    var thread := JObj(map["user1_id" := JNum(a), "user2_id" := JNum(b)]);
    ThreadOnlyRow(thread);
    FirstAttrPicksFirst(thread, ["user1_id", "user_a_id", "first_user_id"], JNull, 0);
    FirstAttrPicksFirst(thread, ["user2_id", "user_b_id", "second_user_id"], JNull, 0);
    assert PairIds(JNum(a), JNum(b), authorId) == Some(OtherOfPair(a, b, authorId));
  }

  // ---------------------------------------------------------------------------
  // The preview and the three handlers

  const Ellipsis: char := '\U{2026}'

  /** The stripped content, cut to 77 characters and an ellipsis when longer
      than 80. */
  function Preview(content: string): (r: string)
    ensures |r| <= 80
    ensures |Trim(content)| <= 80 ==> r == Trim(content)
    ensures |Trim(content)| > 80 ==> r == Trim(content)[..77] + [Ellipsis] && |r| == 78
  {
    var p := Trim(content);
    if |p| > 80 then p[..77] + [Ellipsis] else p
  }

  /** A preview is its own preview. */
  lemma PreviewIdempotent(content: string)
    ensures Preview(Preview(content)) == Preview(content)
  {
    var p := Trim(content);
    var r := Preview(content);
    if |p| > 80 {
      assert !IsSpace(p[0]) by {
        TrimIdempotent(content);
        TrimStartKeepsNoSpace(p);
      }
      assert r[0] == p[0];
      assert r[|r| - 1] == Ellipsis;
      TrimNoop(r);
    } else {
      TrimIdempotent(content);
    }
  }

  /** A non-empty trimmed string starts with a non-space. */
  lemma TrimStartKeepsNoSpace(p: string)
    requires Trim(p) == p && p != []
    ensures !IsSpace(p[0])
  {
    TrimHeadNotSpace(p);
  }

  lemma TrimHeadNotSpace(s: string)
    requires Trim(s) != []
    ensures !IsSpace(Trim(s)[0])
  {
    TrimStartHead(TrimEnd(s));
  }

  lemma {:induction false} TrimStartHead(s: string)
    requires TrimStart(s) != []
    ensures !IsSpace(TrimStart(s)[0])
    decreases |s|
  {
    if s != [] && IsSpace(s[0]) {
      TrimStartHead(s[1..]);
    }
  }

  /** The content probed as `content`, `text` or `body`; a falsy value is the
      empty string, and a truthy non-string raises at `strip()`. */
  function ContentOf(inst: Json): (r: Option<string>)
    ensures var c := FirstAttr(inst, ["content", "text", "body"], JStr(""));
      (!PyTruthy(c) ==> r == Some("")) &&
      (PyTruthy(c) && c.JStr? ==> r == Some(c.s)) &&
      (PyTruthy(c) && !c.JStr? ==> r.None?)
  {
    var c := FirstAttr(inst, ["content", "text", "body"], JStr(""));
    if !PyTruthy(c) then Some("")
    else if c.JStr? then Some(c.s)
    else None
  }

  function OptIntJson(o: Option<int>): Json { if o.Some? then JNum(o.value) else JNull }

  /** A call into one of the notification sinks. */
  datatype SinkCall =
    | NotifyRoomSubscribers(roomId: int, typ: string, payload: map<string, Json>, excludeUserId: Option<int>,
                            kind: string, persist: bool)
    | CreateAndNotify(userId: int, typ: string, payload: map<string, Json>, kind: string, persist: bool)

  /** `Raises` is an exception the handler does not catch; a sink's own
      exceptions are caught and logged, which is not modelled. */
  datatype HandlerOutcome = Skipped | Calls(call: SinkCall) | Raises

  /** `_on_group_message_created`. */
  function OnGroupMessageCreated(inst: Json, created: bool): (r: HandlerOutcome)
    ensures !created || ExtractRoomId(inst).None? ==> r == Skipped
    ensures r.Calls? <==> created && ExtractRoomId(inst).Some? && ContentOf(inst).Some?
    ensures r.Calls? ==>
      r.call == NotifyRoomSubscribers(ExtractRoomId(inst).value, "group.new",
                                      map["room_id" := JNum(ExtractRoomId(inst).value),
                                          "preview" := JStr(Preview(ContentOf(inst).value)),
                                          "by" := OptIntJson(ExtractAuthorId(inst))],
                                      ExtractAuthorId(inst), "group", true)
  {
    if !created then Skipped
    else
      var roomId := ExtractRoomId(inst);
      var authorId := ExtractAuthorId(inst);
      if roomId.None? then Skipped
      else match ContentOf(inst)
        case None => Raises
        case Some(c) =>
          Calls(NotifyRoomSubscribers(roomId.value, "group.new",
                                      map["room_id" := JNum(roomId.value), "preview" := JStr(Preview(c)),
                                          "by" := OptIntJson(authorId)],
                                      authorId, "group", true))
  }

  /** `_on_dm_message_created`. */
  function OnDmMessageCreated(inst: Json, created: bool): (r: HandlerOutcome)
    ensures !created || DmRecipientId(inst, ExtractAuthorId(inst)).None? ==> r == Skipped
    ensures r.Calls? <==> created && DmRecipientId(inst, ExtractAuthorId(inst)).Some? && ContentOf(inst).Some?
    ensures r.Calls? ==>
      r.call == CreateAndNotify(DmRecipientId(inst, ExtractAuthorId(inst)).value, "dm.badge",
                                map["preview" := JStr(Preview(ContentOf(inst).value)),
                                    "by" := OptIntJson(ExtractAuthorId(inst))],
                                "message", true)
  {
    if !created then Skipped
    else
      var authorId := ExtractAuthorId(inst);
      var recipientId := DmRecipientId(inst, authorId);
      if recipientId.None? then Skipped
      else match ContentOf(inst)
        case None => Raises
        case Some(c) =>
          Calls(CreateAndNotify(recipientId.value, "dm.badge",
                                map["preview" := JStr(Preview(c)), "by" := OptIntJson(authorId)],
                                "message", true))
  }

  /** The recipient id value of a friend request before conversion: an id
      attribute, else the id of a recipient object. */
  const FriendToIdNames: seq<string> := ["to_user_id", "receiver_id", "recipient_id", "to_id"]
  const FriendToNames: seq<string> := ["to_user", "receiver", "recipient", "to"]

  function FriendRequestTarget(inst: Json): (r: Json)
    ensures PyTruthy(FirstAttr(inst, FriendToIdNames, JNull)) ==> r == FirstAttr(inst, FriendToIdNames, JNull)
    ensures r != JNull ==>
      (exists n :: n in FriendToIdNames && Get(inst, n) == Some(r)) ||
      (exists n, k :: n in FriendToNames && HasAttr(inst, n) && k in ["id", "pk"] && Get(Get(inst, n).value, k) == Some(r))
    ensures NoneOf(inst, FriendToIdNames) && NoneOf(inst, FriendToNames) ==> r == JNull
  {
    var toId := FirstAttr(inst, FriendToIdNames, JNull);
    if PyTruthy(toId) then toId
    else
      var to := FirstAttr(inst, FriendToNames, JNull);
      if !to.JNull? then FirstAttr(to, ["id", "pk"], JNull) else JNull
  }

  /** `_on_friend_request_created`: nothing without a truthy recipient id or
      when it does not convert; the sender id goes out unconverted. */
  function OnFriendRequestCreated(inst: Json, created: bool): (r: HandlerOutcome)
    ensures r.Raises? == false
    ensures r.Calls? <==> created && PyTruthy(FriendRequestTarget(inst)) && PyInt(FriendRequestTarget(inst)).Some?
    ensures r.Calls? ==>
      r.call == CreateAndNotify(PyInt(FriendRequestTarget(inst)).value, "friend.request",
                                map["by" := FirstAttr(inst, ["from_user_id", "sender_id", "author_id", "user_id"], JNull)],
                                "generic", true)
  {
    if !created then Skipped
    else
      var toId := FriendRequestTarget(inst);
      if !PyTruthy(toId) then Skipped
      else
        var fromId := FirstAttr(inst, ["from_user_id", "sender_id", "author_id", "user_id"], JNull);
        match PyInt(toId)
        case None => Skipped
        case Some(n) => Calls(CreateAndNotify(n, "friend.request", map["by" := fromId], "generic", true))
  }

  /** A friend-request row with `to_user_id` and `from_user_id` notifies the
      addressee, naming the sender. */
  lemma FriendRequestNotifiesAddressee(to: nat, from: nat)
    requires to != 0
    ensures var inst := JObj(map["to_user_id" := JNum(to), "from_user_id" := JNum(from)]);
            OnFriendRequestCreated(inst, true) ==
              Calls(CreateAndNotify(to, "friend.request", map["by" := JNum(from)], "generic", true))
  {
    var inst := JObj(map["to_user_id" := JNum(to), "from_user_id" := JNum(from)]);
    FirstAttrPicksFirst(inst, ["to_user_id", "receiver_id", "recipient_id", "to_id"], JNull, 0);
    FirstAttrPicksFirst(inst, ["from_user_id", "sender_id", "author_id", "user_id"], JNull, 0);
  }

  /** An update (not a creation) never notifies. */
  lemma UpdatesNeverNotify(inst: Json)
    ensures OnGroupMessageCreated(inst, false) == Skipped
    ensures OnDmMessageCreated(inst, false) == Skipped
    ensures OnFriendRequestCreated(inst, false) == Skipped
  {
  }
}
