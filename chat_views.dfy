/** The REST handlers that write the store (backend/chat/views.py), over the
    message table, the chat and participant tables, the social graph, the
    user table and the channel layer.  Their decisions are the functions of
    module ChatViewRules. */
module ChatViews {
  import opened Wrappers
  import opened Sorting
  import opened Text
  import opened Json
  import opened Users
  import opened ChatModels
  import opened PrivateChats
  import opened SocialGraph
  import opened ChatSerializers
  import opened Channels
  import opened ChatViewRules

  /** A posted `expires_at`: absent, `null`, a time the date parser reads, or
      text it cannot read. */
  datatype DateInput = NoDate | NullDate | DateAt(time: int) | BadDate

  /** What a client may send when posting a message: the text and the
      writable serializer fields.  `replyTo` is the posted message id, and
      `meta` is `None` when the key is absent. */
  datatype MessageInput = MessageInput(
    content: Option<string>,
    displayName: string,
    attachmentType: string,
    attachmentName: string,
    upload: Option<Upload>,
    replyTo: Option<string>,
    expiresAt: DateInput,
    meta: Option<Json>)

  /** `max_length` of `display_name` and of `attachment_name`. */
  const DisplayNameMaxLength := 150
  const AttachmentNameMaxLength := 255

  /** `attachment_type` is a choice field: blank, "image" or "file". */
  predicate ValidAttachmentType(t: string) { t in {"", "image", "file"} }

  /** `reply_to` is a primary-key field over all messages: the id must be a
      UUID and name a stored message. */
  predicate ValidReplyTo(replyTo: Option<string>, known: set<string>) {
    replyTo.None? || (IsUuidText(replyTo.value) && replyTo.value in known)
  }

  /** The serializer's checks on a posted message, field by field and then
      `validate`: a choice of attachment type, the two length bounds (on the
      trimmed text, as the serializer's `CharField` trims), a `reply_to`
      naming a stored message, a readable `expires_at`, a non-null `meta`,
      and some text or a file.  `known` holds the stored message ids. */
  function ValidateInput(input: MessageInput, known: set<string>): (r: Result<(), ValidationError>)
    ensures r.Ok? <==>
      ValidAttachmentType(input.attachmentType) &&
      |Trim(input.displayName)| <= DisplayNameMaxLength &&
      |Trim(input.attachmentName)| <= AttachmentNameMaxLength &&
      ValidReplyTo(input.replyTo, known) && !input.expiresAt.BadDate? && input.meta != Some(JNull) &&
      ValidateMessage(input.content, input.upload.Some?).Ok?
  {
    if !ValidAttachmentType(input.attachmentType) then Err(ValidationError("attachment_type"))
    else if |Trim(input.displayName)| > DisplayNameMaxLength then Err(ValidationError("display_name"))
    else if |Trim(input.attachmentName)| > AttachmentNameMaxLength then Err(ValidationError("attachment_name"))
    else if !ValidReplyTo(input.replyTo, known) then Err(ValidationError("reply_to"))
    else if input.expiresAt.BadDate? then Err(ValidationError("expires_at"))
    else if input.meta == Some(JNull) then Err(ValidationError("meta"))
    else ValidateMessage(input.content, input.upload.Some?)
  }

  /** The stored `expires_at` of a posted one. */
  function PostedExpiry(d: DateInput): (r: Option<int>)
    ensures r.Some? <==> d.DateAt?
    ensures d.DateAt? ==> r.value == d.time
  {
    if d.DateAt? then Some(d.time) else None
  }

  /** The `meta` of a room message: `{"mime": <lower-cased type>}` when the
      upload has a content type, else `{}`. */
  function MetaFor(mime: Option<string>): (r: Json)
    ensures mime.None? ==> r == EmptyMeta
    ensures mime.Some? ==> Get(r, "mime") == Some(JStr(mime.value)) && r.JObj? && r.fields.Keys == {"mime"}
  {
    if mime.Some? then JObj(map["mime" := JStr(mime.value)]) else EmptyMeta
  }

  /** Messages posted by the handlers; `id` is the fresh UUID.  A new message
      is neither edited nor deleted, and its file is stored under
      `UploadTo`. */
  function NewMessage(id: string, room: nat, author: Option<nat>, displayName: string, content: string,
                      upload: Option<Upload>, attachmentType: string, attachmentName: string,
                      replyTo: Option<string>, expiresAt: Option<int>, meta: Json, now: int): (m: Message)
    ensures m.id == id && m.room == room && m.author == author && m.createdAt == now
    ensures m.displayName == displayName && m.content == content
    ensures m.attachmentType == attachmentType && m.attachmentName == attachmentName
    ensures m.replyTo == replyTo && m.expiresAt == expiresAt && m.meta == meta
    ensures m.deletedAt.None? && m.editedAt.None?
    ensures m.attachment.Some? <==> upload.Some?
    ensures upload.Some? ==> m.attachment == Some(UploadTo(room, Some(id), id, upload.value.name))
  {
    Message(id, room, author, displayName, content,
            if upload.Some? then Some(UploadTo(room, Some(id), id, upload.value.name)) else None,
            attachmentType, attachmentName, replyTo, expiresAt, now, None, None, meta)
  }

  /** The `chat_<id>` group name. */
  function ChatGroup(room: nat): string { "chat_" + NatToString(room) }

  /** With rows stored as ascending pairs, the friends list holds exactly the
      users `are_friends` accepts. */
  lemma FriendsListMatchesAreFriends(rows: seq<(nat, nat)>, me: nat, x: nat)
    requires forall p :: p in rows ==> p.0 <= p.1
    ensures x in FriendsOf(rows, me) <==> AreFriendsIn(rows, me, x)
  {
    FriendsOfIff(rows, me, x);
  }

  /** The ids below `n` that satisfy `p`, found by walking them in ascending
      order. */
  method IdsBelow(n: nat, p: nat -> bool) returns (ids: seq<nat>)
    ensures forall x: nat :: x in ids <==> x < n && p(x)
    ensures forall i, j :: 0 <= i < j < |ids| ==> ids[i] < ids[j]
  {
    ids := [];
    var id := 0;
    while id < n
      invariant 0 <= id <= n
      invariant forall x: nat :: x in ids <==> x < id && p(x)
      invariant forall i, j :: 0 <= i < j < |ids| ==> ids[i] < ids[j]
      invariant forall i :: 0 <= i < |ids| ==> ids[i] < id
    {
      if p(id) {
        ids := ids + [id];
      }
      id := id + 1;
    }
  }

  class ChatApi {
    const messages: MessageTable
    const dms: DmStore
    const social: SocialGraph
    const users: UserTable
    const layer: ChannelLayer
    /** `settings.FRIENDS_REQUIRED_FOR_DM` */
    const friendsRequiredForDm: bool

    constructor (messages: MessageTable, dms: DmStore, social: SocialGraph, users: UserTable,
                 layer: ChannelLayer, friendsRequiredForDm: bool)
      ensures this.messages == messages && this.dms == dms && this.social == social
      ensures this.users == users && this.layer == layer
      ensures this.friendsRequiredForDm == friendsRequiredForDm
    {
      this.messages := messages;
      this.dms := dms;
      this.social := social;
      this.users := users;
      this.layer := layer;
      this.friendsRequiredForDm := friendsRequiredForDm;
    }

    ghost predicate Valid()
      reads messages, dms, social, users
    {
      messages.Valid() && dms.Valid() && social.Valid() && users.Valid()
    }

    /** `MessageViewSet.create`: `IsAuthenticatedOrReadOnly` answers an
        anonymous POST with 401 before anything else; then `perform_create`
        behind the serializer: a message in an existing room, by the
        signed-in user, named by `DisplayNameFor`, with the attachment columns and `meta` taken from
        the upload, and the posted `reply_to`, `expires_at` and trimmed
        text kept.  A missing room cannot be stored (500); an unknown one is
        a validation error (400). */
    method CreateRoomMessage(room: Option<nat>, input: MessageInput, user: Option<User>, freshId: string, now: int)
      returns (status: nat, msg: Option<Message>)
      requires Valid() && freshId !in messages.rows
      modifies messages
      ensures Valid()
      ensures status in {CREATED, BAD_REQUEST, SERVER_ERROR, UNAUTHORIZED}
      ensures status == UNAUTHORIZED <==> user.None?
      ensures status == BAD_REQUEST <==>
        user.Some? &&
        (ValidateInput(input, old(messages.rows).Keys).Err? || (room.Some? && room.value !in dms.chats))
      ensures status == SERVER_ERROR <==>
        user.Some? && ValidateInput(input, old(messages.rows).Keys).Ok? && room.None?
      ensures status != CREATED ==> msg.None? && messages.rows == old(messages.rows)
      ensures status == CREATED ==>
        var f := AttachmentFieldsFor(input.upload);
        msg == Some(NewMessage(freshId, room.value, Some(user.value.id),
                               DisplayNameFor(user), Trim(input.content.GetOr("")), input.upload,
                               f.attachmentType, f.attachmentName, input.replyTo,
                               PostedExpiry(input.expiresAt), MetaFor(f.mime), now)) &&
        messages.rows == old(messages.rows)[freshId := msg.value]
      ensures messages.hidden == old(messages.hidden)
    {
      if user.None? {
        return UNAUTHORIZED, None;
      }
      if ValidateInput(input, messages.rows.Keys).Err? || (room.Some? && room.value !in dms.chats) {
        return BAD_REQUEST, None;
      }
      if room.None? {
        return SERVER_ERROR, None;
      }
      var f := AttachmentFieldsFor(input.upload);
      var m := NewMessage(freshId, room.value, Some(user.value.id),
                          DisplayNameFor(user), Trim(input.content.GetOr("")), input.upload,
                          f.attachmentType, f.attachmentName, input.replyTo,
                          PostedExpiry(input.expiresAt), MetaFor(f.mime), now);
      messages.Insert(m);
      return CREATED, Some(m);
    }

    /** `MessageViewSet.destroy`.  `IsAuthenticatedOrReadOnly` answers an
        anonymous DELETE with 401 before the view runs.  A `?room=` that
        `int()` rejects is a 500;
        otherwise the message is looked up through the list's queryset (so a
        soft-deleted or hidden one is 404); then the checks of
        `DestroyStatus`; on success the row is removed, every chat whose
        `last_message` it was loses that reference, and one `chat_delete` event
        with the id goes to the room's group. */
    method Destroy(id: string, room: Option<string>, forAll: Option<string>, user: Option<User>)
      returns (status: nat)
      requires Valid()
      modifies messages, dms, layer
      ensures Valid()
      ensures user.None? ==> status == UNAUTHORIZED
      ensures user.Some? && RoomFilter(room).None? ==> status == SERVER_ERROR
      ensures user.Some? && RoomFilter(room).Some? ==>
        var viewer := Some(user.value.id);
        var found := id in old(messages.rows) && Listed(old(messages.rows)[id], old(messages.hidden), RoomFilter(room).value, viewer);
        (!found ==> status == NOT_FOUND) &&
        (found ==> status == DestroyStatus(old(messages.rows)[id], forAll, user))
      ensures status == NO_CONTENT ==>
        messages.rows == WithoutMessage(old(messages.rows), id) &&
        messages.hidden == set h | h in old(messages.hidden) && h.1 != id &&
        layer.sent == old(layer.sent) + [Sent(ChatGroup(old(messages.rows)[id].room),
                                              JObj(map["type" := JStr("chat_delete"), "id" := JStr(id)]))]
      ensures status == NO_CONTENT ==>
        dms.chats.Keys == old(dms.chats).Keys &&
        (forall c :: c in old(dms.chats) ==>
           dms.chats[c] == if old(dms.chats)[c].lastMessage == Some(id)
                           then old(dms.chats)[c].(lastMessage := None) else old(dms.chats)[c])
      ensures status != NO_CONTENT ==>
        messages.rows == old(messages.rows) && messages.hidden == old(messages.hidden) &&
        layer.sent == old(layer.sent) && dms.chats == old(dms.chats)
      ensures layer.groups == old(layer.groups) && dms.links == old(dms.links)
    {
      if user.None? {
        return UNAUTHORIZED;
      }
      var viewer := Some(user.value.id);
      var filter := RoomFilter(room);
      if filter.None? {
        return SERVER_ERROR;
      }
      if !(id in messages.rows && Listed(messages.rows[id], messages.hidden, filter.value, viewer)) {
        return NOT_FOUND;
      }
      var m := messages.rows[id];
      status := DestroyStatus(m, forAll, user);
      if status == NO_CONTENT {
        messages.HardDelete(id);
        dms.ClearLastMessage(id);
        layer.GroupSend(ChatGroup(m.room), JObj(map["type" := JStr("chat_delete"), "id" := JStr(id)]));
      }
    }

    /** `MessageViewSet.hide`: 401 for an anonymous user; an id that is not a
        UUID makes the lookup raise, a 500; 404 for an unknown message
        (deleted or not); else the `(user, message)` mark exists afterwards,
        whether or not it did before. */
    method Hide(id: string, user: Option<User>) returns (status: nat)
      requires Valid()
      modifies messages
      ensures Valid()
      ensures user.None? ==> status == UNAUTHORIZED
      ensures user.Some? && !IsUuidText(id) ==> status == SERVER_ERROR
      ensures user.Some? && IsUuidText(id) && id !in messages.rows ==> status == NOT_FOUND
      ensures user.Some? && IsUuidText(id) && id in messages.rows ==> status == OK
      ensures status == OK ==> messages.hidden == old(messages.hidden) + {(user.value.id, id)}
      ensures status != OK ==> messages.hidden == old(messages.hidden)
      ensures messages.rows == old(messages.rows)
    {
      if user.None? {
        return UNAUTHORIZED;
      }
      if !IsUuidText(id) {
        return SERVER_ERROR;
      }
      if id !in messages.rows {
        return NOT_FOUND;
      }
      messages.hidden := messages.hidden + {(user.value.id, id)};
      return OK;
    }

    /** `ConversationsViewSet.create`: the serializer refuses the requester's
        own id (400), an unknown user is 404, a block in either direction is
        403, and so is a missing friendship when friends are required;
        otherwise the DM chat is fetched or created (201 when created, 200
        when it existed).  A failed insert surfaces as 500. */
    method ConversationCreate(me: User, otherId: nat) returns (status: nat, chat: Option<nat>)
      requires Valid()
      modifies dms
      ensures Valid()
      ensures me.id == otherId ==> status == BAD_REQUEST
      ensures me.id != otherId && otherId !in users.users ==> status == NOT_FOUND
      ensures me.id != otherId && otherId in users.users && social.BlockExists(me.id, otherId) ==>
        status == FORBIDDEN
      ensures (me.id != otherId && otherId in users.users && !social.BlockExists(me.id, otherId) &&
               friendsRequiredForDm && !social.AreFriends(me.id, otherId)) ==> status == FORBIDDEN
      ensures status !in {OK, CREATED} ==> chat.None? && dms.chats == old(dms.chats) && dms.links == old(dms.links)
      ensures status == OK <==> chat.Some? && old(HasPrivate(dms.chats, PrivateKey(me.id, otherId)))
      ensures status == CREATED ==>
        chat.Some? && chat.value !in old(dms.chats) && ParticipantsOf(dms.links, chat.value) == {me.id, otherId}
      ensures chat.Some? ==> chat.value in dms.chats && IsPrivateWith(dms.chats[chat.value], PrivateKey(me.id, otherId))
      ensures status == OK ==> dms.chats == old(dms.chats) && dms.links == old(dms.links)
    {
      if ValidateOtherUserId(me.id, otherId).Err? {
        return BAD_REQUEST, None;
      }
      if otherId !in users.users {
        return NOT_FOUND, None;
      }
      if social.BlockExists(me.id, otherId) {
        return FORBIDDEN, None;
      }
      if friendsRequiredForDm && !social.AreFriends(me.id, otherId) {
        return FORBIDDEN, None;
      }
      var r := dms.GetOrCreatePrivateChat(me.id, otherId);
      if r.Err? {
        return SERVER_ERROR, None;
      }
      return if r.value.1 then CREATED else OK, Some(r.value.0);
    }

    /** Whether the conversations queryset holds chat `id` for `me`: a private
        chat with `me` among its participants. */
    predicate IsConversationOf(id: nat, me: nat)
      reads dms
    {
      id in dms.chats && dms.chats[id].kind == Private && (id, me) in dms.links
    }

    /** `ConversationsViewSet.partial_update`: 404 outside the requester's
        conversations; a timer `int()` refuses is a server error with nothing
        saved; otherwise the chat takes the settings `ApplyChatSettings`
        gives. */
    method PartialUpdate(id: nat, me: nat, isSecret: Option<Json>, timer: Option<Json>) returns (status: nat)
      requires Valid()
      modifies dms
      ensures Valid()
      ensures !old(IsConversationOf(id, me)) ==> status == NOT_FOUND
      ensures old(IsConversationOf(id, me)) ==>
        match ApplyChatSettings(old(dms.chats)[id], isSecret, timer)
        case Ok(c) => status == OK && dms.chats == old(dms.chats)[id := c]
        case Err(_) => status == SERVER_ERROR
      ensures status != OK ==> dms.chats == old(dms.chats)
      ensures dms.links == old(dms.links)
    {
      if !IsConversationOf(id, me) {
        return NOT_FOUND;
      }
      var r := ApplyChatSettings(dms.chats[id], isSecret, timer);
      if r.Err? {
        return SERVER_ERROR;
      }
      dms.chats := dms.chats[id := r.value];
      return OK;
    }

    /** `ConversationMessagesView.create`, after the permission checks (an
        unknown or non-private chat is 404, a non-participant 403): the
        serializer's checks (400); then the message is stored with the chat
        as room and the requester as author, its expiry set on a secret chat
        with a timer, the chat's last message updated, every other
        participant's unread counter raised, and the serialised message sent
        once to `chat_<id>`. */
    method ConversationMessagesCreate(id: nat, me: User, input: MessageInput, freshId: string, now: int)
      returns (status: nat, msg: Option<Message>)
      requires Valid() && freshId !in messages.rows
      modifies messages, dms, layer
      ensures Valid()
      ensures !(id in old(dms.chats) && old(dms.chats)[id].kind == Private) ==> status == NOT_FOUND
      ensures id in old(dms.chats) && old(dms.chats)[id].kind == Private && (id, me.id) !in old(dms.links) ==>
        status == FORBIDDEN
      ensures old(IsConversationOf(id, me.id)) && ValidateInput(input, old(messages.rows).Keys).Err? ==>
        status == BAD_REQUEST
      ensures old(IsConversationOf(id, me.id)) && ValidateInput(input, old(messages.rows).Keys).Ok? ==>
        status == CREATED
      ensures status != CREATED ==>
        msg.None? && messages.rows == old(messages.rows) && dms.chats == old(dms.chats) &&
        dms.links == old(dms.links) && layer.sent == old(layer.sent)
      ensures status == CREATED ==>
        old(IsConversationOf(id, me.id)) && ValidateInput(input, old(messages.rows).Keys).Ok? && msg.Some? &&
        var m := msg.value;
        m == NewMessage(freshId, id, Some(me.id), Trim(input.displayName), Trim(input.content.GetOr("")),
                        input.upload, input.attachmentType, Trim(input.attachmentName), input.replyTo,
                        MaybeSetExpiresAt(old(dms.chats)[id], PostedExpiry(input.expiresAt), now),
                        input.meta.GetOr(EmptyMeta), now) &&
        messages.rows == old(messages.rows)[freshId := m] &&
        dms.chats == old(dms.chats)[id := old(dms.chats)[id].(lastMessage := Some(freshId))] &&
        dms.links == IncUnread(old(dms.links), id, me.id) &&
        layer.sent == old(layer.sent) +
          [Sent(ChatGroup(id), JObj(map["type" := JStr("chat_message"),
                                        "message" := MessageJson(m, Some(me), SignedIn(me.id))]))]
      ensures messages.hidden == old(messages.hidden) && layer.groups == old(layer.groups)
    {
      if !(id in dms.chats && dms.chats[id].kind == Private) {
        return NOT_FOUND, None;
      }
      if (id, me.id) !in dms.links {
        return FORBIDDEN, None;
      }
      if ValidateInput(input, messages.rows.Keys).Err? {
        return BAD_REQUEST, None;
      }
      var chat := dms.chats[id];
      var m := NewMessage(freshId, id, Some(me.id), Trim(input.displayName), Trim(input.content.GetOr("")),
                          input.upload, input.attachmentType, Trim(input.attachmentName), input.replyTo,
                          PostedExpiry(input.expiresAt), input.meta.GetOr(EmptyMeta), now);
      m := m.(expiresAt := MaybeSetExpiresAt(chat, m.expiresAt, now));
      StoreDirectMessage(me, m);
      return CREATED, Some(m);
    }

    /** The writes of a successful direct-message post: the row, the chat's
        last message, the other participants' counters, one broadcast. */
    method StoreDirectMessage(me: User, m: Message)
      requires Valid() && m.id !in messages.rows && m.room in dms.chats
      modifies messages, dms, layer
      ensures Valid()
      ensures messages.rows == old(messages.rows)[m.id := m]
      ensures dms.chats == old(dms.chats)[m.room := old(dms.chats)[m.room].(lastMessage := Some(m.id))]
      ensures dms.links == IncUnread(old(dms.links), m.room, me.id)
      ensures layer.sent == old(layer.sent) +
        [Sent(ChatGroup(m.room), JObj(map["type" := JStr("chat_message"),
                                          "message" := MessageJson(m, Some(me), SignedIn(me.id))]))]
      ensures messages.hidden == old(messages.hidden) && layer.groups == old(layer.groups)
    {
      messages.Insert(m);
      dms.SetLastMessage(m.room, m.id);
      dms.IncUnreadForOthers(m.room, me.id);
      layer.GroupSend(ChatGroup(m.room), JObj(map["type" := JStr("chat_message"),
                                                  "message" := MessageJson(m, Some(me), SignedIn(me.id))]));
    }

    /** `ConversationMessagesView.list`: the chat's visible messages oldest
        first (`rows` are the stored messages, in any order), after which the requester's counter in that chat is zero. */
    method ConversationMessagesList(id: nat, me: nat, rows: seq<Message>, now: int)
      returns (status: nat, listed: seq<Message>)
      requires Valid()
      requires forall m :: m in rows <==> m in messages.rows.Values
      modifies dms
      ensures Valid()
      ensures !(id in old(dms.chats) && old(dms.chats)[id].kind == Private) ==> status == NOT_FOUND
      ensures id in old(dms.chats) && old(dms.chats)[id].kind == Private && (id, me) !in old(dms.links) ==>
        status == FORBIDDEN
      ensures status == OK <==> old(IsConversationOf(id, me))
      ensures status == OK ==> listed == ConversationQuery(rows, id) && dms.links == MarkRead(old(dms.links), id, me, now)
      ensures status != OK ==> listed == [] && dms.links == old(dms.links)
      ensures dms.chats == old(dms.chats)
    {
      if !(id in dms.chats && dms.chats[id].kind == Private) {
        return NOT_FOUND, [];
      }
      if (id, me) !in dms.links {
        return FORBIDDEN, [];
      }
      listed := ConversationQuery(rows, id);
      dms.MarkConversationRead(id, me, now);
      status := OK;
    }

    /** `FriendRequestViewSet.create`: own id 400, unknown user 404, a block
        403, already friends 200 with nothing sent, else `send_friend_request`
        and 201. */
    method FriendRequestCreate(me: nat, toId: nat, now: int) returns (status: nat)
      requires Valid()
      modifies social
      ensures Valid()
      ensures me == toId ==> status == BAD_REQUEST
      ensures me != toId && toId !in users.users ==> status == NOT_FOUND
      ensures me != toId && toId in users.users && old(social.BlockExists(me, toId)) ==> status == FORBIDDEN
      ensures (me != toId && toId in users.users && !old(social.BlockExists(me, toId)) &&
               old(social.AreFriends(me, toId))) ==> status == OK
      ensures status == CREATED <==>
        me != toId && toId in users.users && !old(social.BlockExists(me, toId)) && !old(social.AreFriends(me, toId))
      ensures status == CREATED ==> (me, toId) in social.requests && social.requests[(me, toId)].status == Pending
      ensures status != CREATED ==> social.requests == old(social.requests)
      ensures social.friendships == old(social.friendships) && social.blocks == old(social.blocks)
    {
      if ValidateToUserId(me, toId).Err? {
        return BAD_REQUEST;
      }
      if toId !in users.users {
        return NOT_FOUND;
      }
      if social.BlockExists(me, toId) {
        return FORBIDDEN;
      }
      if social.AreFriends(me, toId) {
        return OK;
      }
      var r := social.SendFriendRequest(me, toId, now);
      return CREATED;
    }

    /** `FriendRequestViewSet.accept`: 404 for an unknown request, 403 unless
        the requester is its recipient. */
    method FriendRequestAccept(key: (nat, nat), me: nat, now: int) returns (status: nat)
      requires Valid()
      modifies social
      ensures Valid()
      ensures key !in old(social.requests) ==> status == NOT_FOUND
      ensures key in old(social.requests) && key.1 != me ==> status == FORBIDDEN
      ensures status == OK <==> key in old(social.requests) && key.1 == me
      ensures status == OK ==> key in social.requests && social.requests[key].status == Accepted && social.AreFriends(key.0, key.1)
      ensures status != OK ==> social.requests == old(social.requests) && social.friendships == old(social.friendships)
      ensures social.blocks == old(social.blocks)
    {
      if key !in social.requests {
        return NOT_FOUND;
      }
      if key.1 != me {
        return FORBIDDEN;
      }
      social.AcceptFriendRequest(key.0, key.1, now);
      return OK;
    }

    /** `FriendRequestViewSet.reject`: the same checks; no friendship appears. */
    method FriendRequestReject(key: (nat, nat), me: nat, now: int) returns (status: nat)
      requires Valid()
      modifies social
      ensures Valid()
      ensures key !in old(social.requests) ==> status == NOT_FOUND
      ensures key in old(social.requests) && key.1 != me ==> status == FORBIDDEN
      ensures status == OK <==> key in old(social.requests) && key.1 == me
      ensures status == OK ==> key in social.requests && social.requests[key].status == Rejected
      ensures status != OK ==> social.requests == old(social.requests)
      ensures social.friendships == old(social.friendships) && social.blocks == old(social.blocks)
    {
      if key !in social.requests {
        return NOT_FOUND;
      }
      if key.1 != me {
        return FORBIDDEN;
      }
      social.RejectFriendRequest(key.0, key.1, now);
      return OK;
    }

    /** `FriendsViewSet.list`: walks the friendship rows and collects, for each
        row touching `me`, the other user. */
    method FriendsList(me: nat) returns (others: seq<nat>)
      requires Valid()
      ensures others == FriendsOf(social.friendships, me)
    {
      var rows := social.friendships;
      others := [];
      var i := 0;
      while i < |rows|
        invariant 0 <= i <= |rows|
        invariant others == FriendsOf(rows[..i], me)
      {
        var f := rows[i];
        assert rows[..i + 1][..i] == rows[..i];
        if f.0 == me {
          others := others + [f.1];
        } else if f.1 == me {
          others := others + [f.0];
        }
        i := i + 1;
      }
      assert rows[..i] == rows;
    }

    /** `FriendsViewSet.destroy`: 404 for an unknown user, else the friendship
        is gone and the answer is 204. */
    method FriendDestroy(me: nat, otherId: nat) returns (status: nat)
      requires Valid()
      modifies social
      ensures Valid()
      ensures otherId !in users.users ==> status == NOT_FOUND && social.friendships == old(social.friendships)
      ensures otherId in users.users ==>
        status == NO_CONTENT && social.friendships == Without(old(social.friendships), Pair(me, otherId)) &&
        !social.AreFriends(me, otherId)
      ensures social.requests == old(social.requests) && social.blocks == old(social.blocks)
    {
      if otherId !in users.users {
        return NOT_FOUND;
      }
      social.RemoveFriend(me, otherId);
      return NO_CONTENT;
    }

    /** `BlockViewSet.create`: `int(user_id)` with 0 as the default (a value
        `int()` refuses is a server error), 404 for an unknown user, else the
        block exists afterwards (blocking oneself is not refused). */
    method BlockCreate(me: nat, userId: Option<Json>) returns (status: nat)
      requires Valid()
      modifies social
      ensures Valid()
      ensures var uid := PyInt(userId.GetOr(JNum(0)));
        (uid.None? ==> status == SERVER_ERROR) &&
        (uid.Some? && (uid.value < 0 || uid.value !in users.users) ==> status == NOT_FOUND) &&
        (status == CREATED <==> uid.Some? && uid.value >= 0 && uid.value in users.users) &&
        (status == CREATED ==> social.blocks == old(social.blocks) + {(me, uid.value)})
      ensures status != CREATED ==> social.blocks == old(social.blocks)
      ensures social.requests == old(social.requests) && social.friendships == old(social.friendships)
    {
      var uid := PyInt(userId.GetOr(JNum(0)));
      if uid.None? {
        return SERVER_ERROR;
      }
      if uid.value < 0 || uid.value !in users.users {
        return NOT_FOUND;
      }
      social.BlockUser(me, uid.value);
      return CREATED;
    }

    /** `BlockViewSet.destroy`: 404 for an unknown user, else only the
        requester's block of that user is removed. */
    method BlockDestroy(me: nat, otherId: nat) returns (status: nat)
      requires Valid()
      modifies social
      ensures Valid()
      ensures otherId !in users.users ==> status == NOT_FOUND && social.blocks == old(social.blocks)
      ensures otherId in users.users ==> status == NO_CONTENT && social.blocks == old(social.blocks) - {(me, otherId)}
      ensures social.requests == old(social.requests) && social.friendships == old(social.friendships)
    {
      if otherId !in users.users {
        return NOT_FOUND;
      }
      social.UnblockUser(me, otherId);
      return NO_CONTENT;
    }

    /** `UserSearchView.get_queryset`: walks the user ids in ascending order
        and keeps the hits, so the result is exactly the matching users other
        than the requester, ordered by id. */
    method UserSearch(me: nat, q: Option<string>) returns (ids: seq<nat>)
      requires Valid()
      ensures forall id :: id in ids <==> SearchHit(users.users, me, q, id)
      ensures forall i, j :: 0 <= i < j < |ids| ==> ids[i] < ids[j]
    {
      var t := Trim(q.GetOr(""));
      ids := [];
      if |t| < MinSearchLength {
        forall x ensures !SearchHit(users.users, me, q, x) {
          ShortSearchFindsNobody(users.users, me, q, x);
        }
        return;
      }
      var table := users.users;
      assert forall x :: x in table ==> x < users.nextId;
      ids := IdsBelow(users.nextId, x => x in table && x != me && SearchMatches(table[x], t));
      forall x ensures x in ids <==> SearchHit(table, me, q, x) {
        SearchHitWithTerm(table, me, q, t, x);
      }
    }
  }
}
