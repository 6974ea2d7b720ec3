/** Read-side fallbacks and write-side validation of the REST serializers
    (backend/chat/serializers.py). */
module ChatSerializers {
  import opened Wrappers
  import opened Text
  import opened Json
  import opened Users
  import opened ChatModels

  /** `UserMiniSerializer.get_nickname`: nickname, then username, then email,
      then `user:<pk>`. */
  function GetNickname(u: User): (r: string)
    ensures r != ""
    ensures u.nickname != "" ==> r == u.nickname
    ensures u.nickname == "" && u.username.Some? && u.username.value != "" ==> r == u.username.value
    ensures u.nickname == "" && (u.username.None? || u.username.value == "") && u.email != "" ==> r == u.email
    ensures u.nickname == "" && (u.username.None? || u.username.value == "") && u.email == "" ==>
      r == "user:" + NatToString(u.id)
  {
    if u.nickname != "" then u.nickname
    else if u.username.Some? && u.username.value != "" then u.username.value
    else if u.email != "" then u.email
    else "user:" + NatToString(u.id)
  }

  datatype AuthorView = AuthorView(id: Option<nat>, nickname: string, avatar: Option<string>)

  /** `MessageSerializer.get_author`. */
  function GetAuthor(author: Option<User>, displayName: string): (r: AuthorView)
    ensures author.None? ==> r == AuthorView(None, if displayName != "" then displayName else "Unknown", None)
    ensures author.Some? ==> r == AuthorView(Some(author.value.id), GetNickname(author.value), author.value.avatarUrl)
    ensures r.nickname != ""
  {
    if author.None? then AuthorView(None, if displayName != "" then displayName else "Unknown", None)
    else AuthorView(Some(author.value.id), GetNickname(author.value), author.value.avatarUrl)
  }

  /** The request's user as the serializer sees it: absent (no request), the
      anonymous user (whose `id` is `None`), or an authenticated user. */
  datatype Requester = NoRequest | AnonymousUser | SignedIn(id: nat)

  function RequesterId(q: Requester): Option<nat> {
    if q.SignedIn? then Some(q.id) else None
  }

  /** `get_is_own` as written: `author_id == request.user.id`, where both sides
      may be `None`. */
  function GetIsOwnAsWritten(authorId: Option<nat>, q: Requester): (r: bool)
    ensures q.SignedIn? ==> (r <==> authorId == Some(q.id))
    ensures q == NoRequest ==> !r
    ensures q == AnonymousUser ==> (r <==> authorId.None?)
  {
    q != NoRequest && authorId == RequesterId(q)
  }

  /** An anonymous reader sees every authorless message as their own. */
  lemma GetIsOwnAnonymousCounterexample()
    ensures GetIsOwnAsWritten(None, AnonymousUser)
  {
  }

  /** `get_is_own` as evidently intended: true exactly when the message has an
      author and that author is the signed-in requester. */
  function GetIsOwn(authorId: Option<nat>, q: Requester): (r: bool)
    ensures r <==> q.SignedIn? && authorId == Some(q.id)
  {
    q.SignedIn? && authorId == Some(q.id)
  }

  /** The corrected flag agrees with the written one for every signed-in
      reader and differs only for anonymous readers of authorless messages. */
  lemma GetIsOwnAgreesWhenSignedIn(authorId: Option<nat>, q: Requester)
    ensures GetIsOwn(authorId, q) != GetIsOwnAsWritten(authorId, q) <==> q == AnonymousUser && authorId.None?
  {
  }

  datatype ValidationError = ValidationError(message: string)

  /** `MessageSerializer.validate`: a message needs non-blank text or an
      attachment. */
  function ValidateMessage(content: Option<string>, hasAttachment: bool): (r: Result<(), ValidationError>)
    ensures r.Err? <==> !hasAttachment && (content.None? || AllSpace(content.value))
  {
    var c := Trim(content.GetOr(""));
    if c == "" && !hasAttachment then Err(ValidationError("Нужно отправить текст или вложение."))
    else Ok(())
  }

  /** `ConversationSerializer.get_last_message_text`. */
  function GetLastMessageText(last: Option<Message>): (r: Option<string>)
    ensures last.None? <==> r.None?
    ensures last.Some? && last.value.content != "" ==>
      |r.value| <= 1000 && StartsWith(last.value.content, r.value) &&
      (|last.value.content| <= 1000 ==> r.value == last.value.content) &&
      r.value == last.value.content[..if |last.value.content| < 1000 then |last.value.content| else 1000]
    ensures last.Some? && last.value.content == "" ==>
      r.value == if last.value.attachmentName != "" then last.value.attachmentName else "Вложение"
  {
    if last.None? then None
    else if last.value.content != "" then Some(Take(last.value.content, 1000))
    else if last.value.attachmentName != "" then Some(last.value.attachmentName)
    else Some("Вложение")
  }

  /** `get_last_message_created_at`. */
  function GetLastMessageCreatedAt(last: Option<Message>): (r: Option<int>)
    ensures r.Some? <==> last.Some?
    ensures r.Some? ==> r.value == last.value.createdAt
  {
    if last.Some? then Some(last.value.createdAt) else None
  }

  /** `get_unread_count`: the requester's counter in that chat, 0 without a link. */
  function GetUnreadCount(links: map<(nat, nat), Participant>, chat: nat, user: nat): (r: nat)
    ensures (chat, user) in links ==> r == links[(chat, user)].unreadCount
    ensures (chat, user) !in links ==> r == 0
  {
    if (chat, user) in links then links[(chat, user)].unreadCount else 0
  }

  /** `get_other_user`: the participant with the smallest id other than the
      requester (the user table has no explicit ordering, so `first()` takes
      the lowest primary key), or none. */
  function GetOtherUser(participants: set<nat>, me: nat): (r: Option<nat>)
    ensures r.None? <==> participants - {me} == {}
    ensures r.Some? ==> r.value in participants && r.value != me
    ensures r.Some? ==> forall u :: u in participants && u != me ==> r.value <= u
  {
    var others := participants - {me};
    if others == {} then None
    else
      var m := MinOf(others);
      assert forall u :: u in participants && u != me ==> u in others;
      Some(m)
  }

  /** The least element of a non-empty set of ids. */
  function MinOf(s: set<nat>): (m: nat)
    requires s != {}
    ensures m in s && forall x :: x in s ==> m <= x
  {
    MinExists(s);
    var m :| m in s && forall x :: x in s ==> m <= x;
    m
  }

  lemma {:induction false} MinExists(s: set<nat>)
    requires s != {}
    ensures exists m :: m in s && forall x :: x in s ==> m <= x
  {
    var y :| y in s;
    if s != {y} {
      MinExists(s - {y});
      var m :| m in s - {y} && forall x :: x in s - {y} ==> m <= x;
      MinWithOneMore(s, y, m);
      var w := if y < m then y else m;
      assert w in s && forall x :: x in s ==> w <= x;
    } else {
      assert forall x :: x in s ==> y <= x;
    }
  }

  /** The least of `s` is the smaller of one element and the least of the rest. */
  lemma MinWithOneMore(s: set<nat>, y: nat, m: nat)
    requires y in s && m in s - {y} && forall x :: x in s - {y} ==> m <= x
    ensures var w := if y < m then y else m; w in s && forall x :: x in s ==> w <= x
  {
    var w := if y < m then y else m;
    forall x | x in s ensures w <= x {
      if x != y { assert x in s - {y}; }
    }
  }

  /** The two user-id validators (`ConversationCreateSerializer` and
      `FriendRequestCreateSerializer`): the requester's own id is refused. */
  function ValidateOtherUserId(me: nat, other: nat): (r: Result<nat, ValidationError>)
    ensures r.Ok? <==> me != other
    ensures r.Ok? ==> r.value == other
  {
    if me == other then Err(ValidationError("Нельзя создать диалог с самим собой.")) else Ok(other)
  }

  function ValidateToUserId(me: nat, to: nat): (r: Result<nat, ValidationError>)
    ensures r.Ok? <==> me != to
    ensures r.Ok? ==> r.value == to
  {
    if me == to then Err(ValidationError("Нельзя отправить заявку самому себе.")) else Ok(to)
  }

  /** The keys of `MessageSerializer.Meta.fields`. */
  const MessageKeys: set<string> := {
    "id", "room", "author", "author_username", "display_name", "content", "attachment", "attachment_url",
    "attachment_type", "attachment_name", "is_image", "reply_to", "expires_at", "created_at", "edited_at",
    "deleted_at", "meta", "is_own"}

  /** `settings.MEDIA_URL` */
  const MediaUrl := "/media/"

  /** The URL of an attached file (`FieldFile.url`), `null` without one. */
  function FileUrl(attachment: Option<string>): (r: Json)
    ensures r != JNull <==> attachment.Some? && attachment.value != ""
    ensures r != JNull ==> r == JStr(MediaUrl + attachment.value)
  {
    if attachment.Some? && attachment.value != "" then JStr(MediaUrl + attachment.value) else JNull
  }

  /** A nullable text or time column. */
  function TextOrNull(v: Option<string>): Json { if v.Some? then JStr(v.value) else JNull }
  function TimeOrNull(v: Option<int>): Json { if v.Some? then JNum(v.value) else JNull }

  /** The mini author object `{id, nickname, avatar}`. */
  function AuthorJson(a: AuthorView): (j: Json)
    ensures j.JObj? && j.fields.Keys == {"id", "nickname", "avatar"}
    ensures Get(j, "nickname") == Some(JStr(a.nickname))
    ensures Get(j, "id") == Some(if a.id.Some? then JNum(a.id.value) else JNull)
    ensures Get(j, "avatar") == Some(TextOrNull(a.avatar))
  {
    JObj(map[
      "id" := (if a.id.Some? then JNum(a.id.value) else JNull),
      "nickname" := JStr(a.nickname),
      "avatar" := TextOrNull(a.avatar)])
  }

  /** The value the serializer gives the key `k` of `Meta.fields`. */
  function MessageField(m: Message, author: Option<User>, q: Requester, k: string): Json {
    match k
    case "id" => JStr(m.id)
    case "room" => JNum(m.room)
    case "author" => AuthorJson(GetAuthor(author, m.displayName))
    case "author_username" => if author.Some? then TextOrNull(author.value.username) else JNull
    case "display_name" => JStr(m.displayName)
    case "content" => JStr(m.content)
    case "attachment" => FileUrl(m.attachment)
    case "attachment_url" => FileUrl(m.attachment)
    case "attachment_type" => JStr(m.attachmentType)
    case "attachment_name" => JStr(m.attachmentName)
    case "is_image" => JBool(IsImage(m.attachmentType, m.attachment))
    case "reply_to" => TextOrNull(m.replyTo)
    case "expires_at" => TimeOrNull(m.expiresAt)
    case "created_at" => JNum(m.createdAt)
    case "edited_at" => TimeOrNull(m.editedAt)
    case "deleted_at" => TimeOrNull(m.deletedAt)
    case "meta" => m.meta
    case _ => JBool(GetIsOwn(m.author, q))
  }

  /** The serialised message pushed to the chat group and returned by the
      API: every key of `Meta.fields`; the values are stated here and by
      `MessageJsonTexts`, `MessageJsonColumns` and `MessageJsonComputed`. */
  function MessageJson(m: Message, author: Option<User>, q: Requester): (j: Json)
    ensures j.JObj? && j.fields.Keys == MessageKeys
    ensures Get(j, "id") == Some(JStr(m.id)) && Get(j, "room") == Some(JNum(m.room))
    ensures Get(j, "content") == Some(JStr(m.content))
    ensures Get(j, "is_own") == Some(JBool(GetIsOwn(m.author, q)))
  {
    JObj(map k | k in MessageKeys :: MessageField(m, author, q, k))
  }

  /** The stored text columns appear as stored. */
  lemma MessageJsonTexts(m: Message, author: Option<User>, q: Requester)
    ensures var j := MessageJson(m, author, q);
      Get(j, "display_name") == Some(JStr(m.displayName)) &&
      Get(j, "attachment_type") == Some(JStr(m.attachmentType)) &&
      Get(j, "attachment_name") == Some(JStr(m.attachmentName)) &&
      Get(j, "meta") == Some(m.meta)
  {
  }

  /** The nullable columns appear as stored, `null` when unset. */
  lemma MessageJsonColumns(m: Message, author: Option<User>, q: Requester)
    ensures var j := MessageJson(m, author, q);
      Get(j, "reply_to") == Some(TextOrNull(m.replyTo)) &&
      Get(j, "expires_at") == Some(TimeOrNull(m.expiresAt)) &&
      Get(j, "created_at") == Some(JNum(m.createdAt)) &&
      Get(j, "edited_at") == Some(TimeOrNull(m.editedAt)) &&
      Get(j, "deleted_at") == Some(TimeOrNull(m.deletedAt))
  {
  }

  /** The computed keys: the author object of `get_author`, the author's
      username or `null`, both file keys holding the file's URL, and
      `is_image`. */
  lemma MessageJsonComputed(m: Message, author: Option<User>, q: Requester)
    ensures var j := MessageJson(m, author, q);
      Get(j, "author") == Some(AuthorJson(GetAuthor(author, m.displayName))) &&
      Get(j, "author_username") == Some(if author.Some? then TextOrNull(author.value.username) else JNull) &&
      Get(j, "attachment") == Some(FileUrl(m.attachment)) &&
      Get(j, "attachment_url") == Some(FileUrl(m.attachment)) &&
      Get(j, "is_image") == Some(JBool(IsImage(m.attachmentType, m.attachment)))
  {
  }
}
