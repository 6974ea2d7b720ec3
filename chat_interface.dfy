/** The group chat screen (frontend/src/components/chat/ChatInterface.tsx):
    how a server message becomes a screen message, how socket frames are
    read, selecting messages, sending, and the friend request that tries
    several endpoints and bodies in turn. */
module ChatInterface {
  import opened Wrappers
  import opened Sorting
  import opened Text
  import opened Json
  import opened ProfileFields
  import opened ChatMessages
  import ChatConsumer

  // ---------------------------------------------------------------------
  // From a server record to a screen message

  /** `pickAuthorId`: `author_id`, then `author` (or its `id`), `user_id`,
      `user`. */
  const AuthorSources: seq<AuthorSource> :=
    [Field("author_id"), FieldOrItsId("author"), Field("user_id"), Field("user")]

  /** The author id is `author_id` whenever that is present, and there is
      none exactly when all four places are empty. */
  lemma AuthorIdPrecedence(msg: Json)
    ensures !Nullish(Get(msg, "author_id")) ==>
      PickAuthorId(msg, AuthorSources) == Some(JsString(Get(msg, "author_id").value))
    ensures PickAuthorId(msg, AuthorSources).None? <==>
      Nullish(Get(msg, "author_id")) && Nullish(SourceValue(msg, FieldOrItsId("author"))) &&
      Nullish(Get(msg, "user_id")) && Nullish(Get(msg, "user"))
  {
    assert AuthorSources[0] == Field("author_id");
    assert AuthorSources[1] == FieldOrItsId("author");
    assert AuthorSources[2] == Field("user_id");
    assert AuthorSources[3] == Field("user");
  }

  /** `/@/`. */
  predicate LooksLikeEmail(s: string) { '@' in s }

  predicate PhoneChar(c: char) { IsDigit(c) || IsSpace(c) || c in "().-" }

  /** `/^[+\d][\d\s().-]{6,}$/`: a plus or digit, then six or more digits,
      spaces, brackets, dots or dashes. */
  predicate LooksLikePhone(s: string) {
    |s| >= 7 && (s[0] == '+' || IsDigit(s[0])) && forall i :: 1 <= i < |s| ==> PhoneChar(s[i])
  }

  /** A name that can be shown: neither e-mail nor phone number. */
  predicate Presentable(s: string) { s != "" && !LooksLikeEmail(s) && !LooksLikePhone(s) }

  /** `(m[key] || '').trim()`. */
  function NameField(m: Json, key: string): string { Trim(TextOr(Get(m, key), "")) }

  /** `chooseNickname`: the trimmed username, else the trimmed display
      name, the first that is not empty and looks like neither an e-mail
      nor a phone number; else `User`. */
  function ChooseNickname(m: Json): (r: string)
    ensures Presentable(r)
    ensures Presentable(NameField(m, "username")) ==> r == NameField(m, "username")
    ensures !Presentable(NameField(m, "username")) && Presentable(NameField(m, "display_name")) ==>
      r == NameField(m, "display_name")
    ensures r == "User" || r == NameField(m, "username") || r == NameField(m, "display_name")
  {
    var u := NameField(m, "username");
    var d := NameField(m, "display_name");
    if Presentable(u) then u
    else if Presentable(d) then d
    else
      UserIsPresentable();
      "User"
  }

  /** The neutral name is neither an e-mail nor a phone number. */
  lemma UserIsPresentable()
    ensures Presentable("User")
  {
    var fallback: string := "User";
    assert '@' !in fallback by {
      assert fallback[0] != '@' && fallback[1] != '@' && fallback[2] != '@' && fallback[3] != '@';
    }
  }

  /** A source text that ends in `.webm` ends in none of the image
      extensions. */
  lemma WebmIsNoImage(src: string)
    requires EndsWith(src, ".webm")
    ensures !HasExtension(src, ImageExtensions)
  {
    forall e | e in ImageExtensions
      ensures !EndsWith(src, "." + e)
    {
      assert e[|e| - 1] != 'm';
      assert src[|src| - 1] == 'm' by { assert src[|src| - 5..][4] == src[|src| - 1]; }
    }
  }

  /** `guessAttachmentKind` of the group chat: a MIME type wins; then a type
      of `image`; then the image, audio and video extensions of the address
      (or, without one, the name), in that order; then a file if there is an
      address; else no kind. */
  function GuessAttachmentKind(url: Option<string>, attachmentType: string, name: string, mime: Option<string>): (r: AttachmentKind)
    ensures MimeKind(mime).Some? ==> r == MimeKind(mime).value
    ensures MimeKind(mime).None? && attachmentType == "image" ==> r == Image
    ensures r == FileKind ==> url.Some? && url.value != ""
    ensures r == NoKind ==> url.None? || url.value == ""
    ensures MimeKind(mime).None? && attachmentType != "image" ==>
      var src := KindSource(url, name);
      var img, aud, vid := HasExtension(src, ImageExtensions), HasExtension(src, AudioExtensions),
                           HasExtension(src, VideoExtensions);
      (img ==> r == Image) && (!img && aud ==> r == Audio) && (!img && !aud && vid ==> r == Video) &&
      (!img && !aud && !vid ==>
         (r == FileKind <==> url.Some? && url.value != "") && (r == NoKind <==> url.None? || url.value == ""))
  {
    var src := KindSource(url, name);
    if MimeKind(mime).Some? then MimeKind(mime).value
    else if attachmentType == "image" then Image
    else if HasExtension(src, ImageExtensions) then Image
    else if HasExtension(src, AudioExtensions) then Audio
    else if HasExtension(src, VideoExtensions) then Video
    else if url.Some? && url.value != "" then FileKind
    else NoKind
  }

  /** The source the extensions are read from. */
  function KindSource(url: Option<string>, name: string): string {
    var u := Lower(if url.Some? then url.value else "");
    if u != "" then u else Lower(name)
  }

  /** Without a MIME type, a `.webm` file (a recorded voice note) is audio
      here. */
  lemma WebmIsAudio(url: Option<string>, attachmentType: string, name: string)
    requires attachmentType != "image"
    requires EndsWith(KindSource(url, name), ".webm")
    ensures GuessAttachmentKind(url, attachmentType, name, None) == Audio
  {
    var src := KindSource(url, name);
    WebmIsNoImage(src);
    WebmHasAudioExtension(src);
  }

  /** `webm` is one of the audio extensions. */
  lemma WebmHasAudioExtension(src: string)
    requires EndsWith(src, ".webm")
    ensures HasExtension(src, AudioExtensions)
  {
    var webm: string := "webm";
    assert webm == AudioExtensions[6];
    assert "." + webm == ".webm";
  }

  /** `mapApiToUi` of the group chat. */
  function MapApiToUi(m: Json, currentUserId: Option<string>, nowIso: string): (r: UIMessage)
    ensures r.authorId == PickAuthorId(m, AuthorSources)
    ensures r.isOwn <==> currentUserId.Some? && r.authorId == currentUserId
    ensures Presentable(r.username)
    ensures r.attachmentName.Some?
    ensures r.kind == GuessAttachmentKind(r.attachmentUrl, r.attachmentType, r.attachmentName.value, MetaMime(m))
    ensures r.id == OptJsString(Get(m, "id")) && r.room == Some(OptJsString(Get(m, "room")))
    ensures r.username == ChooseNickname(m)
    ensures r.content == TextOr(Get(m, "content"), "")
    ensures r.createdAt == TextOr(Get(m, "created_at"), nowIso)
    ensures r.attachmentUrl == TruthyText(Get(m, "attachment_url"))
    ensures r.attachmentType == TextOr(Get(m, "attachment_type"), "")
    ensures r.attachmentName == Some(TextOr(Get(m, "attachment_name"), ""))
  {
    var authorId := PickAuthorId(m, AuthorSources);
    var url := TruthyText(Get(m, "attachment_url"));
    var attachmentType := TextOr(Get(m, "attachment_type"), "");
    var name := TextOr(Get(m, "attachment_name"), "");
    var createdAt := TextOr(Get(m, "created_at"), nowIso);
    UIMessage(OptJsString(Get(m, "id")), Some(OptJsString(Get(m, "room"))), authorId, ChooseNickname(m),
              TextOr(Get(m, "content"), ""), createdAt, IsOwn(authorId, currentUserId),
              url, attachmentType, Some(name), GuessAttachmentKind(url, attachmentType, name, MetaMime(m)))
  }

  /** A record whose author is the current user is shown as one's own. */
  lemma OwnMessageIsOwn(m: Json, me: string, nowIso: string)
    requires Get(m, "author_id") == Some(JStr(me))
    ensures MapApiToUi(m, Some(me), nowIso).isOwn
  {
    AuthorIdPrecedence(m);
  }

  // ---------------------------------------------------------------------
  // Socket frames

  /** What the socket handler makes of a frame. */
  datatype Frame =
    | MessageFrame(raw: Json)
    | TypingFrame(on: bool)
      /** `None` is `NaN` */
    | PresenceFrame(count: Option<int>)
    | DeleteFrame(id: string)
    | OtherFrame

  /** `payload.data ?? payload`. */
  function RawOf(payload: Json): Json {
    if Nullish(Get(payload, "data")) then payload else Get(payload, "data").value
  }

  /** `(payload.type ?? raw?.type ?? '').toString()`. */
  function FrameType(payload: Json): string {
    var t := Coalesce(Get(payload, "type"), Coalesce(Get(RawOf(payload), "type"), Some(JStr(""))));
    if t.Some? then JsString(t.value) else ""
  }

  /** `/(^(chat\.)?message$|group\.message|room\.message)/i`. */
  predicate NamesMessage(t: string) {
    var l := Lower(t);
    l == "message" || l == "chat.message" || Contains(l, "group.message") || Contains(l, "room.message")
  }

  /** A raw record with an id, a room and a text or attachment. */
  predicate ShapedLikeMessage(raw: Json) {
    JsTruthy(raw) && !Nullish(Get(raw, "id")) && !Nullish(Get(raw, "room")) &&
    (!Nullish(Get(raw, "content")) || OptJsTruthy(Get(raw, "attachment_url")))
  }

  /** `/^presence|room\.presence$/i`. */
  predicate NamesPresence(t: string) {
    StartsWith(Lower(t), "presence") || EndsWith(Lower(t), "room.presence")
  }

  /** `/^delete|message\.delete$/i`. */
  predicate NamesDelete(t: string) {
    StartsWith(Lower(t), "delete") || EndsWith(Lower(t), "message.delete")
  }

  /** Whether the frame is read as a chat message: the first test. */
  predicate ReadAsMessage(payload: Json) {
    JsTruthy(payload) && (FrameType(payload) == "message" ||
      NamesMessage(FrameType(payload)) || ShapedLikeMessage(RawOf(payload)))
  }

  /** `String(raw?.id ?? '')`: the id a deletion names. */
  function DeletedId(raw: Json): string {
    JsString(Coalesce(Get(raw, "id"), Some(JStr(""))).GetOr(JStr("")))
  }

  /** The `onmessage` decision, tried in the source's order: a message, a
      typing flag, a presence count, a deletion with a non-empty id. */
  function Classify(payload: Json): (r: Frame)
    ensures r.MessageFrame? <==> ReadAsMessage(payload)
    ensures r.MessageFrame? ==> r.raw == RawOf(payload)
    ensures r.TypingFrame? <==> JsTruthy(payload) && !ReadAsMessage(payload) && FrameType(payload) == "typing"
    ensures r.TypingFrame? ==> r.on == OptJsTruthy(Get(RawOf(payload), "isTyping"))
    ensures r.PresenceFrame? <==>
      JsTruthy(payload) && !ReadAsMessage(payload) && FrameType(payload) != "typing" && NamesPresence(FrameType(payload))
    ensures r.PresenceFrame? ==> r.count == JsNumber(Coalesce(Get(RawOf(payload), "count"), Some(JNum(0))).GetOr(JNum(0)))
    ensures r.DeleteFrame? <==>
      JsTruthy(payload) && !ReadAsMessage(payload) && FrameType(payload) != "typing" &&
      !NamesPresence(FrameType(payload)) && NamesDelete(FrameType(payload)) && DeletedId(RawOf(payload)) != ""
    ensures r.DeleteFrame? ==> r.id == DeletedId(RawOf(payload))
    ensures !JsTruthy(payload) ==> r == OtherFrame
  {
    if !JsTruthy(payload) then OtherFrame
    else
      var raw := RawOf(payload);
      var t := FrameType(payload);
      if t == "message" || NamesMessage(t) || ShapedLikeMessage(raw) then MessageFrame(raw)
      else if t == "typing" then TypingFrame(OptJsTruthy(Get(raw, "isTyping")))
      else if NamesPresence(t) then PresenceFrame(JsNumber(Coalesce(Get(raw, "count"), Some(JNum(0))).GetOr(JNum(0))))
      else if NamesDelete(t) then
        var id := DeletedId(raw);
        if id != "" then DeleteFrame(id) else OtherFrame
      else OtherFrame
  }

  /** A stored message broadcast by the room consumer reaches the screen as
      a message carrying the event's data. */
  lemma BroadcastIsReadAsMessage(event: Json)
    requires Get(event, "data").Some? && !Get(event, "data").value.JNull?
    ensures Classify(ChatConsumer.OutboundChatMessage(event)) == MessageFrame(Get(event, "data").value)
  {
    var frame := ChatConsumer.OutboundChatMessage(event);
    var message: string := "message";
    assert Get(frame, "type") == Some(JStr(message));
    assert FrameType(frame) == message;
  }

  /** The type `delete` names a deletion and nothing before it. */
  lemma DeleteTypeNamesDelete()
    ensures !NamesMessage("delete") && !NamesPresence("delete") && NamesDelete("delete")
  {
    var del: string := "delete";
    LowerNoUpper(del);
    assert Lower(del) == del;
    assert |del| != |"message"| && |del| != |"chat.message"|;
    NotContainsLonger(del, "group.message");
    NotContainsLonger(del, "room.message");
    assert |del| < |"presence"| && |del| < |"room.presence"|;
    assert StartsWith(del, del);
  }

  /** The type of a `delete` frame with an id. */
  lemma DeleteFrameType(id: string)
    ensures var frame := JObj(map["type" := JStr("delete"), "id" := JStr(id)]);
      RawOf(frame) == frame && FrameType(frame) == "delete" && Get(frame, "room").None?
  {
    var frame := JObj(map["type" := JStr("delete"), "id" := JStr(id)]);
    assert Get(frame, "data").None?;
  }

  /** A `delete` frame with a non-empty id is read as that deletion. */
  lemma ClassifyDeleteFrame(id: string)
    requires id != ""
    ensures Classify(JObj(map["type" := JStr("delete"), "id" := JStr(id)])) == DeleteFrame(id)
  {
    DeleteFrameType(id);
    DeleteTypeNamesDelete();
    var del: string := "delete";
    assert del != "typing" by { assert del[0] != "typing"[0]; }
  }

  /** With the corrected consumer, deleting a message for everyone reaches
      the screen as a deletion of that id. */
  lemma DeletionIsReadAsDelete(id: string)
    requires id != ""
    ensures Classify(ChatConsumer.Outbound(ChatConsumer.ChatDeleteEvent(id)).value) == DeleteFrame(id)
  {
    ChatConsumer.DeleteEventDelivered(id);
    ClassifyDeleteFrame(id);
  }

  /** No text contains a longer one. */
  lemma NotContainsLonger(s: string, p: string)
    requires |s| < |p|
    ensures !Contains(s, p)
  {
    if Contains(s, p) {
      ContainsOccurrence(s, p);
    }
  }

  // ---------------------------------------------------------------------
  // Selection

  /** `new Map(messages.map(m => [m.id, m])).get(id)`: the last message with
      that id. */
  function LastWithId(messages: seq<UIMessage>, id: string): (r: Option<UIMessage>)
    ensures r.None? <==> forall j :: 0 <= j < |messages| ==> messages[j].id != id
    ensures r.Some? ==> r.value.id == id && exists j :: (0 <= j < |messages| && messages[j] == r.value &&
      forall k :: j < k < |messages| ==> messages[k].id != id)
  {
    if messages == [] then None
    else if messages[|messages| - 1].id == id then Some(messages[|messages| - 1])
    else
      var front := messages[..|messages| - 1];
      var rest := LastWithId(front, id);
      assert forall j :: 0 <= j < |front| ==> front[j] == messages[j];
      assert rest.Some? ==> exists j :: (0 <= j < |messages| && messages[j] == rest.value &&
        forall k :: j < k < |messages| ==> messages[k].id != id) by {
        if rest.Some? {
          var j :| 0 <= j < |front| && front[j] == rest.value && forall k :: j < k < |front| ==> front[k].id != id;
          assert messages[j] == rest.value;
          assert forall k :: j < k < |messages| ==> messages[k].id != id by {
            forall k | j < k < |messages| ensures messages[k].id != id {
              if k < |front| { assert messages[k] == front[k]; }
            }
          }
        }
      }
      rest
  }

  /** The message with that id, as shown, is one's own. */
  predicate OwnShown(messages: seq<UIMessage>, id: string) {
    LastWithId(messages, id).Some? && LastWithId(messages, id).value.isOwn
  }

  /** `ids.every(id => byId.get(id)?.isOwn)`. */
  function EveryOwn(ids: seq<string>, messages: seq<UIMessage>): (r: bool)
    ensures r <==> forall i :: 0 <= i < |ids| ==> OwnShown(messages, ids[i])
  {
    if ids == [] then true
    else
      assert forall i :: 0 < i < |ids| ==> ids[i] == ids[1..][i - 1];
      OwnShown(messages, ids[0]) && EveryOwn(ids[1..], messages)
  }

  /** `selectedOwnOnly`: some message is selected and every selected one is
      one's own. */
  function SelectedOwnOnly(selected: seq<string>, messages: seq<UIMessage>): (r: bool)
    ensures selected == [] ==> !r
    ensures r <==> selected != [] && forall i :: 0 <= i < |selected| ==> OwnShown(messages, selected[i])
  {
    selected != [] && EveryOwn(selected, messages)
  }

  /** Selecting a message that was not selected and selecting it again
      restores the selection. */
  lemma ToggleSelectTwice(selected: seq<string>, id: string)
    requires id !in selected
    ensures Toggle(Toggle(selected, id), id) == selected
  {
    ToggleTwiceAbsent(selected, id);
  }

  /** `isOwn` recomputed for a new current user. */
  function Reowned(messages: seq<UIMessage>, currentUserId: Option<string>): (r: seq<UIMessage>)
    ensures |r| == |messages|
    ensures forall i :: 0 <= i < |r| ==> r[i] == messages[i].(isOwn := IsOwn(messages[i].authorId, currentUserId))
  {
    seq(|messages|, i requires 0 <= i < |messages| => messages[i].(isOwn := IsOwn(messages[i].authorId, currentUserId)))
  }

  // ---------------------------------------------------------------------
  // The screen

  /** The hint shown when posting the text failed. */
  const SendFailedHint := "Не удалось отправить сообщение"

  /** The message shown at once under its temporary id, before the server
      answers. */
  function Optimistic(tempId: string, roomId: string, nowIso: string, currentUserId: Option<string>,
                      myName: string, text: string): UIMessage {
    UIMessage(tempId, Some(roomId), currentUserId, myName, text, nowIso, true, None, "", None, NoKind)
  }

  /** The frame sent over an open socket, the temporary id under both spellings. */
  function SocketFrame(text: string, tempId: string): Json {
    JObj(map["type" := JStr("message"), "content" := JStr(text),
             "tempId" := JStr(tempId), "temp_id" := JStr(tempId)])
  }

  /** The body posted when no socket is open. */
  function PostBody(roomId: string, text: string): Json {
    JObj(map["room" := JStr(roomId), "content" := JStr(text)])
  }

  /** The state of one open room: the message feed, the selection, the
      typing and presence indicators, the input, the hint line, and what
      was sent on the socket or posted. */
  class ChatRoom {
    const roomId: string
    const feed: MessageFeed
    var selected: seq<string>
    var selectionMode: bool
    var isTyping: bool
    var participantCount: Option<int>
    var input: string
    var hint: Option<string>
    var outbox: seq<Json>
    var posts: seq<Json>

    constructor (roomId: string)
      ensures this.roomId == roomId && fresh(feed)
      ensures feed.messages == [] && feed.seen == {}
      ensures selected == [] && !selectionMode && !isTyping && participantCount.None?
      ensures input == "" && hint.None? && outbox == [] && posts == []
    {
      this.roomId := roomId;
      feed := new MessageFeed();
      selected := [];
      selectionMode := false;
      isTyping := false;
      participantCount := None;
      input := "";
      hint := None;
      outbox := [];
      posts := [];
    }

    /** `ws.onmessage`: a message goes through the feed; typing and presence
        set their indicators; a deletion removes that id from the list and
        from the selection. */
    method OnFrame(payload: Json, currentUserId: Option<string>, nowIso: string, timeOf: string -> Option<int>)
      modifies this`isTyping, this`participantCount, this`selected, feed
      ensures match Classify(payload)
        case MessageFrame(raw) =>
          var ui := MapApiToUi(raw, currentUserId, nowIso);
          (if ui.id != "" && ui.id in old(feed.seen)
           then feed.messages == old(feed.messages) && feed.seen == old(feed.seen)
           else feed.messages == Merge(old(feed.messages), ui, TempEcho(raw), timeOf) &&
                feed.seen == old(feed.seen) + (if ui.id != "" then {ui.id} else {})) &&
          selected == old(selected) && isTyping == old(isTyping) && participantCount == old(participantCount)
        case TypingFrame(on) =>
          isTyping == on && feed.messages == old(feed.messages) && feed.seen == old(feed.seen) &&
          selected == old(selected) && participantCount == old(participantCount)
        case PresenceFrame(n) =>
          participantCount == n && feed.messages == old(feed.messages) && feed.seen == old(feed.seen) &&
          selected == old(selected) && isTyping == old(isTyping)
        case DeleteFrame(id) =>
          feed.messages == RemoveId(old(feed.messages), id) && selected == Without(old(selected), id) &&
          feed.seen == old(feed.seen) && isTyping == old(isTyping) && participantCount == old(participantCount)
        case OtherFrame =>
          feed.messages == old(feed.messages) && feed.seen == old(feed.seen) &&
          selected == old(selected) && isTyping == old(isTyping) && participantCount == old(participantCount)
    {
      Apply(Classify(payload), currentUserId, nowIso, timeOf);
    }

    /** One frame, once read. */
    method Apply(f: Frame, currentUserId: Option<string>, nowIso: string, timeOf: string -> Option<int>)
      modifies this`isTyping, this`participantCount, this`selected, feed
      ensures match f
        case MessageFrame(raw) =>
          var ui := MapApiToUi(raw, currentUserId, nowIso);
          (if ui.id != "" && ui.id in old(feed.seen)
           then feed.messages == old(feed.messages) && feed.seen == old(feed.seen)
           else feed.messages == Merge(old(feed.messages), ui, TempEcho(raw), timeOf) &&
                feed.seen == old(feed.seen) + (if ui.id != "" then {ui.id} else {})) &&
          selected == old(selected) && isTyping == old(isTyping) && participantCount == old(participantCount)
        case TypingFrame(on) =>
          isTyping == on && feed.messages == old(feed.messages) && feed.seen == old(feed.seen) &&
          selected == old(selected) && participantCount == old(participantCount)
        case PresenceFrame(n) =>
          participantCount == n && feed.messages == old(feed.messages) && feed.seen == old(feed.seen) &&
          selected == old(selected) && isTyping == old(isTyping)
        case DeleteFrame(id) =>
          feed.messages == RemoveId(old(feed.messages), id) && selected == Without(old(selected), id) &&
          feed.seen == old(feed.seen) && isTyping == old(isTyping) && participantCount == old(participantCount)
        case OtherFrame =>
          feed.messages == old(feed.messages) && feed.seen == old(feed.seen) &&
          selected == old(selected) && isTyping == old(isTyping) && participantCount == old(participantCount)
    {
      match f
      case MessageFrame(raw) =>
        feed.Receive(MapApiToUi(raw, currentUserId, nowIso), TempEcho(raw), timeOf);
      case TypingFrame(on) =>
        isTyping := on;
      case PresenceFrame(n) =>
        participantCount := n;
      case DeleteFrame(id) =>
        feed.messages := RemoveId(feed.messages, id);
        selected := Without(selected, id);
      case OtherFrame =>
    }

    /** `enterSelectionWith`. */
    method EnterSelectionWith(id: string)
      modifies this`selectionMode, this`selected
      ensures selectionMode && selected == [id]
    {
      selectionMode := true;
      selected := [id];
    }

    /** `toggleSelect`: drop the id if selected, else add it at the end. */
    method ToggleSelect(id: string)
      modifies this`selected
      ensures selected == Toggle(old(selected), id)
    {
      selected := Toggle(selected, id);
    }

    /** `clearSelection`. */
    method ClearSelection()
      modifies this`selectionMode, this`selected
      ensures !selectionMode && selected == []
    {
      selectionMode := false;
      selected := [];
    }

    /** A new current user: every message's `isOwn` is recomputed. */
    method CurrentUserChanged(currentUserId: Option<string>)
      modifies feed`messages
      ensures feed.messages == Reowned(old(feed.messages), currentUserId)
    {
      feed.messages := Reowned(feed.messages, currentUserId);
    }

    /** `handleSend`: a blank input does nothing.  Otherwise the trimmed text
        is shown at once under the temporary id and the input is cleared;
        with an open socket the text is sent there with the id to echo;
        without one the optimistic message is removed and the text posted,
        the server's record being appended on success and a hint shown on
        failure. */
    method HandleSend(tempId: string, nowIso: string, currentUserId: Option<string>, myName: string,
                      socketOpen: bool, reply: Option<Json>)
      modifies this`input, this`outbox, this`posts, this`hint, feed`messages
      ensures Trim(old(input)) == "" ==>
        input == old(input) && feed.messages == old(feed.messages) && outbox == old(outbox) &&
        posts == old(posts) && hint == old(hint)
      ensures Trim(old(input)) != "" ==> input == ""
      ensures Trim(old(input)) != "" && socketOpen ==>
        feed.messages == old(feed.messages) + [Optimistic(tempId, roomId, nowIso, currentUserId, myName, Trim(old(input)))] &&
        posts == old(posts) && hint == old(hint) &&
        outbox == old(outbox) + [SocketFrame(Trim(old(input)), tempId)]
      ensures Trim(old(input)) != "" && !socketOpen ==>
        outbox == old(outbox) && posts == old(posts) + [PostBody(roomId, Trim(old(input)))]
      ensures Trim(old(input)) != "" && !socketOpen && reply.Some? ==>
        feed.messages == RemoveId(old(feed.messages) + [Optimistic(tempId, roomId, nowIso, currentUserId, myName, Trim(old(input)))], tempId) +
                         [MapApiToUi(reply.value, currentUserId, nowIso)] &&
        hint == old(hint)
      ensures Trim(old(input)) != "" && !socketOpen && reply.None? ==>
        feed.messages == RemoveId(old(feed.messages) + [Optimistic(tempId, roomId, nowIso, currentUserId, myName, Trim(old(input)))], tempId) &&
        hint == Some(SendFailedHint)
    {
      var text := Trim(input);
      if text != "" {
        SendText(text, tempId, nowIso, currentUserId, myName, socketOpen, reply);
      }
    }

    /** What `handleSend` does with a text that is not blank. */
    method SendText(text: string, tempId: string, nowIso: string, currentUserId: Option<string>, myName: string,
                    socketOpen: bool, reply: Option<Json>)
      modifies this`input, this`outbox, this`posts, this`hint, feed`messages
      ensures input == ""
      ensures outbox == old(outbox) + (if socketOpen then [SocketFrame(text, tempId)] else [])
      ensures posts == old(posts) + (if socketOpen then [] else [PostBody(roomId, text)])
      ensures hint == (if !socketOpen && reply.None? then Some(SendFailedHint) else old(hint))
      ensures var shown := old(feed.messages) + [Optimistic(tempId, roomId, nowIso, currentUserId, myName, text)];
        feed.messages == if socketOpen then shown
                         else RemoveId(shown, tempId) + (if reply.Some? then [MapApiToUi(reply.value, currentUserId, nowIso)] else [])
    {
      feed.messages := feed.messages + [Optimistic(tempId, roomId, nowIso, currentUserId, myName, text)];
      input := "";
      var ok := SendViaWs(text, tempId, socketOpen);
      if !ok {
        feed.messages := RemoveId(feed.messages, tempId);
        var posted := PostViaHttp(text, currentUserId, nowIso, reply);
        if !posted {
          hint := Some(SendFailedHint);
        }
      }
    }

    /** `sendViaWS`: over an open socket the text goes out with the id to
        echo under both spellings; without one nothing is sent. */
    method SendViaWs(text: string, tempId: string, socketOpen: bool) returns (ok: bool)
      modifies this`outbox
      ensures ok == socketOpen
      ensures outbox == old(outbox) + (if socketOpen then [SocketFrame(text, tempId)] else [])
    {
      ok := socketOpen;
      if socketOpen {
        outbox := outbox + [SocketFrame(text, tempId)];
      }
    }

    /** `postViaHTTP`: the text is posted to the room; on success the
        server's record is appended, and `ok` says whether it was. */
    method PostViaHttp(text: string, currentUserId: Option<string>, nowIso: string, reply: Option<Json>)
      returns (ok: bool)
      modifies this`posts, feed`messages
      ensures ok == reply.Some?
      ensures posts == old(posts) + [PostBody(roomId, text)]
      ensures feed.messages == old(feed.messages) +
                               (if reply.Some? then [MapApiToUi(reply.value, currentUserId, nowIso)] else [])
    {
      posts := posts + [PostBody(roomId, text)];
      ok := reply.Some?;
      if reply.Some? {
        feed.messages := feed.messages + [MapApiToUi(reply.value, currentUserId, nowIso)];
      }
    }
  }

  /** When the socket is closed, the optimistic message leaves the list
      again: what remains is the earlier list without that temporary id. */
  lemma FallbackRemovesOptimistic(prev: seq<UIMessage>, optimistic: UIMessage)
    requires forall j :: 0 <= j < |prev| ==> prev[j].id != optimistic.id
    ensures RemoveId(prev + [optimistic], optimistic.id) == prev
  {
    RemoveIdAppend(prev, optimistic);
  }

  // ---------------------------------------------------------------------
  // Friend request

  /** How one request ended: resolved with a status, or rejected with the
      response's status and data (both absent for a network error). */
  datatype Answer = Resolved(code: int) | Rejected(status: Option<int>, data: Option<Json>)

  datatype Endpoint = Endpoint(url: string, bodies: seq<Json>)

  /** `Number(userId)`, serialised: `NaN` becomes `null`. */
  function IdJson(userId: string): (r: Json)
    ensures r.JNum? <==> TextNumber(userId).Some?
    ensures r.JNum? ==> TextNumber(userId) == Some(r.n)
    ensures !r.JNum? ==> r == JNull
  {
    match TextNumber(userId)
    case Some(n) => JNum(n)
    case None => JNull
  }

  /** The three endpoints and the bodies tried at each, in order. */
  function FriendEndpoints(id: Json): (r: seq<Endpoint>)
    ensures |r| == 3 && |r[0].bodies| == 4 && |r[1].bodies| == 4 && |r[2].bodies| == 3
  {
    [Endpoint("/api/friends/requests/", [Obj1("to_user_id", id), Obj1("to_user", id), Obj1("user_id", id), Obj1("receiver_id", id)]),
     Endpoint("/api/friends/request/", [Obj1("to_user_id", id), Obj1("to_user", id), Obj1("user_id", id), Obj1("receiver_id", id)]),
     Endpoint("/api/friends/add/", [Obj1("user_id", id), Obj1("friend_id", id), Obj1("to_user_id", id)])]
  }

  datatype FriendOutcome = RequestSent | AlreadySent | NotSent(reason: string)

  /** `/already|exists|уже|duplicate/i`. */
  predicate MentionsDuplicate(text: string) {
    var l := Lower(text);
    Contains(l, "already") || Contains(l, "exists") || Contains(l, "уже") || Contains(l, "duplicate")
  }

  /** What to do after one answer. */
  datatype Step = Stop(outcome: FriendOutcome) | NextBody | NextEndpoint

  /** 200 or 201 is sent; a conflict, or a 400 whose data speaks of a
      duplicate, is already sent; another 4xx tries the next body; a 5xx
      leaves the endpoint; anything else tries the next body.  `stringify`
      is `JSON.stringify`. */
  function StepOf(a: Answer, stringify: Json -> string): (r: Step)
    ensures r == Stop(RequestSent) <==> a.Resolved? && (a.code == 200 || a.code == 201)
    ensures r == Stop(AlreadySent) <==> (a.Rejected? && (a.status == Some(409) ||
      (a.status == Some(400) && OptJsTruthy(a.data) && MentionsDuplicate(stringify(a.data.value)))))
    ensures r == NextEndpoint <==> a.Rejected? && a.status.Some? && a.status.value >= 500
    ensures r.Stop? ==> !r.outcome.NotSent?
  {
    match a
    case Resolved(s) => if s == 200 || s == 201 then Stop(RequestSent) else NextBody
    case Rejected(st, data) =>
      if st == Some(409) || (st == Some(400) && OptJsTruthy(data) && MentionsDuplicate(stringify(data.value))) then
        Stop(AlreadySent)
      else if st.Some? && 400 <= st.value < 500 then NextBody
      else if st.Some? && st.value >= 500 then NextEndpoint
      else NextBody
  }

  /** The text after `Не удалось отправить заявку: `: the last error's data
      (as is when text, else as JSON), or `Неизвестная ошибка`. */
  function FailureText(lastErr: Option<Answer>, stringify: Json -> string): (r: string)
    ensures (lastErr.None? || lastErr.value.Resolved?) ==> r == "Неизвестная ошибка"
    ensures lastErr.Some? && lastErr.value.Rejected? && lastErr.value.data.Some? && lastErr.value.data.value.JStr? &&
            lastErr.value.data.value.s != "" ==>
      r == lastErr.value.data.value.s
    ensures lastErr.Some? && lastErr.value.Rejected? && OptJsTruthy(lastErr.value.data) && !lastErr.value.data.value.JStr? ==>
      r == stringify(lastErr.value.data.value)
    ensures lastErr.Some? && lastErr.value.Rejected? && !OptJsTruthy(lastErr.value.data) ==> r == "Неизвестная ошибка"
  {
    match lastErr
    case Some(Rejected(_, Some(d))) =>
      if !JsTruthy(d) then "Неизвестная ошибка" else if d.JStr? then d.s else stringify(d)
    case _ => "Неизвестная ошибка"
  }

  /** Where trying one endpoint's bodies left off: an outcome if one was
      reached, and the last rejection so far. */
  datatype Progress = Progress(outcome: Option<FriendOutcome>, lastErr: Option<Answer>)

  /** The bodies of one endpoint tried in turn until an outcome or a 5xx. */
  function RunBodies(url: string, bodies: seq<Json>, respond: (string, Json) -> Answer,
                     stringify: Json -> string, lastErr: Option<Answer>): (r: Progress)
    ensures r.outcome.Some? ==> !r.outcome.value.NotSent?
    ensures r.lastErr != lastErr ==> r.lastErr.Some? && r.lastErr.value.Rejected?
  {
    if bodies == [] then Progress(None, lastErr)
    else
      var a := respond(url, bodies[0]);
      var err := if a.Rejected? then Some(a) else lastErr;
      match StepOf(a, stringify)
      case Stop(o) => Progress(Some(o), err)
      case NextEndpoint => Progress(None, err)
      case NextBody => RunBodies(url, bodies[1..], respond, stringify, err)
  }

  /** The endpoints tried in turn; when none gives an outcome, the request
      was not sent and the last error says why. */
  function RunEndpoints(eps: seq<Endpoint>, respond: (string, Json) -> Answer,
                        stringify: Json -> string, lastErr: Option<Answer>): (r: FriendOutcome)
    ensures r.NotSent? ==> exists e :: r.reason == FailureText(e, stringify) && (e == lastErr || (e.Some? && e.value.Rejected?))
  {
    if eps == [] then NotSent(FailureText(lastErr, stringify))
    else
      var p := RunBodies(eps[0].url, eps[0].bodies, respond, stringify, lastErr);
      if p.outcome.Some? then p.outcome.value else RunEndpoints(eps[1..], respond, stringify, p.lastErr)
  }

  /** An outcome of one endpoint is the verdict on one of its answers, and
      one is reached whenever some answer calls for it; a rejection seen on
      the way becomes the last error. */
  lemma {:induction false} RunBodiesOutcome(url: string, bodies: seq<Json>, respond: (string, Json) -> Answer,
                                            stringify: Json -> string, lastErr: Option<Answer>)
    ensures var r := RunBodies(url, bodies, respond, stringify, lastErr);
      (r.outcome.Some? ==>
        exists i :: 0 <= i < |bodies| && StepOf(respond(url, bodies[i]), stringify) == Stop(r.outcome.value)) &&
      ((forall i :: 0 <= i < |bodies| ==> !StepOf(respond(url, bodies[i]), stringify).Stop?) ==> r.outcome.None?) &&
      (r.lastErr != lastErr ==>
        exists i :: 0 <= i < |bodies| && respond(url, bodies[i]).Rejected? && r.lastErr == Some(respond(url, bodies[i])))
    decreases |bodies|
  {
    if bodies != [] {
      RunBodiesOutcome(url, bodies[1..], respond, stringify,
                       if respond(url, bodies[0]).Rejected? then Some(respond(url, bodies[0])) else lastErr);
      assert forall i :: 0 <= i < |bodies[1..]| ==> bodies[1..][i] == bodies[i + 1];
    }
  }

  /** The request counts as sent or already sent only on the verdict of one
      answer of one endpoint, and it is not sent when no answer calls for a
      stop. */
  lemma {:induction false} RunEndpointsOutcome(eps: seq<Endpoint>, respond: (string, Json) -> Answer,
                                               stringify: Json -> string, lastErr: Option<Answer>)
    ensures var r := RunEndpoints(eps, respond, stringify, lastErr);
      (!r.NotSent? ==>
        exists k, i :: 0 <= k < |eps| && 0 <= i < |eps[k].bodies| &&
          StepOf(respond(eps[k].url, eps[k].bodies[i]), stringify) == Stop(r)) &&
      ((forall k, i :: 0 <= k < |eps| && 0 <= i < |eps[k].bodies| ==>
          !StepOf(respond(eps[k].url, eps[k].bodies[i]), stringify).Stop?) ==> r.NotSent?)
    decreases |eps|
  {
    if eps != [] {
      var p := RunBodies(eps[0].url, eps[0].bodies, respond, stringify, lastErr);
      RunBodiesOutcome(eps[0].url, eps[0].bodies, respond, stringify, lastErr);
      RunEndpointsOutcome(eps[1..], respond, stringify, p.lastErr);
      assert forall k :: 0 <= k < |eps[1..]| ==> eps[1..][k] == eps[k + 1];
    }
  }

  /** The loops of `addFriend`: each endpoint's bodies in turn, leaving
      the endpoint on a server error and returning on an outcome; when the
      endpoints run out, the request was not sent. */
  method TryEndpoints(eps: seq<Endpoint>, respond: (string, Json) -> Answer, stringify: Json -> string)
    returns (r: FriendOutcome)
    ensures r == RunEndpoints(eps, respond, stringify, None)
  {
    var lastErr: Option<Answer> := None;
    var i := 0;
    while i < |eps|
      invariant 0 <= i <= |eps|
      invariant RunEndpoints(eps, respond, stringify, None) == RunEndpoints(eps[i..], respond, stringify, lastErr)
    {
      var ep := eps[i];
      ghost var err0 := lastErr;
      var j := 0;
      var leave := false;
      while j < |ep.bodies| && !leave
        invariant 0 <= j <= |ep.bodies|
        invariant !leave ==> RunBodies(ep.url, ep.bodies, respond, stringify, err0) ==
                             RunBodies(ep.url, ep.bodies[j..], respond, stringify, lastErr)
        invariant leave ==> RunBodies(ep.url, ep.bodies, respond, stringify, err0) == Progress(None, lastErr)
      {
        var a := respond(ep.url, ep.bodies[j]);
        assert ep.bodies[j..][0] == ep.bodies[j];
        assert ep.bodies[j..][1..] == ep.bodies[j + 1..];
        if a.Rejected? {
          lastErr := Some(a);
        }
        match StepOf(a, stringify) {
          case Stop(o) =>
            assert eps[i..][0] == ep;
            return o;
          case NextEndpoint =>
            leave := true;
          case NextBody =>
        }
        j := j + 1;
      }
      assert !leave ==> ep.bodies[j..] == [];
      assert eps[i..][0] == ep && eps[i..][1..] == eps[i + 1..];
      i := i + 1;
    }
    return NotSent(FailureText(lastErr, stringify));
  }

  /** `addFriend`: nothing without a user id; otherwise the endpoints and
      bodies are tried as `RunEndpoints` describes. */
  method AddFriend(userId: Option<string>, respond: (string, Json) -> Answer, stringify: Json -> string)
    returns (r: Option<FriendOutcome>)
    ensures userId.None? || userId.value == "" ==> r.None?
    ensures userId.Some? && userId.value != "" ==>
      r == Some(RunEndpoints(FriendEndpoints(IdJson(userId.value)), respond, stringify, None))
  {
    if userId.None? || userId.value == "" {
      return None;
    }
    var outcome := TryEndpoints(FriendEndpoints(IdJson(userId.value)), respond, stringify);
    return Some(outcome);
  }

  /** The request is reported sent only when some endpoint answered 200 or
      201 to some body. */
  lemma {:induction false} SentNeedsAcceptance(eps: seq<Endpoint>, respond: (string, Json) -> Answer,
                                               stringify: Json -> string, lastErr: Option<Answer>)
    requires RunEndpoints(eps, respond, stringify, lastErr) == RequestSent
    ensures exists i, j :: (0 <= i < |eps| && 0 <= j < |eps[i].bodies| &&
      respond(eps[i].url, eps[i].bodies[j]) in {Resolved(200), Resolved(201)})
  {
    if eps != [] {
      var p := RunBodies(eps[0].url, eps[0].bodies, respond, stringify, lastErr);
      if p.outcome.Some? {
        var j := BodiesSentNeedsAcceptance(eps[0].url, eps[0].bodies, respond, stringify, lastErr);
      } else {
        SentNeedsAcceptance(eps[1..], respond, stringify, p.lastErr);
        var i, j :| 0 <= i < |eps[1..]| && 0 <= j < |eps[1..][i].bodies| &&
          respond(eps[1..][i].url, eps[1..][i].bodies[j]) in {Resolved(200), Resolved(201)};
        assert eps[i + 1] == eps[1..][i];
      }
    }
  }

  /** Within one endpoint: an outcome of `RequestSent` names the body that
      was accepted. */
  lemma {:induction false} BodiesSentNeedsAcceptance(url: string, bodies: seq<Json>, respond: (string, Json) -> Answer,
                                                     stringify: Json -> string, lastErr: Option<Answer>)
    returns (j: nat)
    requires RunBodies(url, bodies, respond, stringify, lastErr).outcome == Some(RequestSent)
    ensures j < |bodies| && respond(url, bodies[j]) in {Resolved(200), Resolved(201)}
  {
    var a := respond(url, bodies[0]);
    var err := if a.Rejected? then Some(a) else lastErr;
    match StepOf(a, stringify) {
      case Stop(o) => j := 0;
      case NextEndpoint => assert false;
      case NextBody =>
        var k := BodiesSentNeedsAcceptance(url, bodies[1..], respond, stringify, err);
        j := k + 1;
    }
  }

  /** When no answer stops the attempts, the request is reported not sent. */
  lemma {:induction false} NoStopMeansNotSent(eps: seq<Endpoint>, respond: (string, Json) -> Answer,
                                              stringify: Json -> string, lastErr: Option<Answer>)
    requires forall i, j :: 0 <= i < |eps| && 0 <= j < |eps[i].bodies| ==>
      !StepOf(respond(eps[i].url, eps[i].bodies[j]), stringify).Stop?
    ensures RunEndpoints(eps, respond, stringify, lastErr).NotSent?
  {
    if eps != [] {
      BodiesNoStop(eps[0].url, eps[0].bodies, respond, stringify, lastErr);
      var p := RunBodies(eps[0].url, eps[0].bodies, respond, stringify, lastErr);
      forall i, j | 0 <= i < |eps[1..]| && 0 <= j < |eps[1..][i].bodies|
        ensures !StepOf(respond(eps[1..][i].url, eps[1..][i].bodies[j]), stringify).Stop?
      {
        assert eps[1..][i] == eps[i + 1];
      }
      NoStopMeansNotSent(eps[1..], respond, stringify, p.lastErr);
    }
  }

  lemma {:induction false} BodiesNoStop(url: string, bodies: seq<Json>, respond: (string, Json) -> Answer,
                                        stringify: Json -> string, lastErr: Option<Answer>)
    requires forall j :: 0 <= j < |bodies| ==> !StepOf(respond(url, bodies[j]), stringify).Stop?
    ensures RunBodies(url, bodies, respond, stringify, lastErr).outcome.None?
  {
    if bodies != [] {
      var a := respond(url, bodies[0]);
      var err := if a.Rejected? then Some(a) else lastErr;
      assert !StepOf(a, stringify).Stop?;
      forall j | 0 <= j < |bodies[1..]| ensures !StepOf(respond(url, bodies[1..][j]), stringify).Stop? {
        assert bodies[1..][j] == bodies[j + 1];
      }
      BodiesNoStop(url, bodies[1..], respond, stringify, err);
    }
  }

  /** A server error on an endpoint's first body leaves that endpoint: the
      other bodies are not tried there. */
  lemma ServerErrorLeavesEndpoint(url: string, bodies: seq<Json>, respond: (string, Json) -> Answer,
                                  stringify: Json -> string, lastErr: Option<Answer>, status: int, data: Option<Json>)
    requires bodies != [] && respond(url, bodies[0]) == Rejected(Some(status), data) && status >= 500
    ensures RunBodies(url, bodies, respond, stringify, lastErr) == Progress(None, Some(Rejected(Some(status), data)))
  {
  }

  /** A conflict on the first attempt ends the request as already sent. */
  lemma ConflictFirstIsAlreadySent(userId: string, respond: (string, Json) -> Answer, stringify: Json -> string)
    requires respond("/api/friends/requests/", Obj1("to_user_id", IdJson(userId))) == Rejected(Some(409), None)
    ensures RunEndpoints(FriendEndpoints(IdJson(userId)), respond, stringify, None) == AlreadySent
  {
  }
}
