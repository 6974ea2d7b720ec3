/** The direct messages screen
    (frontend/src/components/messages/PersonalMessages.tsx): its own reading
    of server records, the conversation list that moves a conversation to
    the top when a message arrives, the search filters, the count of
    incoming friend requests, the id of a conversation found on the server,
    and sending. */
module PersonalMessages {
  import opened Wrappers
  import opened Text
  import opened Json
  import opened ChatMessages
  import ChatInterface

  // ---------------------------------------------------------------------
  // From a server record to a screen message

  /** The places after those the group chat reads: the sender and the
      sending user, each as an id or as an object with an id. */
  const SenderSources: seq<AuthorSource> :=
    [Field("sender_id"), FieldOrItsId("sender"), Field("from_user_id"), FieldOrItsId("from_user")]

  /** `pickAuthorId` here: author_id, author(.id), user_id, user, sender_id,
      sender(.id), from_user_id, from_user(.id). */
  const DmAuthorSources: seq<AuthorSource> := ChatInterface.AuthorSources + SenderSources

  /** Where the group chat finds an author this screen finds the same one;
      only where it finds none are the sender fields read. */
  lemma DmAuthorExtendsChat(msg: Json)
    ensures PickAuthorId(msg, ChatInterface.AuthorSources).Some? ==>
      PickAuthorId(msg, DmAuthorSources) == PickAuthorId(msg, ChatInterface.AuthorSources)
    ensures PickAuthorId(msg, ChatInterface.AuthorSources).None? ==>
      PickAuthorId(msg, DmAuthorSources) == PickAuthorId(msg, SenderSources)
  {
    FirstPresentAppend(msg, ChatInterface.AuthorSources, SenderSources);
  }

  /** `(attachmentUrl || attachmentName || "").toLowerCase()`. */
  function KindSource(url: Option<string>, name: string): string {
    Lower(if url.Some? && url.value != "" then url.value else name)
  }

  /** The sources of the two screens are the same text. */
  lemma KindSourcesAgree(url: Option<string>, name: string)
    ensures KindSource(url, name) == ChatInterface.KindSource(url, name)
  {
    if url.Some? && url.value != "" {
      assert Lower(url.value) != "" by { assert |Lower(url.value)| == |url.value|; }
    } else {
      assert Lower(if url.Some? then url.value else "") == "" by {
        assert |Lower(if url.Some? then url.value else "")| == 0;
      }
    }
  }

  /** `guessAttachmentKind` as written here: a MIME type wins; then the
      image, video and audio extensions, video before audio; then a file if
      there is an address. */
  function GuessKindAsWritten(url: Option<string>, name: string, mime: Option<string>): (r: AttachmentKind)
    ensures MimeKind(mime).Some? ==> r == MimeKind(mime).value
    ensures r == FileKind ==> url.Some? && url.value != ""
    ensures r == NoKind ==> url.None? || url.value == ""
    ensures MimeKind(mime).None? ==>
      var src := KindSource(url, name);
      var img, vid, aud := HasExtension(src, ImageExtensions), HasExtension(src, VideoExtensions),
                           HasExtension(src, AudioExtensions);
      (img ==> r == Image) && (!img && vid ==> r == Video) && (!img && !vid && aud ==> r == Audio) &&
      (!img && !vid && !aud ==>
         (r == FileKind <==> url.Some? && url.value != "") && (r == NoKind <==> url.None? || url.value == ""))
  {
    var src := KindSource(url, name);
    if MimeKind(mime).Some? then MimeKind(mime).value
    else if HasExtension(src, ImageExtensions) then Image
    else if HasExtension(src, VideoExtensions) then Video
    else if HasExtension(src, AudioExtensions) then Audio
    else if url.Some? && url.value != "" then FileKind
    else NoKind
  }

  /** `guessAttachmentKind` as the group chat has it, without the
      attachment-type step since this screen passes none: audio before
      video, so that a recorded voice note shows as audio. */
  function GuessKind(url: Option<string>, name: string, mime: Option<string>): (r: AttachmentKind)
    ensures r == ChatInterface.GuessAttachmentKind(url, "", name, mime)
    ensures MimeKind(mime).Some? ==> r == MimeKind(mime).value
  {
    KindSourcesAgree(url, name);
    var src := KindSource(url, name);
    if MimeKind(mime).Some? then MimeKind(mime).value
    else if HasExtension(src, ImageExtensions) then Image
    else if HasExtension(src, AudioExtensions) then Audio
    else if HasExtension(src, VideoExtensions) then Video
    else if url.Some? && url.value != "" then FileKind
    else NoKind
  }

  /** The last two characters of a text ending in `.e`. */
  lemma LastTwo(src: string, e: string)
    requires |e| >= 2 && EndsWith(src, "." + e)
    ensures src[|src| - 1] == e[|e| - 1] && src[|src| - 2] == e[|e| - 2]
  {
    var x := "." + e;
    assert src[|src| - |x|..][|x| - 1] == src[|src| - 1];
    assert src[|src| - |x|..][|x| - 2] == src[|src| - 2];
  }

  /** How the video extensions end: `webm`, or in `4`, or in `v` after
      something other than `a`. */
  lemma VideoEndings(v: string)
    requires v in VideoExtensions
    ensures |v| >= 3
    ensures v == "webm" || v[|v| - 1] == '4' || (v[|v| - 1] == 'v' && v[|v| - 2] != 'a')
  {
  }

  /** How the audio extensions end: `webm`, or in `av`, or in none of `4`,
      `v` and `m`. */
  lemma AudioEndings(a: string)
    requires a in AudioExtensions
    ensures |a| >= 3
    ensures a == "webm" || (a[|a| - 1] == 'v' && a[|a| - 2] == 'a') ||
      (a[|a| - 1] != '4' && a[|a| - 1] != 'v' && a[|a| - 1] != 'm')
  {
  }

  /** A video and an audio extension with the same last two letters are
      both `webm`. */
  lemma SharedEndingIsWebm(v: string, a: string)
    requires v in VideoExtensions && a in AudioExtensions && |v| >= 2 && |a| >= 2
    requires v[|v| - 1] == a[|a| - 1] && v[|v| - 2] == a[|a| - 2]
    ensures v == "webm"
  {
    VideoEndings(v);
    AudioEndings(a);
  }

  lemma EndsWithWebm(src: string, v: string)
    requires v == "webm" && EndsWith(src, "." + v)
    ensures EndsWith(src, ".webm")
  {
  }

  /** `webm` is the only extension that is both a video and an audio one:
      no other pair of them shares its last two letters. */
  lemma VideoAndAudioIsWebm(src: string)
    requires HasExtension(src, VideoExtensions) && HasExtension(src, AudioExtensions)
    ensures EndsWith(src, ".webm")
  {
    var v :| v in VideoExtensions && EndsWith(src, "." + v);
    var a :| a in AudioExtensions && EndsWith(src, "." + a);
    VideoEndings(v);
    AudioEndings(a);
    LastTwo(src, v);
    LastTwo(src, a);
    SharedEndingIsWebm(v, a);
    EndsWithWebm(src, v);
  }

  /** The two orders disagree only on a `.webm` without a MIME type. */
  lemma KindsDifferOnlyOnWebm(url: Option<string>, name: string, mime: Option<string>)
    requires GuessKindAsWritten(url, name, mime) != GuessKind(url, name, mime)
    ensures MimeKind(mime).None? && EndsWith(KindSource(url, name), ".webm")
    ensures GuessKindAsWritten(url, name, mime) == Video && GuessKind(url, name, mime) == Audio
  {
    VideoAndAudioIsWebm(KindSource(url, name));
  }

  /** A voice note, whose file the recorder names `voice-<time>.webm`, shows
      as a video here when its record carries no MIME type; corrected, and
      in the group chat, it is audio. */
  lemma WebmVoiceNoteAsWritten(url: Option<string>, name: string)
    requires EndsWith(KindSource(url, name), ".webm")
    ensures GuessKindAsWritten(url, name, None) == Video
    ensures GuessKind(url, name, None) == Audio
  {
    WebmIsVideoAsWritten(url, name);
    KindSourcesAgree(url, name);
    ChatInterface.WebmIsAudio(url, "", name);
  }

  /** As written, a `.webm` source without a MIME type is a video. */
  lemma WebmIsVideoAsWritten(url: Option<string>, name: string)
    requires EndsWith(KindSource(url, name), ".webm")
    ensures GuessKindAsWritten(url, name, None) == Video
  {
    var src := KindSource(url, name);
    ChatInterface.WebmIsNoImage(src);
    var webm: string := "webm";
    assert webm == VideoExtensions[1];
    assert "." + webm == ".webm";
    assert HasExtension(src, VideoExtensions);
  }

  /** `mapApiToUi` of this screen: the name is `display_name || username ||
      "User"`, untrimmed; no room and no attachment type. */
  function MapApiToUi(m: Json, currentUserId: Option<string>, nowIso: string): (r: UIMessage)
    ensures r.authorId == PickAuthorId(m, DmAuthorSources)
    ensures r.isOwn <==> currentUserId.Some? && r.authorId == currentUserId
    ensures r.username == TextOr(Get(m, "display_name"), TextOr(Get(m, "username"), "User"))
    ensures r.room.None? && r.attachmentType == ""
    ensures r.attachmentName.Some? <==> OptJsTruthy(Get(m, "attachment_name"))
    ensures r.kind == GuessKind(r.attachmentUrl, TextOr(Get(m, "attachment_name"), ""), MetaMime(m))
    ensures r.id == OptJsString(Get(m, "id"))
    ensures r.content == TextOr(Get(m, "content"), "")
    ensures r.createdAt == TextOr(Get(m, "created_at"), nowIso)
    ensures r.attachmentUrl == TruthyText(Get(m, "attachment_url"))
    ensures r.attachmentName == TruthyText(Get(m, "attachment_name"))
  {
    var authorId := PickAuthorId(m, DmAuthorSources);
    var url := TruthyText(Get(m, "attachment_url"));
    var name := TextOr(Get(m, "attachment_name"), "");
    UIMessage(OptJsString(Get(m, "id")), None, authorId,
              TextOr(Get(m, "display_name"), TextOr(Get(m, "username"), "User")),
              TextOr(Get(m, "content"), ""), TextOr(Get(m, "created_at"), nowIso),
              IsOwn(authorId, currentUserId), url, "", TruthyText(Get(m, "attachment_name")),
              GuessKind(url, name, MetaMime(m)))
  }

  // ---------------------------------------------------------------------
  // Socket frames

  /** `/(^(chat\.)?message$|private\.message|room\.message)/i`. */
  predicate NamesMessage(t: string) {
    var l := Lower(t);
    l == "message" || l == "chat.message" || Contains(l, "private.message") || Contains(l, "room.message")
  }

  /** `payload?.data ?? payload`. */
  function RawOf(payload: Json): Json {
    if Nullish(Get(payload, "data")) then payload else Get(payload, "data").value
  }

  /** `(payload?.type ?? raw?.type ?? "").toString()`. */
  function FrameType(payload: Json): string {
    var t := Coalesce(Get(payload, "type"), Coalesce(Get(RawOf(payload), "type"), Some(JStr(""))));
    if t.Some? then JsString(t.value) else ""
  }

  /** A frame is a message when its type names one, or its raw record has
      an id and a text or an attachment.  Unlike the group chat, no room is
      required. */
  predicate IsMessageFrame(payload: Json) {
    var raw := RawOf(payload);
    var t := FrameType(payload);
    t == "message" || NamesMessage(t) ||
    (JsTruthy(raw) && !Nullish(Get(raw, "id")) &&
     (!Nullish(Get(raw, "content")) || OptJsTruthy(Get(raw, "attachment_url"))))
  }

  /** What a frame of the group chat takes for a message this screen takes
      for one too. */
  lemma MessageFramesIncludeChats(payload: Json)
    requires JsTruthy(payload) && ChatInterface.Classify(payload).MessageFrame?
    requires !Contains(Lower(ChatInterface.FrameType(payload)), "group.message")
    ensures IsMessageFrame(payload)
  {
  }

  // ---------------------------------------------------------------------
  // The conversation list

  /** A conversation in the list; `id` is the conversation's (in the friend
      list, the friend's user id). */
  datatype Contact = Contact(id: int, name: string, avatar: Option<string>, lastMessage: Option<string>,
                             lastMessageTime: Option<string>, unreadCount: int, isOnline: bool)

  /** `prev.findIndex(c => c.id === id)`. */
  function FindContact(prev: seq<Contact>, id: int): (r: Option<nat>)
    ensures r.Some? ==> (r.value < |prev| && prev[r.value].id == id &&
      forall j :: 0 <= j < r.value ==> prev[j].id != id)
    ensures r.None? <==> forall j :: 0 <= j < |prev| ==> prev[j].id != id
  {
    if prev == [] then None
    else if prev[0].id == id then Some(0)
    else
      var rest := FindContact(prev[1..], id);
      assert forall j :: 0 < j < |prev| ==> prev[j] == prev[1..][j - 1];
      if rest.None? then None else Some(rest.value + 1)
  }

  /** `Number(d.conversationId)`, `None` being `NaN`. */
  function ConversationOf(detail: Json): Option<int> {
    match Get(detail, "conversationId")
    case None => None
    case Some(v) => JsNumber(v)
  }

  /** The contact with its preview updated from the event: the new text
      unless empty, and the event's time or now. */
  function WithPreview(c: Contact, detail: Json, nowIso: string): (r: Contact)
    ensures r.id == c.id && r.name == c.name && r.unreadCount == c.unreadCount
    ensures OptJsTruthy(Get(detail, "text")) ==> r.lastMessage == Some(JsString(Get(detail, "text").value))
    ensures !OptJsTruthy(Get(detail, "text")) ==> r.lastMessage == c.lastMessage
    ensures OptJsTruthy(Get(detail, "created_at")) ==> r.lastMessageTime == Some(JsString(Get(detail, "created_at").value))
    ensures !OptJsTruthy(Get(detail, "created_at")) ==> r.lastMessageTime == Some(nowIso)
  {
    c.(lastMessage := if OptJsTruthy(Get(detail, "text")) then Some(JsString(Get(detail, "text").value)) else c.lastMessage,
       lastMessageTime := Some(TextOr(Get(detail, "created_at"), nowIso)))
  }

  /** The `humy:new-message` handler: for a conversation id that is a
      non-zero number and on the list, that conversation's preview is
      updated and it moves to the top, the others keeping their order;
      otherwise the list is unchanged. */
  function AfterNewMessage(prev: seq<Contact>, detail: Json, nowIso: string): (r: seq<Contact>)
    ensures |r| == |prev|
    ensures ConversationOf(detail).None? || ConversationOf(detail) == Some(0) ==> r == prev
    ensures ConversationOf(detail).Some? && FindContact(prev, ConversationOf(detail).value).None? ==> r == prev
    ensures ConversationOf(detail).Some? && ConversationOf(detail).value != 0 &&
            FindContact(prev, ConversationOf(detail).value).Some? ==>
      var i := FindContact(prev, ConversationOf(detail).value).value;
      r[0] == WithPreview(prev[i], detail, nowIso) && r[1..] == prev[..i] + prev[i + 1..]
  {
    var id := ConversationOf(detail);
    if id.None? || id.value == 0 then prev
    else match FindContact(prev, id.value)
      case None => prev
      case Some(i) =>
        [WithPreview(prev[i], detail, nowIso)] + (prev[..i] + prev[i + 1..])
  }

  function Ids(cs: seq<Contact>): (r: seq<int>)
    ensures |r| == |cs| && forall i :: 0 <= i < |cs| ==> r[i] == cs[i].id
  {
    seq(|cs|, i requires 0 <= i < |cs| => cs[i].id)
  }

  /** The handler reorders the list: the same conversations, each once as
      often as before. */
  lemma AfterNewMessageKeepsConversations(prev: seq<Contact>, detail: Json, nowIso: string)
    ensures multiset(Ids(AfterNewMessage(prev, detail, nowIso))) == multiset(Ids(prev))
  {
    var r := AfterNewMessage(prev, detail, nowIso);
    var id := ConversationOf(detail);
    if id.Some? && id.value != 0 && FindContact(prev, id.value).Some? {
      var i := FindContact(prev, id.value).value;
      assert Ids(r) == [prev[i].id] + Ids(prev[..i]) + Ids(prev[i + 1..]);
      assert Ids(prev) == Ids(prev[..i]) + [prev[i].id] + Ids(prev[i + 1..]);
    }
  }

  /** A second message in the conversation at the top leaves the order as
      it is. */
  lemma NewMessageAtTopKeepsOrder(prev: seq<Contact>, detail: Json, nowIso: string)
    requires prev != [] && ConversationOf(detail) == Some(prev[0].id) && prev[0].id != 0
    ensures AfterNewMessage(prev, detail, nowIso) == [WithPreview(prev[0], detail, nowIso)] + prev[1..]
  {
    assert FindContact(prev, prev[0].id) == Some(0);
  }

  /** The event detail the chat pane dispatches for a message. */
  function NewMessageDetail(conversationId: int, ui: UIMessage): (r: Json)
    ensures r.JObj? && r.fields.Keys == {"conversationId", "text", "created_at"}
    ensures Get(r, "conversationId") == Some(JNum(conversationId))
    ensures Get(r, "text") == Some(JStr(ui.content)) && Get(r, "created_at") == Some(JStr(ui.createdAt))
  {
    JObj(map["conversationId" := JNum(conversationId), "text" := JStr(ui.content),
             "created_at" := JStr(ui.createdAt)])
  }

  /** A message arriving in an open conversation that is on the list brings
      that conversation to the top. */
  lemma OpenConversationMovesUp(prev: seq<Contact>, conversationId: int, ui: UIMessage, nowIso: string)
    requires conversationId != 0 && FindContact(prev, conversationId).Some?
    ensures AfterNewMessage(prev, NewMessageDetail(conversationId, ui), nowIso)[0].id == conversationId
  {
    JsNumberValues(conversationId, false);
    assert ConversationOf(NewMessageDetail(conversationId, ui)) == Some(conversationId);
  }

  // ---------------------------------------------------------------------
  // Filters

  /** The name contains the query, ignoring case. */
  predicate NameMatches(c: Contact, query: string) { Contains(Lower(c.name), Lower(query)) }

  /** `filteredContacts` / `filteredFriends`. */
  function FilterByName(list: seq<Contact>, query: string): (r: seq<Contact>)
    ensures forall c :: c in r <==> c in list && NameMatches(c, query)
    ensures |r| <= |list|
    ensures (forall i :: 0 <= i < |list| ==> NameMatches(list[i], query)) ==> r == list
  {
    if list == [] then []
    else
      var rest := FilterByName(list[1..], query);
      assert forall c :: c in list <==> c == list[0] || c in list[1..];
      assert forall i :: 0 < i < |list| ==> list[i] == list[1..][i - 1];
      if NameMatches(list[0], query) then [list[0]] + rest else rest
  }

  /** An empty search keeps the whole list. */
  lemma EmptyQueryKeepsAll(list: seq<Contact>)
    ensures FilterByName(list, "") == list
  {
    forall i | 0 <= i < |list| ensures NameMatches(list[i], "") {
      ContainsEmpty(Lower(list[i].name));
    }
  }

  /** Upper and lower case in the query do not matter. */
  lemma QueryCaseIgnored(list: seq<Contact>, query: string)
    ensures FilterByName(list, Upper(query)) == FilterByName(list, Lower(query))
  {
    LowerOfUpper(query);
    if list != [] {
      QueryCaseIgnored(list[1..], query);
    }
  }

  /** Lower-casing forgets an upper-casing. */
  lemma LowerOfUpper(s: string)
    ensures Lower(Upper(s)) == Lower(Lower(s))
  {
    forall i | 0 <= i < |s| ensures Lower(Upper(s))[i] == Lower(Lower(s))[i] {
      LowerUpperChar(s[i]);
    }
  }

  lemma LowerUpperChar(c: char)
    ensures LowerChar(UpperChar(c)) == LowerChar(LowerChar(c))
  {
  }

  // ---------------------------------------------------------------------
  // Incoming friend requests

  /** `(r.status ?? "pending") === "pending" && r.to_user?.id === userId`;
      `userId` is `None` when it is `NaN`, which equals nothing. */
  predicate IsIncoming(r: Json, userId: Option<int>) {
    Coalesce(Get(r, "status"), Some(JStr("pending"))) == Some(JStr("pending")) &&
    userId.Some? && Get(r, "to_user").Some? && Get(Get(r, "to_user").value, "id") == Some(JNum(userId.value))
  }

  /** `incomingCount`: the pending requests addressed to the current user. */
  function IncomingCount(data: seq<Json>, userId: Option<int>): (r: nat)
    ensures r <= |data|
    ensures r == 0 <==> forall i :: 0 <= i < |data| ==> !IsIncoming(data[i], userId)
    ensures r == |data| <==> forall i :: 0 <= i < |data| ==> IsIncoming(data[i], userId)
  {
    if data == [] then 0
    else
      assert forall i :: 0 < i < |data| ==> data[i] == data[1..][i - 1];
      (if IsIncoming(data[0], userId) then 1 else 0) + IncomingCount(data[1..], userId)
  }

  /** Counting a list in two parts adds the counts. */
  lemma {:induction false} IncomingCountAppend(a: seq<Json>, b: seq<Json>, userId: Option<int>)
    ensures IncomingCount(a + b, userId) == IncomingCount(a, userId) + IncomingCount(b, userId)
  {
    if a == [] {
      assert a + b == b;
    } else {
      assert (a + b)[0] == a[0];
      assert (a + b)[1..] == a[1..] + b;
      IncomingCountAppend(a[1..], b, userId);
    }
  }

  /** A request with no status is pending. */
  lemma MissingStatusIsPending(me: int)
    ensures IsIncoming(JObj(map["to_user" := Obj1("id", JNum(me))]), Some(me))
  {
  }

  // ---------------------------------------------------------------------
  // Finding a conversation

  const ConversationIdSources: seq<AuthorSource> :=
    [Field("id"), Field("conversation_id"), Field("room_id"), Field("room"), Field("chat_id")]

  /** `data.results[0]` when `results` is an array, else `data[0]` when
      `data` is one, else `data`. */
  function FirstItem(data: Json): Option<Json> {
    var results := Get(data, "results");
    if results.Some? && results.value.JArr? then
      (if results.value.items == [] then None else Some(results.value.items[0]))
    else if data.JArr? then
      (if data.items == [] then None else Some(data.items[0]))
    else Some(data)
  }

  /** `extractId`: the first item's `id ?? conversation_id ?? room_id ??
      room ?? chat_id`, as a number; `None` for `null` and for `NaN`. */
  function ExtractId(data: Json): (r: Option<int>)
    ensures !JsTruthy(data) ==> r.None?
    ensures r.Some? ==> FirstItem(data).Some? && FirstPresent(FirstItem(data).value, ConversationIdSources).Some?
    ensures r.Some? ==> r == JsNumber(FirstPresent(FirstItem(data).value, ConversationIdSources).value)
  {
    if !JsTruthy(data) then None
    else match FirstItem(data)
      case None => None
      case Some(item) =>
        if !JsTruthy(item) then None
        else match FirstPresent(item, ConversationIdSources)
          case None => None
          case Some(id) => JsNumber(id)
  }

  /** A paginated reply gives its first result's id. */
  lemma ExtractIdFromResults(n: int, rest: seq<Json>)
    ensures ExtractId(JObj(map["results" := JArr([Obj1("id", JNum(n))] + rest)])) == Some(n)
  {
    var item := Obj1("id", JNum(n));
    assert FirstItem(JObj(map["results" := JArr([item] + rest)])) == Some(item);
    assert ConversationIdSources[0] == Field("id");
  }

  /** An item without `id` is read through `conversation_id`. */
  lemma ExtractIdFallsBack(n: int)
    ensures ExtractId(JArr([Obj1("conversation_id", JNum(n))])) == Some(n)
  {
    var item := Obj1("conversation_id", JNum(n));
    assert FirstItem(JArr([item])) == Some(item);
    assert ConversationIdSources[0] == Field("id") && ConversationIdSources[1] == Field("conversation_id");
    assert Get(item, "id").None?;
  }

  // ---------------------------------------------------------------------
  // The chat pane

  /** The name under one's own optimistic message. */
  function OwnName(user: Option<Json>): (r: string)
    ensures r != ""
  {
    var name := if user.Some? then FirstTruthy(user.value, ["nickname", "display_name", "username", "email"]) else None;
    if name.Some? && name.value != "" then name.value else "User"
  }

  /** The message shown at once under its temporary id, before the server
      answers. */
  function Optimistic(tempId: string, nowIso: string, currentUserId: Option<string>, user: Option<Json>,
                      text: string): UIMessage {
    UIMessage(tempId, None, currentUserId, OwnName(user), text, nowIso, true, None, "", None, NoKind)
  }

  /** The frame sent over an open socket, the temporary id under both spellings. */
  function SocketFrame(text: string, tempId: string): Json {
    JObj(map["type" := JStr("message"), "content" := JStr(text),
             "tempId" := JStr(tempId), "temp_id" := JStr(tempId)])
  }

  /** The body posted when no socket is open. */
  function PostBody(contactId: int, text: string): Json {
    JObj(map["room" := JNum(contactId), "content" := JStr(text)])
  }

  /** One open conversation: the feed, the input, what was sent on the
      socket or posted, and the `humy:new-message` events dispatched. */
  class DirectChat {
    const contactId: int
    const feed: MessageFeed
    var input: string
    var outbox: seq<Json>
    var posts: seq<Json>
    var events: seq<Json>

    constructor (contactId: int)
      ensures this.contactId == contactId && fresh(feed)
      ensures feed.messages == [] && feed.seen == {}
      ensures input == "" && outbox == [] && posts == [] && events == []
    {
      this.contactId := contactId;
      feed := new MessageFeed();
      input := "";
      outbox := [];
      posts := [];
      events := [];
    }

    /** `ws.onmessage`: a message frame whose server id was seen is
        dropped; otherwise it goes through the feed and the conversation
        list is told.  Other frames are ignored. */
    method OnFrame(payload: Json, currentUserId: Option<string>, nowIso: string, timeOf: string -> Option<int>)
      modifies feed, this`events
      ensures !IsMessageFrame(payload) ==>
        feed.messages == old(feed.messages) && feed.seen == old(feed.seen) && events == old(events)
      ensures IsMessageFrame(payload) ==>
        var raw := RawOf(payload);
        var ui := MapApiToUi(raw, currentUserId, nowIso);
        if ui.id != "" && ui.id in old(feed.seen) then
          feed.messages == old(feed.messages) && feed.seen == old(feed.seen) && events == old(events)
        else
          feed.messages == Merge(old(feed.messages), ui, TempEcho(raw), timeOf) &&
          feed.seen == old(feed.seen) + (if ui.id != "" then {ui.id} else {}) &&
          events == old(events) + [NewMessageDetail(contactId, ui)]
    {
      if !IsMessageFrame(payload) {
        return;
      }
      var raw := RawOf(payload);
      var ui := MapApiToUi(raw, currentUserId, nowIso);
      if ui.id != "" && ui.id in feed.seen {
        return;
      }
      feed.Receive(ui, TempEcho(raw), timeOf);
      events := events + [NewMessageDetail(contactId, ui)];
    }

    /** `handleSend`: a blank input does nothing.  Otherwise the trimmed text
        is shown at once under the temporary id and the input cleared; with
        an open socket the text goes there with the id to echo; without one
        the optimistic message is removed and the text posted, the server's
        record being appended (and the list told) on success. */
    method HandleSend(tempId: string, nowIso: string, currentUserId: Option<string>, user: Option<Json>,
                      socketOpen: bool, reply: Option<Json>)
      modifies this`input, this`outbox, this`posts, this`events, feed`messages
      ensures Trim(old(input)) == "" ==>
        input == old(input) && feed.messages == old(feed.messages) && outbox == old(outbox) &&
        posts == old(posts) && events == old(events)
      ensures Trim(old(input)) != "" ==> input == ""
      ensures Trim(old(input)) != "" && socketOpen ==>
        feed.messages == old(feed.messages) + [Optimistic(tempId, nowIso, currentUserId, user, Trim(old(input)))] &&
        posts == old(posts) && events == old(events) &&
        outbox == old(outbox) + [SocketFrame(Trim(old(input)), tempId)]
      ensures Trim(old(input)) != "" && !socketOpen ==>
        outbox == old(outbox) && posts == old(posts) + [PostBody(contactId, Trim(old(input)))]
      ensures Trim(old(input)) != "" && !socketOpen && reply.Some? ==>
        var shown := RemoveId(old(feed.messages) + [Optimistic(tempId, nowIso, currentUserId, user, Trim(old(input)))], tempId);
        var ui := MapApiToUi(reply.value, currentUserId, nowIso);
        feed.messages == shown + [ui] && events == old(events) + [NewMessageDetail(contactId, ui)]
      ensures Trim(old(input)) != "" && !socketOpen && reply.None? ==>
        feed.messages == RemoveId(old(feed.messages) + [Optimistic(tempId, nowIso, currentUserId, user, Trim(old(input)))], tempId) &&
        events == old(events)
    {
      var text := Trim(input);
      if text != "" {
        SendText(text, tempId, nowIso, currentUserId, user, socketOpen, reply);
      }
    }

    /** What `handleSend` does with a text that is not blank. */
    method SendText(text: string, tempId: string, nowIso: string, currentUserId: Option<string>, user: Option<Json>,
                    socketOpen: bool, reply: Option<Json>)
      modifies this`input, this`outbox, this`posts, this`events, feed`messages
      ensures input == ""
      ensures outbox == old(outbox) + (if socketOpen then [SocketFrame(text, tempId)] else [])
      ensures posts == old(posts) + (if socketOpen then [] else [PostBody(contactId, text)])
      ensures var shown := old(feed.messages) + [Optimistic(tempId, nowIso, currentUserId, user, text)];
        var ui := if reply.Some? then [MapApiToUi(reply.value, currentUserId, nowIso)] else [];
        feed.messages == (if socketOpen then shown else RemoveId(shown, tempId) + ui) &&
        events == old(events) + (if !socketOpen && reply.Some? then [NewMessageDetail(contactId, ui[0])] else [])
    {
      feed.messages := feed.messages + [Optimistic(tempId, nowIso, currentUserId, user, text)];
      input := "";
      var ok := SendViaWs(text, tempId, socketOpen);
      if !ok {
        feed.messages := RemoveId(feed.messages, tempId);
        PostViaHttp(text, currentUserId, nowIso, reply);
      }
    }

    /** `sendViaWS`: over an open socket the text goes out with the id to
        echo under both spellings; without one nothing is sent. */
    method SendViaWs(text: string, tempId: string, socketOpen: bool) returns (ok: bool)
      modifies this`outbox
      ensures ok == socketOpen
      ensures outbox == old(outbox) + (if socketOpen then [SocketFrame(text, tempId)] else [])
    {
      ok := socketOpen;
      if socketOpen {
        outbox := outbox + [SocketFrame(text, tempId)];
      }
    }

    /** `postViaHTTP`: the text is posted to the conversation; on success
        the server's record is appended and the conversation list told. */
    method PostViaHttp(text: string, currentUserId: Option<string>, nowIso: string, reply: Option<Json>)
      modifies this`posts, this`events, feed`messages
      ensures posts == old(posts) + [PostBody(contactId, text)]
      ensures reply.Some? ==>
        var ui := MapApiToUi(reply.value, currentUserId, nowIso);
        feed.messages == old(feed.messages) + [ui] && events == old(events) + [NewMessageDetail(contactId, ui)]
      ensures reply.None? ==> feed.messages == old(feed.messages) && events == old(events)
    {
      posts := posts + [PostBody(contactId, text)];
      if reply.Some? {
        var ui := MapApiToUi(reply.value, currentUserId, nowIso);
        feed.messages := feed.messages + [ui];
        events := events + [NewMessageDetail(contactId, ui)];
      }
    }
  }
}
