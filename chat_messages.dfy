/** What the group chat (frontend/src/components/chat/ChatInterface.tsx) and
    the direct messages (frontend/src/components/messages/PersonalMessages.tsx)
    share, written identically in both: the message as the screen holds it,
    the author id read from a server record, attachment kinds by MIME type
    and extension, and the reducer that merges a message arriving over the
    socket into the list.  `new Date(text).getTime()` is the parameter
    `timeOf`, `None` standing for `NaN`. */
module ChatMessages {
  import opened Wrappers
  import opened Text
  import opened Json

  datatype AttachmentKind = NoKind | Image | Video | Audio | FileKind

  /** A message on the screen.  `room` and `attachmentType` are kept by the
      group chat only (`None` and `""` in a direct conversation). */
  datatype UIMessage = UIMessage(
    id: string, room: Option<string>, authorId: Option<string>, username: string, content: string,
    createdAt: string, isOwn: bool, attachmentUrl: Option<string>, attachmentType: string,
    attachmentName: Option<string>, kind: AttachmentKind)

  // ---------------------------------------------------------------------
  // Reading a server record

  /** `x || ''` on a text field. */
  function TextOr(o: Option<Json>, fallback: string): (r: string)
    ensures OptJsTruthy(o) ==> r == JsString(o.value)
    ensures !OptJsTruthy(o) ==> r == fallback
  {
    if OptJsTruthy(o) then JsString(o.value) else fallback
  }

  /** A place an author id may be found. */
  datatype AuthorSource =
    | Field(key: string)
      /** `typeof v === 'object' && v ? v.id : v` for `v = msg[key]` */
    | FieldOrItsId(key: string)

  function SourceValue(msg: Json, s: AuthorSource): (r: Option<Json>)
    ensures s.Field? ==> r == Get(msg, s.key)
    ensures s.FieldOrItsId? && Get(msg, s.key).Some? && Get(msg, s.key).value.JObj? ==>
      r == Get(Get(msg, s.key).value, "id")
    ensures s.FieldOrItsId? && !(Get(msg, s.key).Some? && (Get(msg, s.key).value.JObj? || Get(msg, s.key).value.JArr?)) ==>
      r == Get(msg, s.key)
  {
    match s
    case Field(k) => Get(msg, k)
    case FieldOrItsId(k) =>
      var v := Get(msg, k);
      if v.Some? && (v.value.JObj? || v.value.JArr?) then Get(v.value, "id") else v
  }

  /** `s1 ?? s2 ?? ... ?? null`: the first source that is neither `null`
      nor missing. */
  function FirstPresent(msg: Json, sources: seq<AuthorSource>): (r: Option<Json>)
    ensures r.None? <==> forall i :: 0 <= i < |sources| ==> Nullish(SourceValue(msg, sources[i]))
    ensures r.Some? ==> !r.value.JNull? && exists i :: 0 <= i < |sources| && SourceValue(msg, sources[i]) == r
  {
    if sources == [] then None
    else if !Nullish(SourceValue(msg, sources[0])) then SourceValue(msg, sources[0])
    else
      var rest := FirstPresent(msg, sources[1..]);
      assert forall i :: 0 < i < |sources| ==> sources[i] == sources[1..][i - 1];
      assert rest.Some? ==> exists i :: 0 <= i < |sources| && SourceValue(msg, sources[i]) == rest by {
        if rest.Some? {
          var j :| 0 <= j < |sources[1..]| && SourceValue(msg, sources[1..][j]) == rest;
          assert sources[j + 1] == sources[1..][j];
        }
      }
      rest
  }

  /** Sources are tried in order: what a longer list finds first is what its
      beginning finds, if that finds anything. */
  lemma {:induction false} FirstPresentAppend(msg: Json, a: seq<AuthorSource>, b: seq<AuthorSource>)
    ensures FirstPresent(msg, a + b) == if FirstPresent(msg, a).Some? then FirstPresent(msg, a) else FirstPresent(msg, b)
  {
    if a == [] {
      assert a + b == b;
    } else {
      assert (a + b)[0] == a[0];
      assert (a + b)[1..] == a[1..] + b;
      FirstPresentAppend(msg, a[1..], b);
    }
  }

  /** `pickAuthorId`: the first present source as text, if any. */
  function PickAuthorId(msg: Json, sources: seq<AuthorSource>): (r: Option<string>)
    ensures r.None? <==> FirstPresent(msg, sources).None?
    ensures r.Some? ==> r.value == JsString(FirstPresent(msg, sources).value)
  {
    match FirstPresent(msg, sources)
    case None => None
    case Some(v) => Some(JsString(v))
  }

  /** `isOwn`: known on both sides and equal. */
  predicate IsOwn(authorId: Option<string>, currentUserId: Option<string>) {
    currentUserId.Some? && authorId.Some? && authorId.value == currentUserId.value
  }

  /** `(m.meta as any)?.mime || null`. */
  function MetaMime(m: Json): (r: Option<string>)
    ensures r.Some? ==> Get(m, "meta").Some? && OptJsTruthy(Get(Get(m, "meta").value, "mime"))
    ensures Get(m, "meta").None? ==> r.None?
  {
    match Get(m, "meta")
    case None => None
    case Some(meta) =>
      if OptJsTruthy(Get(meta, "mime")) then Some(JsString(Get(meta, "mime").value)) else None
  }

  /** `x || null` on an optional text field. */
  function TruthyText(o: Option<Json>): (r: Option<string>)
    ensures r.Some? <==> OptJsTruthy(o)
    ensures r.Some? ==> r.value == JsString(o.value)
  {
    if OptJsTruthy(o) then Some(JsString(o.value)) else None
  }

  /** `a || b || ...` over the given keys of `raw`: the first truthy value,
      as text, or `None`. */
  function FirstTruthy(raw: Json, keys: seq<string>): (r: Option<string>)
    ensures r.None? <==> forall i :: 0 <= i < |keys| ==> !OptJsTruthy(Get(raw, keys[i]))
    ensures r.Some? ==> exists i :: 0 <= i < |keys| && OptJsTruthy(Get(raw, keys[i])) && r.value == JsString(Get(raw, keys[i]).value)
  {
    if keys == [] then None
    else if OptJsTruthy(Get(raw, keys[0])) then Some(JsString(Get(raw, keys[0]).value))
    else
      var rest := FirstTruthy(raw, keys[1..]);
      assert forall i :: 0 < i < |keys| ==> keys[i] == keys[1..][i - 1];
      assert rest.Some? ==> exists i :: 0 <= i < |keys| && OptJsTruthy(Get(raw, keys[i])) && rest.value == JsString(Get(raw, keys[i]).value) by {
        if rest.Some? {
          var j :| 0 <= j < |keys[1..]| && OptJsTruthy(Get(raw, keys[1..][j])) && rest.value == JsString(Get(raw, keys[1..][j]).value);
          assert keys[j + 1] == keys[1..][j];
        }
      }
      rest
  }

  const EchoKeys: seq<string> := ["tempId", "temp_id", "client_id", "clientId", "echo_id"]

  /** `raw.tempId || raw.temp_id || raw.client_id || raw.clientId ||
      raw.echo_id`: the temporary id a server message echoes. */
  function TempEcho(raw: Json): (r: Option<string>)
    ensures r.None? <==> forall i :: 0 <= i < |EchoKeys| ==> !OptJsTruthy(Get(raw, EchoKeys[i]))
    ensures OptJsTruthy(Get(raw, "tempId")) ==> r == Some(JsString(Get(raw, "tempId").value))
  {
    FirstTruthy(raw, EchoKeys)
  }

  /** `prev.filter(m => m.id !== id)`. */
  function RemoveId(prev: seq<UIMessage>, id: string): (r: seq<UIMessage>)
    ensures |r| <= |prev|
    ensures forall j :: 0 <= j < |r| ==> r[j].id != id
    ensures (forall j :: 0 <= j < |prev| ==> prev[j].id != id) ==> r == prev
  {
    if prev == [] then []
    else
      var rest := RemoveId(prev[1..], id);
      if prev[0].id != id then [prev[0]] + rest else rest
  }

  /** Exactly the messages with another id remain. */
  lemma {:induction false} RemoveIdMembers(prev: seq<UIMessage>, id: string)
    ensures forall m :: m in RemoveId(prev, id) <==> m in prev && m.id != id
  {
    if prev != [] {
      RemoveIdMembers(prev[1..], id);
      assert forall m :: m in prev <==> m == prev[0] || m in prev[1..];
    }
  }

  /** Removing an id from a list that ends with a message bearing it is
      removing it from the rest of the list. */
  lemma {:induction false} RemoveIdAppend(prev: seq<UIMessage>, m: UIMessage)
    ensures RemoveId(prev + [m], m.id) == RemoveId(prev, m.id)
  {
    if prev == [] {
      assert [] + [m] == [m];
    } else {
      assert (prev + [m])[0] == prev[0];
      assert (prev + [m])[1..] == prev[1..] + [m];
      RemoveIdAppend(prev[1..], m);
    }
  }

  // ---------------------------------------------------------------------
  // Attachment kinds

  const ImageExtensions: seq<string> := ["png", "jpg", "jpeg", "webp", "gif", "bmp", "avif"]
  const AudioExtensions: seq<string> := ["mp3", "m4a", "aac", "ogg", "opus", "wav", "webm"]
  const VideoExtensions: seq<string> := ["mp4", "webm", "mov", "m4v", "ogv"]

  /** `/\.(e1|e2|...)$/.test(src)`. */
  predicate HasExtension(src: string, extensions: seq<string>) {
    exists e :: e in extensions && EndsWith(src, "." + e)
  }

  /** The kind a MIME type names, checked audio, video, image. */
  function MimeKind(mime: Option<string>): (r: Option<AttachmentKind>)
    ensures r.Some? ==> mime.Some? && mime.value != ""
    ensures mime.Some? && StartsWith(Lower(mime.value), "audio/") ==> r == Some(Audio)
    ensures r.Some? ==> r.value in {Audio, Video, Image}
  {
    if mime.None? || mime.value == "" then None
    else
      var m := Lower(mime.value);
      if StartsWith(m, "audio/") then Some(Audio)
      else if StartsWith(m, "video/") then Some(Video)
      else if StartsWith(m, "image/") then Some(Image)
      else None
  }

  // ---------------------------------------------------------------------
  // The merge reducer

  /** `^\d+$`: a server id, as opposed to a temporary one. */
  predicate NumericId(id: string) { id != "" && AllDigits(id) }

  /** `prev.findIndex(m => m.id === id)`. */
  function FindId(prev: seq<UIMessage>, id: string): (r: Option<nat>)
    ensures r.Some? ==> (r.value < |prev| && prev[r.value].id == id &&
      forall j :: 0 <= j < r.value ==> prev[j].id != id)
    ensures r.None? <==> forall j :: 0 <= j < |prev| ==> prev[j].id != id
  {
    if prev == [] then None
    else if prev[0].id == id then Some(0)
    else
      var rest := FindId(prev[1..], id);
      assert forall j :: 0 < j < |prev| ==> prev[j] == prev[1..][j - 1];
      if rest.None? then None else Some(rest.value + 1)
  }

  function Abs(x: int): nat { if x < 0 then -x else x }

  /** An own message not yet confirmed by the server, with the same trimmed
      text, sent less than ten seconds apart. */
  predicate NearDuplicate(m: UIMessage, ui: UIMessage, timeOf: string -> Option<int>) {
    m.isOwn && !NumericId(m.id) && Trim(m.content) == Trim(ui.content) &&
    timeOf(m.createdAt).Some? && timeOf(ui.createdAt).Some? &&
    Abs(timeOf(m.createdAt).value - timeOf(ui.createdAt).value) < 10000
  }

  /** `prev.findIndex(p)`. */
  function FindFirst(prev: seq<UIMessage>, p: UIMessage -> bool): (r: Option<nat>)
    ensures r.Some? ==> (r.value < |prev| && p(prev[r.value]) &&
      forall j :: 0 <= j < r.value ==> !p(prev[j]))
    ensures r.None? <==> forall j :: 0 <= j < |prev| ==> !p(prev[j])
  {
    if prev == [] then None
    else if p(prev[0]) then Some(0)
    else
      var rest := FindFirst(prev[1..], p);
      assert forall j :: 0 < j < |prev| ==> prev[j] == prev[1..][j - 1];
      if rest.None? then None else Some(rest.value + 1)
  }

  /** The first near duplicate of `ui` in the list. */
  function FindNear(prev: seq<UIMessage>, ui: UIMessage, timeOf: string -> Option<int>): (r: Option<nat>)
    ensures r.Some? ==> (r.value < |prev| && NearDuplicate(prev[r.value], ui, timeOf) &&
      forall j :: 0 <= j < r.value ==> !NearDuplicate(prev[j], ui, timeOf))
    ensures r.None? <==> forall j :: 0 <= j < |prev| ==> !NearDuplicate(prev[j], ui, timeOf)
  {
    FindFirst(prev, m => NearDuplicate(m, ui, timeOf))
  }

  /** The four ways an incoming message is merged. */
  datatype MergeCase = EchoReplaced(at: nat) | AlreadyListed | SoftReplaced(at: nat) | Appended

  /** Which path the reducer takes: the echo of a temporary id replaces that
      message; a listed server id changes nothing; an own text matching a
      recent unconfirmed message replaces it; anything else is appended. */
  function MergeCaseOf(prev: seq<UIMessage>, ui: UIMessage, echo: Option<string>, timeOf: string -> Option<int>): (r: MergeCase)
    ensures r.EchoReplaced? ==> echo.Some? && FindId(prev, echo.value) == Some(r.at)
    ensures r.AlreadyListed? ==> ui.id != "" && FindId(prev, ui.id).Some?
    ensures r.SoftReplaced? ==> ui.isOwn && ui.content != "" && FindNear(prev, ui, timeOf) == Some(r.at)
    ensures !r.EchoReplaced? ==> echo.None? || FindId(prev, echo.value).None?
    ensures r.SoftReplaced? || r.Appended? ==> ui.id == "" || FindId(prev, ui.id).None?
    ensures r.Appended? ==> !(ui.isOwn && ui.content != "") || FindNear(prev, ui, timeOf).None?
  {
    if echo.Some? && FindId(prev, echo.value).Some? then EchoReplaced(FindId(prev, echo.value).value)
    else if ui.id != "" && FindId(prev, ui.id).Some? then AlreadyListed
    else if ui.isOwn && ui.content != "" && FindNear(prev, ui, timeOf).Some? then SoftReplaced(FindNear(prev, ui, timeOf).value)
    else Appended
  }

  /** The list after the merge. */
  function Merge(prev: seq<UIMessage>, ui: UIMessage, echo: Option<string>, timeOf: string -> Option<int>): (r: seq<UIMessage>)
    ensures |prev| <= |r| <= |prev| + 1
    ensures forall j :: 0 <= j < |prev| ==> r[j] == prev[j] || r[j] == ui
    ensures |r| == |prev| + 1 <==> MergeCaseOf(prev, ui, echo, timeOf).Appended?
    ensures |r| == |prev| + 1 ==> r[|prev|] == ui
  {
    match MergeCaseOf(prev, ui, echo, timeOf)
    case EchoReplaced(i) => prev[i := ui]
    case AlreadyListed => prev
    case SoftReplaced(i) => prev[i := ui]
    case Appended => prev + [ui]
  }

  /** A replacement keeps the length and every other message in place; the
      append adds exactly the new message at the end. */
  lemma MergeShape(prev: seq<UIMessage>, ui: UIMessage, echo: Option<string>, timeOf: string -> Option<int>)
    ensures var c := MergeCaseOf(prev, ui, echo, timeOf); var r := Merge(prev, ui, echo, timeOf);
      (c.EchoReplaced? || c.SoftReplaced? ==>
        |r| == |prev| && r[c.at] == ui && forall j :: 0 <= j < |prev| && j != c.at ==> r[j] == prev[j]) &&
      (c.AlreadyListed? ==> r == prev) &&
      (c.Appended? ==> |r| == |prev| + 1 && r[..|prev|] == prev && r[|prev|] == ui)
  {
  }

  /** After the merge the message's server id is on the list, and nothing is
      lost but the one message a replacement stands in for. */
  lemma MergeListsId(prev: seq<UIMessage>, ui: UIMessage, echo: Option<string>, timeOf: string -> Option<int>)
    ensures exists j :: 0 <= j < |Merge(prev, ui, echo, timeOf)| && Merge(prev, ui, echo, timeOf)[j].id == ui.id
    ensures var c := MergeCaseOf(prev, ui, echo, timeOf);
      forall j :: 0 <= j < |prev| && !((c.EchoReplaced? || c.SoftReplaced?) && j == c.at) ==>
        prev[j] in Merge(prev, ui, echo, timeOf)
  {
    var c := MergeCaseOf(prev, ui, echo, timeOf);
    var r := Merge(prev, ui, echo, timeOf);
    match c {
      case EchoReplaced(i) => assert r[i].id == ui.id;
      case AlreadyListed => assert prev[FindId(prev, ui.id).value].id == ui.id;
      case SoftReplaced(i) => assert r[i].id == ui.id;
      case Appended => assert r[|prev|].id == ui.id;
    }
    forall j | 0 <= j < |prev| && !((c.EchoReplaced? || c.SoftReplaced?) && j == c.at)
      ensures prev[j] in r
    {
      assert r[j] == prev[j];
    }
  }

  /** Once a server message is on the list, its second arrival (without an
      echo) changes nothing. */
  lemma MergeIdempotent(prev: seq<UIMessage>, ui: UIMessage, timeOf: string -> Option<int>)
    requires ui.id != ""
    ensures Merge(Merge(prev, ui, None, timeOf), ui, None, timeOf) == Merge(prev, ui, None, timeOf)
  {
    MergeListsId(prev, ui, None, timeOf);
  }

  /** The list of one conversation, with the set of server ids already seen
      (`seenIdsRef`). */
  class MessageFeed {
    var messages: seq<UIMessage>
    var seen: set<string>

    constructor ()
      ensures messages == [] && seen == {}
    {
      messages := [];
      seen := {};
    }

    /** Changing conversation: the list and the ids seen are emptied. */
    method Clear()
      modifies this
      ensures messages == [] && seen == {}
    {
      messages := [];
      seen := {};
    }

    /** The socket handler for one message: a server id already seen is
        dropped at once; otherwise the reducer merges the message and the id
        is remembered on every path. */
    method Receive(ui: UIMessage, echo: Option<string>, timeOf: string -> Option<int>)
      modifies this
      ensures ui.id != "" && ui.id in old(seen) ==> messages == old(messages) && seen == old(seen)
      ensures !(ui.id != "" && ui.id in old(seen)) ==>
        messages == Merge(old(messages), ui, echo, timeOf) &&
        seen == old(seen) + (if ui.id != "" then {ui.id} else {})
    {
      if ui.id != "" && ui.id in seen {
        return;
      }
      var c := MergeCaseOf(messages, ui, echo, timeOf);
      match c {
        case EchoReplaced(i) =>
          messages := messages[i := ui];
        case AlreadyListed =>
        case SoftReplaced(i) =>
          messages := messages[i := ui];
        case Appended =>
          messages := messages + [ui];
      }
      if ui.id != "" {
        seen := seen + {ui.id};
      }
    }
  }

  /** Receiving the same server message twice shows it once. */
  method ReceiveTwice(feed: MessageFeed, ui: UIMessage, echo: Option<string>, echo2: Option<string>, timeOf: string -> Option<int>)
    requires ui.id != ""
    modifies feed
    ensures feed.messages == (if ui.id in old(feed.seen) then old(feed.messages) else Merge(old(feed.messages), ui, echo, timeOf))
    ensures ui.id in feed.seen
  {
    feed.Receive(ui, echo, timeOf);
    feed.Receive(ui, echo2, timeOf);
  }
}
