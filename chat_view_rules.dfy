/** The request-level decisions of the REST views (backend/chat/views.py):
    query-parameter parsing, the filters behind each queryset, and the order
    in which each handler refuses a request.  The handlers that write the
    store are in module ChatViews. */
module ChatViewRules {
  import opened Wrappers
  import opened Text
  import opened Json
  import opened Users
  import opened ChatModels
  import opened Sorting

  const OK: nat := 200
  const CREATED: nat := 201
  const NO_CONTENT: nat := 204
  const BAD_REQUEST: nat := 400
  const UNAUTHORIZED: nat := 401
  const FORBIDDEN: nat := 403
  const NOT_FOUND: nat := 404
  const SERVER_ERROR: nat := 500

  /** `value.lower() in ("1", "true", "yes")`. */
  predicate IsYes(s: string) {
    Lower(s) in {"1", "true", "yes"}
  }

  /** Python `int(x)` on a request value: an int, a bool, or a string holding
      an optionally signed decimal numeral between optional whitespace; any
      other value raises, which is `None` here. */
  function PyInt(j: Json): (r: Option<int>)
    ensures j.JNum? ==> r == Some(j.n)
    ensures j.JBool? ==> r == Some(if j.b then 1 else 0)
    ensures j.JNull? || j.JArr? || j.JObj? ==> r.None?
  {
    match j
    case JNum(n) => Some(n)
    case JBool(b) => Some(if b then 1 else 0)
    case JStr(s) => ParseIntText(Trim(s))
    case _ => None
  }

  /** A decimal numeral with an optional `+` or `-` sign. */
  predicate IsSignedNumeral(s: string) {
    s != [] && if s[0] == '+' || s[0] == '-' then |s| > 1 && AllDigits(s[1..]) else AllDigits(s)
  }

  function ParseIntText(s: string): (r: Option<int>)
    ensures r.Some? <==> IsSignedNumeral(s)
    ensures r.Some? && AllDigits(s) ==> r.value == ParseDigits(s)
    ensures r.Some? && s[0] == '-' ==> r.value == -(ParseDigits(s[1..]) as int)
  {
    if s == [] then None
    else if s[0] == '+' || s[0] == '-' then
      if |s| > 1 && AllDigits(s[1..]) then
        Some(if s[0] == '-' then -(ParseDigits(s[1..]) as int) else ParseDigits(s[1..]))
      else None
    else if AllDigits(s) then Some(ParseDigits(s))
    else None
  }

  /** A rendered number has no whitespace at either end. */
  lemma RenderingIsTrimmed(n: nat)
    ensures Trim(NatToString(n)) == NatToString(n)
    ensures Trim("-" + NatToString(n)) == "-" + NatToString(n)
  {
    var d := NatToString(n);
    assert !IsSpace(d[0]) && !IsSpace(d[|d| - 1]);
    TrimNoop(d);
    var m := "-" + d;
    assert m[|m| - 1] == d[|d| - 1];
    TrimNoop(m);
  }

  /** `int(str(n))` and `int(str(-n))` give back the number. */
  lemma PyIntOfRendering(n: nat)
    ensures PyInt(JStr(NatToString(n))) == Some(n)
    ensures PyInt(JStr("-" + NatToString(n))) == Some(-(n as int))
  {
    var d := NatToString(n);
    ParseNatToString(n);
    RenderingIsTrimmed(n);
    assert ParseIntText(d) == Some(n);
    var m := "-" + d;
    assert m[1..] == d;
    assert ParseIntText(m) == Some(-(n as int));
  }

  // ---------------------------------------------------------------------------
  // FolderViewSet.get_queryset

  datatype FolderFilter = RootsOnly | ChildrenOf(parent: string) | AllFolders

  /** Which folders `?parent=` and `?root=` select: `parent=null` or a yes-like
      `root` asks for the roots; otherwise a given `parent` asks for its
      children; otherwise every folder. */
  function FolderFilterFor(parent: Option<string>, root: Option<string>): (r: FolderFilter)
    ensures r == RootsOnly <==> parent == Some("null") || (root.Some? && IsYes(root.value))
    ensures r.ChildrenOf? <==> parent.Some? && r != RootsOnly
    ensures r.ChildrenOf? ==> r.parent == parent.value
  {
    if parent == Some("null") || (root.Some? && root.value != "" && IsYes(root.value)) then RootsOnly
    else if parent.Some? then ChildrenOf(parent.value)
    else AllFolders
  }

  /** The folders without a parent. */
  function RootFolders(parents: map<nat, Option<nat>>): (r: set<nat>)
    ensures forall id :: id in r <==> id in parents && parents[id].None?
  {
    set id | id in parents && parents[id].None?
  }

  /** The folders whose parent is `n`. */
  function ChildFolders(parents: map<nat, Option<nat>>, n: int): (r: set<nat>)
    ensures forall id :: id in r <==> id in parents && parents[id].Some? && parents[id].value == n
  {
    set id | id in parents && parents[id].Some? && parents[id].value == n
  }

  /** The folder ids the list returns, given each folder's parent id.
      `filter(parent_id=p)` converts `p` with Python `int()`, so `07` and
      ` 7 ` select the children of folder 7, and a value that is not a
      numeral raises `ValueError` (a 500), which is `None` here. */
  function FolderQuery(parents: map<nat, Option<nat>>, parent: Option<string>, root: Option<string>): (r: Option<set<nat>>)
    ensures r.Some? ==> r.value <= parents.Keys
    ensures FolderFilterFor(parent, root) == RootsOnly ==> r == Some(RootFolders(parents))
    ensures FolderFilterFor(parent, root).ChildrenOf? ==>
      (r.None? <==> PyInt(JStr(parent.value)).None?) &&
      (r.Some? ==> r.value == ChildFolders(parents, PyInt(JStr(parent.value)).value))
    ensures parent.None? && (root.None? || !IsYes(root.value)) ==> r == Some(parents.Keys)
  {
    match FolderFilterFor(parent, root)
    case RootsOnly => Some(RootFolders(parents))
    case ChildrenOf(p) =>
      var n := PyInt(JStr(p));
      if n.None? then None else Some(ChildFolders(parents, n.value))
    case AllFolders => Some(parents.Keys)
  }

  /** Leading zeros do not change the number `int()` reads. */
  lemma {:induction false} LeadingZeroIgnored(s: string)
    requires AllDigits(s)
    ensures AllDigits("0" + s) && ParseDigits("0" + s) == ParseDigits(s)
  {
    var z := "0" + s;
    assert forall i :: 0 <= i < |z| ==> IsDigit(z[i]) by {
      forall i | 0 <= i < |z| ensures IsDigit(z[i]) {
        if i > 0 { assert z[i] == s[i - 1]; }
      }
    }
    if s != [] {
      var t := s[..|s| - 1];
      assert z[..|z| - 1] == "0" + t;
      assert AllDigits(t) by {
        forall i | 0 <= i < |t| ensures IsDigit(t[i]) { assert t[i] == s[i]; }
      }
      LeadingZeroIgnored(t);
      assert z[|z| - 1] == s[|s| - 1];
    }
  }

  /** `int("0" + str(n))` is `n`. */
  lemma PaddedNumeralReads(n: nat)
    ensures PyInt(JStr("0" + NatToString(n))) == Some(n)
  {
    var d := NatToString(n);
    var z := "0" + d;
    ParseNatToString(n);
    LeadingZeroIgnored(d);
    assert z[0] == '0' && z[|z| - 1] == d[|d| - 1];
    TrimNoop(z);
  }

  /** `?parent=07` and `?parent=7` select the same folders, the children of
      folder 7. */
  lemma PaddedParentSelectsSameFolders(parents: map<nat, Option<nat>>, n: nat)
    ensures FolderQuery(parents, Some("0" + NatToString(n)), None) == FolderQuery(parents, Some(NatToString(n)), None)
    ensures FolderQuery(parents, Some(NatToString(n)), None) == Some(ChildFolders(parents, n))
  {
    PyIntOfRendering(n);
    PaddedNumeralReads(n);
    var d := NatToString(n);
    assert d != "null" by { ParseNatToString(n); assert IsDigit(d[0]); }
    assert "0" + d != "null";
    ParentNumeralSelectsChildren(parents, d, n);
    ParentNumeralSelectsChildren(parents, "0" + d, n);
  }

  /** A `parent` that reads as `n` selects the children of `n`. */
  lemma ParentNumeralSelectsChildren(parents: map<nat, Option<nat>>, p: string, n: int)
    requires p != "null" && PyInt(JStr(p)) == Some(n)
    ensures FolderQuery(parents, Some(p), None) == Some(ChildFolders(parents, n))
  {
    assert FolderFilterFor(Some(p), None) == ChildrenOf(p);
  }

  /** `parent=null` wins over any `root`, and a yes-like `root` wins over any
      `parent` id. */
  lemma FolderRootsWin(parents: map<nat, Option<nat>>, root: Option<string>, p: string)
    requires p != "null"
    ensures FolderQuery(parents, Some("null"), root) == FolderQuery(parents, None, Some("TRUE"))
    ensures FolderQuery(parents, Some(p), Some("yes")) == FolderQuery(parents, Some("null"), None)
  {
    assert Lower("TRUE") == "true";
    LowerNoUpper("yes");
  }

  // ---------------------------------------------------------------------------
  // MessageViewSet.get_queryset

  /** `?room=` as `filter(room_id=...)` reads it: an empty or missing value
      filters nothing (`Some(None)`); otherwise Python `int()` converts it,
      and a value that is not a numeral raises `ValueError` (`None`). */
  function RoomFilter(room: Option<string>): (r: Option<Option<int>>)
    ensures room.None? || room.value == "" ==> r == Some(None)
    ensures room.Some? && room.value != "" ==>
      (r.None? <==> PyInt(JStr(room.value)).None?) &&
      (r.Some? ==> r.value == PyInt(JStr(room.value)))
  {
    if room.None? || room.value == "" then Some(None)
    else match PyInt(JStr(room.value))
      case None => None
      case Some(n) => Some(Some(n))
  }

  /** `?room=<id>` selects that room. */
  lemma RoomFilterOfRendering(n: nat)
    ensures RoomFilter(Some(NatToString(n))) == Some(Some(n))
  {
    PyIntOfRendering(n);
  }

  /** The message list's filter: not soft-deleted, in the requested room
      (when the filter names one), and not hidden by the signed-in viewer. */
  predicate Listed(m: Message, hidden: set<(nat, string)>, room: Option<int>, viewer: Option<nat>) {
    m.deletedAt.None? &&
    (room.Some? ==> m.room == room.value) &&
    (viewer.Some? ==> (viewer.value, m.id) !in hidden)
  }

  /** The message list: exactly the listed rows of the table, newest first;
      `None` when `?room=` raises. */
  function MessageQuery(rows: seq<Message>, hidden: set<(nat, string)>, room: Option<string>, viewer: Option<nat>): (r: Option<seq<Message>>)
    ensures r.None? <==> RoomFilter(room).None?
    ensures r.Some? ==> forall m :: m in r.value <==> m in rows && Listed(m, hidden, RoomFilter(room).value, viewer)
    ensures r.Some? ==> forall i, j :: 0 <= i < j < |r.value| ==> r.value[i].createdAt >= r.value[j].createdAt
  {
    var f := RoomFilter(room);
    if f.None? then None else Some(ListedNewestFirst(rows, hidden, f.value, viewer))
  }

  /** The listed rows for a parsed room filter, newest first. */
  function ListedNewestFirst(rows: seq<Message>, hidden: set<(nat, string)>, room: Option<int>, viewer: Option<nat>): (r: seq<Message>)
    ensures forall m :: m in r <==> m in rows && Listed(m, hidden, room, viewer)
    ensures forall i, j :: 0 <= i < j < |r| ==> r[i].createdAt >= r[j].createdAt
  {
    var s := Filter(rows, m => Listed(m, hidden, room, viewer));
    var r := SortBy(s, (m: Message) => -m.createdAt);
    assert forall m :: m in r <==> m in multiset(r);
    assert forall m :: m in s <==> m in multiset(s);
    assert forall i, j :: 0 <= i < j < |r| ==> -r[i].createdAt <= -r[j].createdAt;
    r
  }

  /** `ConversationMessagesView.get_queryset`: the chat's messages that are not
      soft-deleted, oldest first. */
  function ConversationQuery(rows: seq<Message>, chat: nat): (r: seq<Message>)
    ensures forall m :: m in r <==> m in rows && m.room == chat && m.deletedAt.None?
    ensures forall i, j :: 0 <= i < j < |r| ==> r[i].createdAt <= r[j].createdAt
  {
    var s := Filter(rows, (m: Message) => m.room == chat && m.deletedAt.None?);
    var r := SortBy(s, (m: Message) => m.createdAt);
    assert forall m :: m in r <==> m in multiset(r);
    assert forall m :: m in s <==> m in multiset(s);
    r
  }

  // ---------------------------------------------------------------------------
  // MessageViewSet.perform_create

  /** An uploaded file: its declared content type and its name. */
  datatype Upload = Upload(contentType: Option<string>, name: string)

  /** The sender name stored on a room message: the user's username, else the
      email, else "User"; always "User" for an anonymous sender. */
  function DisplayNameFor(user: Option<User>): (r: string)
    ensures r != ""
    ensures user.None? ==> r == "User"
    ensures user.Some? && user.value.username.Some? && user.value.username.value != "" ==>
      r == user.value.username.value
    ensures user.Some? && (user.value.username.None? || user.value.username.value == "") ==>
      r == if user.value.email != "" then user.value.email else "User"
  {
    if user.None? then "User"
    else if user.value.username.Some? && user.value.username.value != "" then user.value.username.value
    else if user.value.email != "" then user.value.email
    else "User"
  }

  /** With this user model, which has no username field, a signed-in sender is
      shown by email. */
  lemma DisplayNameIsEmail(u: User)
    requires u.username.None? && u.email != ""
    ensures DisplayNameFor(Some(u)) == u.email
  {
  }

  datatype AttachmentFields = AttachmentFields(attachmentType: string, attachmentName: string, mime: Option<string>)

  /** The attachment columns of a new room message: the lower-cased content
      type is kept as `mime` when non-empty, the type is "image" exactly when
      that content type starts with "image/", else "file"; without an upload
      all are empty. */
  function AttachmentFieldsFor(upload: Option<Upload>): (r: AttachmentFields)
    ensures upload.None? ==> r == AttachmentFields("", "", None)
    ensures upload.Some? ==> r.attachmentName == upload.value.name
    ensures upload.Some? ==>
      (r.attachmentType == "image" <==> StartsWith(Lower(upload.value.contentType.GetOr("")), "image/"))
    ensures upload.Some? ==> r.attachmentType in {"image", "file"}
    ensures upload.Some? ==>
      (r.mime.Some? <==> upload.value.contentType.GetOr("") != "") &&
      (r.mime.Some? ==> r.mime.value == Lower(upload.value.contentType.value))
  {
    if upload.None? then AttachmentFields("", "", None)
    else
      var ct := Lower(upload.value.contentType.GetOr(""));
      AttachmentFields(
        if StartsWith(ct, "image/") then "image" else "file",
        upload.value.name,
        if ct != "" then Some(ct) else None)
  }

  /** The stored type always decides `is_image`, and it agrees with the
      uploaded content type, whatever the file is called. */
  lemma CreatedAttachmentAgreesWithIsImage(u: Upload, attachment: Option<string>)
    ensures IsImage(AttachmentFieldsFor(Some(u)).attachmentType, attachment) <==>
      StartsWith(Lower(u.contentType.GetOr("")), "image/")
  {
    var t := AttachmentFieldsFor(Some(u)).attachmentType;
    if t == "image" {
      IsImageTypeDecides("image", attachment, None);
      LowerNoUpper("image");
    } else {
      assert t == "file";
      IsImageTypeDecides("file", attachment, None);
      LowerNoUpper("file");
    }
  }

  // ---------------------------------------------------------------------------
  // MessageViewSet.destroy

  /** `is_author`: the message has a (non-zero) author id equal to the user's. */
  predicate IsAuthor(m: Message, u: User) {
    m.author.Some? && m.author.value != 0 && m.author.value == u.id
  }

  /** The status `destroy` answers for a message the queryset found:
      without a yes-like `for_all` 400, for an anonymous user 401, for a user
      who is neither the author nor staff nor superuser 403, else 204. */
  function DestroyStatus(m: Message, forAll: Option<string>, user: Option<User>): (r: nat)
    ensures r in {NO_CONTENT, BAD_REQUEST, UNAUTHORIZED, FORBIDDEN}
  {
    if !IsYes(forAll.GetOr("")) then BAD_REQUEST
    else if user.None? then UNAUTHORIZED
    else if !(IsAuthor(m, user.value) || user.value.isStaff || user.value.isSuperuser) then FORBIDDEN
    else NO_CONTENT
  }

  /** A message is deleted for everybody exactly when `for_all` is yes-like
      and a signed-in author, staff member or superuser asks; each refusal
      names the first check that failed. */
  lemma DestroyAllowedIff(m: Message, forAll: Option<string>, user: Option<User>)
    ensures DestroyStatus(m, forAll, user) == NO_CONTENT <==>
      IsYes(forAll.GetOr("")) && user.Some? &&
      (IsAuthor(m, user.value) || user.value.isStaff || user.value.isSuperuser)
    ensures DestroyStatus(m, forAll, user) == BAD_REQUEST <==> !IsYes(forAll.GetOr(""))
    ensures DestroyStatus(m, forAll, user) == UNAUTHORIZED <==> IsYes(forAll.GetOr("")) && user.None?
  {
  }

  /** An authorless message can be deleted only by staff or a superuser. */
  lemma AuthorlessNeedsStaff(m: Message, forAll: Option<string>, u: User)
    requires m.author.None?
    requires DestroyStatus(m, forAll, Some(u)) == NO_CONTENT
    ensures u.isStaff || u.isSuperuser
  {
  }

  // ---------------------------------------------------------------------------
  // ConversationsViewSet.partial_update

  /** `self_destruct_timer` from the request: `None`, `""` and `0` (and so
      `False`) clear it; anything else goes through `int()`, and a value that
      `int()` refuses or that is negative (the column is a positive integer
      field) makes the request fail. */
  function TimerValue(j: Json): (r: Result<Option<nat>, ()>)
    ensures j == JNull || j == JStr("") || j == JNum(0) || j == JBool(false) ==> r == Ok(None)
    ensures j.JNum? && j.n > 0 ==> r == Ok(Some(j.n))
    ensures j.JNum? && j.n < 0 ==> r.Err?
    ensures j == JBool(true) ==> r == Ok(Some(1))
    ensures j.JArr? || j.JObj? ==> r.Err?
  {
    if j == JNull || j == JStr("") || j == JNum(0) || j == JBool(false) then Ok(None)
    else
      var n := PyInt(j);
      if n.None? || n.value < 0 then Err(()) else Ok(Some(n.value))
  }

  /** The numeral "0" is not in `(None, "", 0)`, so it sets a zero timer
      where the number 0 clears it. */
  lemma TimerZeroStringIsKept()
    ensures TimerValue(JStr("0")) == Ok(Some(0))
    ensures TimerValue(JNum(0)) == Ok(None)
  {
    assert Trim("0") == "0" by { TrimNoop("0"); }
    assert AllDigits("0");
    assert ParseDigits("0") == 0 by { assert "0"[..0] == []; }
  }

  /** The settings a PATCH applies: `is_secret` by Python truthiness and the
      timer as above; every other field of the chat is kept. */
  function ApplyChatSettings(chat: Chat, isSecret: Option<Json>, timer: Option<Json>): (r: Result<Chat, ()>)
    ensures r.Ok? ==> r.value.(isSecret := chat.isSecret, selfDestructTimer := chat.selfDestructTimer) == chat
    ensures r.Ok? ==> r.value.isSecret == if isSecret.Some? then PyTruthy(isSecret.value) else chat.isSecret
    ensures r.Ok? && timer.Some? ==> Ok(r.value.selfDestructTimer) == TimerValue(timer.value)
    ensures r.Ok? && timer.None? ==> r.value.selfDestructTimer == chat.selfDestructTimer
    ensures r.Err? <==> timer.Some? && TimerValue(timer.value).Err?
  {
    var c := if isSecret.Some? then chat.(isSecret := PyTruthy(isSecret.value)) else chat;
    if timer.None? then Ok(c)
    else
      match TimerValue(timer.value)
      case Ok(t) => Ok(c.(selfDestructTimer := t))
      case Err(_) => Err(())
  }

  /** A PATCH with neither key leaves the chat as it is. */
  lemma EmptyPatchKeepsChat(chat: Chat)
    ensures ApplyChatSettings(chat, None, None) == Ok(chat)
  {
  }

  // ---------------------------------------------------------------------------
  // FriendRequestViewSet.get_queryset

  /** Requests involving the user, narrowed by `?type=` (case-insensitive):
      `incoming` keeps those sent to the user, `outgoing` those sent by the
      user, anything else (default `all`) keeps both. */
  function FriendRequestQuery(keys: set<(nat, nat)>, me: nat, typ: Option<string>): (r: set<(nat, nat)>)
    ensures r <= keys
    ensures forall k :: k in r ==> k.0 == me || k.1 == me
    ensures typ.Some? && Lower(typ.value) == "incoming" ==> r == set k | k in keys && k.1 == me
    ensures typ.Some? && Lower(typ.value) == "outgoing" ==> r == set k | k in keys && k.0 == me
    ensures (typ.None? || Lower(typ.value) !in {"incoming", "outgoing"}) ==>
      r == set k | k in keys && (k.0 == me || k.1 == me)
  {
    var t := Lower(if typ.Some? && typ.value != "" then typ.value else "all");
    assert typ.Some? && typ.value == "" ==> Lower(typ.value) == "";
    LowerNoUpper("all");
    if t == "incoming" then set k | k in keys && k.1 == me
    else if t == "outgoing" then set k | k in keys && k.0 == me
    else set k | k in keys && (k.0 == me || k.1 == me)
  }

  /** The newest-first key of a request row; a key without a row sorts as
      time 0. */
  function RequestNewestFirst(requests: map<(nat, nat), FriendRequest>, k: (nat, nat)): int {
    if k in requests then -requests[k].createdAt else 0
  }

  /** The rows of `table` the query keeps, in scan order. */
  function RequestRows(requests: map<(nat, nat), FriendRequest>, table: seq<(nat, nat)>,
                       q: set<(nat, nat)>): (r: seq<(nat, nat)>)
    ensures forall k :: k in r <==> k in table && k in requests && k in q
  {
    Filter(table, k => k in requests && k in q)
  }

  /** Sorting rows by `RequestNewestFirst` keeps the rows and puts the newest
      first. */
  function NewestRequestsFirst(requests: map<(nat, nat), FriendRequest>, s: seq<(nat, nat)>): (r: seq<(nat, nat)>)
    requires forall k :: k in s ==> k in requests
    ensures forall k :: k in r <==> k in s
    ensures forall i :: 0 <= i < |r| ==> r[i] in requests
    ensures forall i, j :: 0 <= i < j < |r| ==> requests[r[i]].createdAt >= requests[r[j]].createdAt
  {
    var r := SortBy(s, k => RequestNewestFirst(requests, k));
    assert forall k :: k in r <==> k in multiset(r);
    assert forall k :: k in s <==> k in multiset(s);
    assert forall i :: 0 <= i < |r| ==> r[i] in requests by {
      forall i | 0 <= i < |r| ensures r[i] in requests { assert r[i] in r; }
    }
    r
  }

  /** The list the view answers: the rows of `FriendRequestQuery`, taken in
      the table's scan order `table` and then ordered by `-created_at`. */
  function FriendRequestList(requests: map<(nat, nat), FriendRequest>, table: seq<(nat, nat)>, me: nat,
                             typ: Option<string>): (r: seq<(nat, nat)>)
    ensures forall k :: k in r <==> k in table && k in requests && k in FriendRequestQuery(requests.Keys, me, typ)
    ensures forall i :: 0 <= i < |r| ==> r[i] in requests
    ensures forall i, j :: 0 <= i < j < |r| ==> requests[r[i]].createdAt >= requests[r[j]].createdAt
  {
    NewestRequestsFirst(requests, RequestRows(requests, table, FriendRequestQuery(requests.Keys, me, typ)))
  }

  /** The incoming and outgoing lists together are the full list. */
  lemma FriendRequestsSplit(keys: set<(nat, nat)>, me: nat)
    ensures FriendRequestQuery(keys, me, Some("incoming")) + FriendRequestQuery(keys, me, Some("outgoing")) ==
            FriendRequestQuery(keys, me, None)
  {
    var a := IncomingQuery(keys, me);
    var b := OutgoingQuery(keys, me);
    var c := AllQuery(keys, me);
    SplitByEnd(keys, me, a, b, c);
  }

  lemma SplitByEnd(keys: set<(nat, nat)>, me: nat, a: set<(nat, nat)>, b: set<(nat, nat)>, c: set<(nat, nat)>)
    requires forall k :: k in a <==> k in keys && k.1 == me
    requires forall k :: k in b <==> k in keys && k.0 == me
    requires forall k :: k in c <==> k in keys && (k.0 == me || k.1 == me)
    ensures a + b == c
  {
  }

  lemma AllQuery(keys: set<(nat, nat)>, me: nat) returns (c: set<(nat, nat)>)
    ensures c == FriendRequestQuery(keys, me, None)
    ensures forall k :: k in c <==> k in keys && (k.0 == me || k.1 == me)
  {
    c := FriendRequestQuery(keys, me, None);
  }

  lemma IncomingQuery(keys: set<(nat, nat)>, me: nat) returns (a: set<(nat, nat)>)
    ensures a == FriendRequestQuery(keys, me, Some("incoming"))
    ensures forall k :: k in a <==> k in keys && k.1 == me
  {
    LowerNoUpper("incoming");
    a := FriendRequestQuery(keys, me, Some("incoming"));
  }

  lemma OutgoingQuery(keys: set<(nat, nat)>, me: nat) returns (b: set<(nat, nat)>)
    ensures b == FriendRequestQuery(keys, me, Some("outgoing"))
    ensures forall k :: k in b <==> k in keys && k.0 == me
  {
    LowerNoUpper("outgoing");
    b := FriendRequestQuery(keys, me, Some("outgoing"));
  }

  // ---------------------------------------------------------------------------
  // FriendsViewSet.list

  /** For each friendship row touching `me`, the other user (`user2` when
      `user1` is me, else `user1`), in row order. */
  function FriendsOf(rows: seq<(nat, nat)>, me: nat): (r: seq<nat>)
    ensures |r| <= |rows|
  {
    if rows == [] then []
    else
      var last := rows[|rows| - 1];
      var rest := FriendsOf(rows[..|rows| - 1], me);
      if last.0 == me then rest + [last.1]
      else if last.1 == me then rest + [last.0]
      else rest
  }

  /** A user is listed exactly when a row pairs them with me, in either
      position. */
  lemma {:induction false} FriendsOfIff(rows: seq<(nat, nat)>, me: nat, x: nat)
    ensures x in FriendsOf(rows, me) <==> (me, x) in rows || (x, me) in rows
    decreases |rows|
  {
    if rows != [] {
      var init := rows[..|rows| - 1];
      FriendsOfIff(init, me, x);
      assert rows == init + [rows[|rows| - 1]];
      assert forall p :: p in rows <==> p in init || p == rows[|rows| - 1];
    }
  }

  // ---------------------------------------------------------------------------
  // BlockViewSet.list

  /** The users the requester has blocked. */
  function BlockedBy(blocks: set<(nat, nat)>, me: nat): (r: set<nat>)
    ensures forall x :: x in r <==> (me, x) in blocks
  {
    set b | b in blocks && b.0 == me :: b.1
  }

  /** A `Block` row with its creation time. */
  datatype BlockRow = BlockRow(blocker: nat, blocked: nat, createdAt: int)

  /** The `(blocker, blocked)` pairs of the rows. */
  function BlockPairs(rows: seq<BlockRow>): (r: set<(nat, nat)>)
    ensures forall b :: b in r <==> exists i :: 0 <= i < |rows| && b == (rows[i].blocker, rows[i].blocked)
  {
    set i | 0 <= i < |rows| :: (rows[i].blocker, rows[i].blocked)
  }

  function BlockNewestFirst(b: BlockRow): int { -b.createdAt }

  /** `BlockViewSet.list`: the requester's block rows, newest first, taken
      from the table in its scan order. */
  function BlockList(rows: seq<BlockRow>, me: nat): (r: seq<BlockRow>)
    ensures forall b :: b in r <==> b in rows && b.blocker == me
    ensures forall i, j :: 0 <= i < j < |r| ==> r[i].createdAt >= r[j].createdAt
  {
    var s := Filter(rows, (b: BlockRow) => b.blocker == me);
    var r := SortBy(s, BlockNewestFirst);
    assert forall b :: b in r <==> b in multiset(r);
    assert forall b :: b in s <==> b in multiset(s);
    assert forall i, j :: 0 <= i < j < |r| ==> BlockNewestFirst(r[i]) <= BlockNewestFirst(r[j]);
    r
  }

  /** The users in the block list are exactly those `BlockedBy` gives. */
  lemma BlockListShowsBlockedBy(rows: seq<BlockRow>, me: nat, x: nat)
    ensures (exists i :: 0 <= i < |BlockList(rows, me)| && BlockList(rows, me)[i].blocked == x) <==>
            x in BlockedBy(BlockPairs(rows), me)
  {
    var r := BlockList(rows, me);
    if x in BlockedBy(BlockPairs(rows), me) {
      var i :| 0 <= i < |rows| && (me, x) == (rows[i].blocker, rows[i].blocked);
      assert rows[i] in r;
      var j :| 0 <= j < |r| && r[j] == rows[i];
    }
    if exists i :: 0 <= i < |r| && r[i].blocked == x {
      var i :| 0 <= i < |r| && r[i].blocked == x;
      assert r[i] in rows;
      var k :| 0 <= k < |rows| && rows[k] == r[i];
      assert (me, x) == (rows[k].blocker, rows[k].blocked);
    }
  }

  // ---------------------------------------------------------------------------
  // UserSearchView.get_queryset

  /** The minimum length of a search term after stripping. */
  const MinSearchLength: nat := 4

  /** `icontains` on each field the user model has: nickname, (username, which
      this model lacks), email, first name and last name. */
  predicate SearchMatches(u: User, q: string) {
    var lq := Lower(q);
    Contains(Lower(u.nickname), lq) ||
    (u.username.Some? && Contains(Lower(u.username.value), lq)) ||
    Contains(Lower(u.email), lq) ||
    Contains(Lower(u.firstName), lq) ||
    Contains(Lower(u.lastName), lq)
  }

  /** Whether user `id` is in the search result for term `q`. */
  predicate SearchHit(users: map<nat, User>, me: nat, q: Option<string>, id: nat) {
    var t := Trim(q.GetOr(""));
    |t| >= MinSearchLength && id in users && id != me && SearchMatches(users[id], t)
  }

  /** Once the term is stripped and long enough, a hit is a matching user
      other than the requester. */
  lemma SearchHitWithTerm(users: map<nat, User>, me: nat, q: Option<string>, t: string, id: nat)
    requires t == Trim(q.GetOr("")) && |t| >= MinSearchLength
    ensures SearchHit(users, me, q, id) <==> id in users && id != me && SearchMatches(users[id], t)
  {
  }

  /** A term of fewer than four characters after stripping finds nobody. */
  lemma ShortSearchFindsNobody(users: map<nat, User>, me: nat, q: Option<string>, id: nat)
    requires |Trim(q.GetOr(""))| < MinSearchLength
    ensures !SearchHit(users, me, q, id)
  {
  }

  /** The requester never finds themself. */
  lemma SearchExcludesSelf(users: map<nat, User>, me: nat, q: Option<string>)
    ensures !SearchHit(users, me, q, me)
  {
  }

  /** Surrounding whitespace does not change a search: searching for the
      stripped term finds the same users. */
  lemma SearchIgnoresPadding(users: map<nat, User>, me: nat, q: string, id: nat)
    ensures SearchHit(users, me, Some(q), id) <==> SearchHit(users, me, Some(Trim(q)), id)
  {
    TrimIdempotent(q);
  }
}
