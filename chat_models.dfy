/** The chat application's records (backend/chat/models.py): chats, participant
    links, messages, hidden-message marks, friend requests, friendships and
    blocks, with the pure helpers defined on them.  Uniqueness constraints
    (`unique_together`) are expressed by keying the tables on the constrained
    pair. */
module ChatModels {
  import opened Wrappers
  import opened Text
  import opened Json

  datatype ChatType = Group | Private

  datatype Chat = Chat(
    kind: ChatType,
    name: string,
    privateKey: Option<string>,
    isSecret: bool,
    selfDestructTimer: Option<nat>,
    lastMessage: Option<string>,
    folders: set<nat>)

  /** A `ChatParticipant` row; its key `(chat, user)` lives in the table. */
  datatype Participant = Participant(lastReadAt: Option<int>, unreadCount: nat, isMuted: bool)

  const NewParticipant := Participant(None, 0, false)

  /** A `Message` row.  Ids are UUID strings; `attachment` is the stored file
      name when a file is attached; `replyTo` is the id of the message
      answered; `meta` is the JSON column, `{}` by default. */
  datatype Message = Message(
    id: string,
    room: nat,
    author: Option<nat>,
    displayName: string,
    content: string,
    attachment: Option<string>,
    attachmentType: string,
    attachmentName: string,
    replyTo: Option<string>,
    expiresAt: Option<int>,
    createdAt: int,
    editedAt: Option<int>,
    deletedAt: Option<int>,
    meta: Json)

  /** The default of the `meta` column, `dict`. */
  const EmptyMeta: Json := JObj(map[])

  datatype FriendRequestStatus = Pending | Accepted | Rejected

  datatype FriendRequest = FriendRequest(status: FriendRequestStatus, createdAt: int, respondedAt: Option<int>)

  /** Index of the last occurrence of `c` in `s` (`str.rfind`). */
  function LastIndexOf(s: string, c: char): (r: Option<nat>)
    ensures r.Some? ==> r.value < |s| && s[r.value] == c
    ensures r.Some? ==> forall j :: r.value < j < |s| ==> s[j] != c
    ensures r.None? ==> forall j :: 0 <= j < |s| ==> s[j] != c
  {
    if s == [] then None
    else if s[|s| - 1] == c then Some(|s| - 1)
    else LastIndexOf(s[..|s| - 1], c)
  }

  /** `os.path.basename`: the part after the last `/`. */
  function Basename(path: string): (r: string)
    ensures EndsWith(path, r)
    ensures forall j :: 0 <= j < |r| ==> r[j] != '/'
  {
    match LastIndexOf(path, '/')
    case None => path
    case Some(i) => path[i + 1..]
  }

  /** `os.path.splitext(path)[1]`: from the last dot of the base name, provided
      some character before that dot is not a dot (so `.bashrc` has none). */
  function Extension(path: string): (r: string)
    ensures r == [] || r[0] == '.'
    ensures EndsWith(path, r)
  {
    var base := Basename(path);
    match LastIndexOf(base, '.')
    case None => ""
    case Some(d) =>
      if exists j :: 0 <= j < d && base[j] != '.' then
        assert EndsWith(base, base[d..]);
        EndsWithTrans(path, base, base[d..]);
        base[d..]
      else ""
  }

  /** `_message_upload_to`: `messages/<room_id>/<id or a fresh uuid>/<basename>`.
      The fresh UUID is a parameter. */
  function UploadTo(roomId: nat, id: Option<string>, freshUuid: string, filename: string): (r: string)
    ensures var prefix := "messages/" + NatToString(roomId) + "/";
            var mid := if id.Some? && id.value != "" then id.value else freshUuid;
            |r| == |prefix| + |mid| + 1 + |Basename(filename)| &&
            r[..|prefix|] == prefix &&
            r[|prefix|..|prefix| + |mid|] == mid &&
            r[|prefix| + |mid|..] == "/" + Basename(filename)
  {
    var prefix := "messages/" + NatToString(roomId) + "/";
    var mid := if id.Some? && id.value != "" then id.value else freshUuid;
    var tail := "/" + Basename(filename);
    SplitThree(prefix, mid, tail);
    prefix + mid + tail
  }

  /** The three pieces of a concatenation sit at their offsets. */
  lemma SplitThree(a: string, b: string, c: string)
    ensures (a + b + c)[..|a|] == a
    ensures (a + b + c)[|a|..|a| + |b|] == b
    ensures (a + b + c)[|a| + |b|..] == c
  {
  }

  /** `str.replace(pat, "")`: the occurrences of `pat` found scanning from the
      left are removed. */
  function RemoveAll(s: string, pat: string): (r: string)
    requires pat != ""
    ensures |r| <= |s|
    decreases |s|
  {
    if |s| < |pat| then s
    else if s[..|pat|] == pat then RemoveAll(s[|pat|..], pat)
    else [s[0]] + RemoveAll(s[1..], pat)
  }

  /** A text without the first character of `pat` keeps all of itself. */
  lemma {:induction false} RemoveAllAbsent(s: string, pat: string)
    requires pat != "" && forall i :: 0 <= i < |s| ==> s[i] != pat[0]
    ensures RemoveAll(s, pat) == s
    decreases |s|
  {
    if |s| >= |pat| {
      assert s[..|pat|][0] == s[0];
      RemoveAllAbsent(s[1..], pat);
    }
  }

  /** Removing a one-character pattern works piece by piece. */
  lemma {:induction false} RemoveCharAppend(a: string, b: string, c: char)
    ensures RemoveAll(a + b, [c]) == RemoveAll(a, [c]) + RemoveAll(b, [c])
    decreases |a|
  {
    if a != [] {
      assert (a + b)[1..] == a[1..] + b;
      assert (a + b)[..1] == a[..1];
      RemoveCharAppend(a[1..], b, c);
      if a[..1] == [c] {
        assert RemoveAll(a + b, [c]) == RemoveAll(a[1..] + b, [c]);
        assert RemoveAll(a, [c]) == RemoveAll(a[1..], [c]);
      } else {
        assert RemoveAll(a + b, [c]) == [a[0]] + RemoveAll(a[1..] + b, [c]);
        assert RemoveAll(a, [c]) == [a[0]] + RemoveAll(a[1..], [c]);
      }
    } else {
      assert a + b == b;
    }
  }

  /** Removing hyphens from two pieces joined by a hyphen. */
  lemma HyphenJoin(x: string, y: string)
    ensures RemoveAll(x + "-" + y, "-") == RemoveAll(x, "-") + RemoveAll(y, "-")
  {
    RemoveCharAppend(x, "-" + y, '-');
    RemoveCharAppend("-", y, '-');
    assert x + "-" + y == x + ("-" + y);
  }

  predicate Lacks(s: string, ch: char) { forall i :: 0 <= i < |s| ==> s[i] != ch }

  /** Joining two pieces with a hyphen adds no other character. */
  lemma LacksJoin(x: string, y: string, ch: char)
    requires Lacks(x, ch) && Lacks(y, ch) && ch != '-'
    ensures Lacks(x + "-" + y, ch)
  {
    var t := x + "-" + y;
    forall i | 0 <= i < |t| ensures t[i] != ch {
      if i < |x| { assert t[i] == x[i]; }
      else if i > |x| { assert t[i] == y[i - |x| - 1]; }
    }
  }

  /** `str.strip(chars)`: the leading and trailing characters in `cs` removed. */
  function StripChars(s: string, cs: set<char>): (r: string)
    ensures |r| <= |s|
    ensures r != [] ==> r[0] !in cs && r[|r| - 1] !in cs
    decreases |s|
  {
    if s == [] then s
    else if s[0] in cs then StripChars(s[1..], cs)
    else if s[|s| - 1] in cs then StripChars(s[..|s| - 1], cs)
    else s
  }

  predicate IsHexDigit(c: char) { '0' <= c <= '9' || 'a' <= c <= 'f' || 'A' <= c <= 'F' }

  predicate AllHex(s: string) { forall i :: 0 <= i < |s| ==> IsHexDigit(s[i]) }

  /** The digits `uuid.UUID(hex=t)` reads: `urn:` and `uuid:` removed, braces
      stripped from both ends, hyphens removed. */
  function UuidDigits(t: string): string {
    RemoveAll(StripChars(RemoveAll(RemoveAll(t, "urn:"), "uuid:"), {'{', '}'}), "-")
  }

  /** `UUIDField.to_python` accepts the text: its digits are 32 hexadecimal
      digits. */
  predicate IsUuidText(t: string) {
    var h := UuidDigits(t);
    |h| == 32 && AllHex(h)
  }

  /** Two runs of hexadecimal digits joined are one. */
  lemma AllHexJoin(x: string, y: string)
    requires AllHex(x) && AllHex(y)
    ensures AllHex(x + y)
  {
    forall i | 0 <= i < |x + y| ensures IsHexDigit((x + y)[i]) {
      if i < |x| { assert (x + y)[i] == x[i]; } else { assert (x + y)[i] == y[i - |x|]; }
    }
  }

  /** The hyphens of the `8-4-4-4-12` spelling removed leave the digits. */
  lemma HyphensOfCanonical(a: string, b: string, c: string, d: string, e: string)
    requires AllHex(a) && AllHex(b) && AllHex(c) && AllHex(d) && AllHex(e)
    ensures RemoveAll(a + "-" + (b + "-" + (c + "-" + (d + "-" + e))), "-") == a + (b + (c + (d + e)))
  {
    var de := d + "-" + e;
    var cde := c + "-" + de;
    var bcde := b + "-" + cde;
    HexHasNoHyphen(a);
    HexHasNoHyphen(b);
    HexHasNoHyphen(c);
    HexHasNoHyphen(d);
    HexHasNoHyphen(e);
    HyphenJoin(d, e);
    assert RemoveAll(de, "-") == d + e;
    HyphenJoin(c, de);
    assert RemoveAll(cde, "-") == c + (d + e);
    HyphenJoin(b, cde);
    assert RemoveAll(bcde, "-") == b + (c + (d + e));
    HyphenJoin(a, bcde);
  }

  /** Hexadecimal digits hold no hyphen to remove. */
  lemma HexHasNoHyphen(s: string)
    requires AllHex(s)
    ensures RemoveAll(s, "-") == s
  {
    RemoveAllAbsent(s, "-");
  }

  /** The canonical spelling has no `u`, so no `urn:` or `uuid:` to remove. */
  lemma CanonicalHasNoPrefix(a: string, b: string, c: string, d: string, e: string)
    requires AllHex(a) && AllHex(b) && AllHex(c) && AllHex(d) && AllHex(e)
    ensures var t := a + "-" + (b + "-" + (c + "-" + (d + "-" + e)));
      RemoveAll(RemoveAll(t, "urn:"), "uuid:") == t
  {
    var de := d + "-" + e;
    var cde := c + "-" + de;
    var bcde := b + "-" + cde;
    var t := a + "-" + bcde;
    LacksJoin(d, e, 'u');
    LacksJoin(c, de, 'u');
    LacksJoin(b, cde, 'u');
    LacksJoin(a, bcde, 'u');
    RemoveAllAbsent(t, "urn:");
    RemoveAllAbsent(t, "uuid:");
  }

  /** The canonical `8-4-4-4-12` spelling is a UUID. */
  lemma CanonicalUuidAccepted(a: string, b: string, c: string, d: string, e: string)
    requires |a| == 8 && |b| == 4 && |c| == 4 && |d| == 4 && |e| == 12
    requires AllHex(a) && AllHex(b) && AllHex(c) && AllHex(d) && AllHex(e)
    ensures IsUuidText(a + "-" + b + "-" + c + "-" + d + "-" + e)
  {
    var t := a + "-" + (b + "-" + (c + "-" + (d + "-" + e)));
    assert t == a + "-" + b + "-" + c + "-" + d + "-" + e;
    CanonicalHasNoPrefix(a, b, c, d, e);
    assert t[0] == a[0] && t[|t| - 1] == e[11];
    assert StripChars(t, {'{', '}'}) == t;
    HyphensOfCanonical(a, b, c, d, e);
    AllHexJoin(d, e);
    AllHexJoin(c, d + e);
    AllHexJoin(b, c + (d + e));
    AllHexJoin(a, b + (c + (d + e)));
  }

  /** A database id such as `7` is not a UUID. */
  lemma ShortIdIsNotUuid()
    ensures !IsUuidText("7")
  {
    assert RemoveAll("7", "urn:") == "7";
    assert RemoveAll("7", "uuid:") == "7";
    assert StripChars("7", {'{', '}'}) == "7";
    assert |RemoveAll("7", "-")| <= 1;
  }

  const ImageExtensions: set<string> := {".png", ".jpg", ".jpeg", ".gif", ".webp", ".bmp"}

  /** `Message.is_image`. */
  function IsImage(attachmentType: string, attachment: Option<string>): bool {
    var t := Lower(attachmentType);
    if t != "" then t == "image"
    else if attachment.Some? && attachment.value != "" then Lower(Extension(attachment.value)) in ImageExtensions
    else false
  }

  /** A non-empty attachment type alone decides, whatever file is attached. */
  lemma IsImageTypeDecides(attachmentType: string, a1: Option<string>, a2: Option<string>)
    requires attachmentType != ""
    ensures IsImage(attachmentType, a1) == IsImage(attachmentType, a2)
    ensures IsImage(attachmentType, a1) <==> Lower(attachmentType) == "image"
  {
    assert |Lower(attachmentType)| > 0;
  }

  /** Without a type and without a file the message is not an image. */
  lemma IsImageNoAttachment()
    ensures !IsImage("", None)
    ensures !IsImage("", Some(""))
  {
  }

  /** The last occurrence of `c` in `a + [c] + b` is at `|a|` when `b` has none. */
  lemma {:induction false} LastIndexOfSplit(a: string, c: char, b: string)
    requires forall j :: 0 <= j < |b| ==> b[j] != c
    ensures LastIndexOf(a + [c] + b, c) == Some(|a|)
    decreases |b|
  {
    var s := a + [c] + b;
    if b != [] {
      assert s[..|s| - 1] == a + [c] + b[..|b| - 1];
      LastIndexOfSplit(a, c, b[..|b| - 1]);
    }
  }

  /** Without a type, a file whose base name has a stem and an image
      extension is an image, whatever directory it sits in. */
  lemma {:induction false} IsImageByExtension(dir: string, stem: string, ext: string)
    requires ext in ImageExtensions
    requires stem != [] && forall j :: 0 <= j < |stem| ==> stem[j] != '/' && stem[j] != '.'
    ensures IsImage("", Some(dir + "/" + stem + ext))
  {
    ImageExtensionShape(ext);
    BasenameOfSplit(dir, stem, ext);
    ExtensionOfStem(stem, ext);
    assert Extension(dir + "/" + stem + ext) == ext;
  }

  /** The base name of `dir/stem.ext` is `stem.ext` when neither part holds a slash. */
  lemma BasenameOfSplit(dir: string, stem: string, ext: string)
    requires forall j :: 0 <= j < |stem| ==> stem[j] != '/'
    requires forall j :: 0 <= j < |ext| ==> ext[j] != '/'
    ensures Basename(dir + "/" + stem + ext) == stem + ext
  {
    var b := stem + ext;
    assert forall j :: 0 <= j < |b| ==> b[j] != '/';
    LastIndexOfSplit(dir, '/', b);
    assert dir + "/" + stem + ext == dir + ['/'] + b;
  }

  /** In `stem.ext` with a dot-free, non-empty stem and a dot-free tail, the last
      dot starts the extension and is preceded by a non-dot. */
  lemma ExtensionOfStem(stem: string, ext: string)
    requires stem != [] && forall j :: 0 <= j < |stem| ==> stem[j] != '/' && stem[j] != '.'
    requires |ext| > 1 && ext[0] == '.'
    requires forall j :: 1 <= j < |ext| ==> IsAsciiLower(ext[j])
    ensures LastIndexOf(stem + ext, '.') == Some(|stem|)
    ensures (stem + ext)[0] != '.'
    ensures (stem + ext)[|stem|..] == ext
  {
    assert forall j :: 1 <= j < |ext| ==> ext[j] != '.';
    LastIndexOfSplit(stem, '.', ext[1..]);
    assert stem + ext == stem + ['.'] + ext[1..];
  }

  /** Every image extension is a dot followed by lower-case letters. */
  lemma {:induction false} ImageExtensionShape(ext: string)
    requires ext in ImageExtensions
    ensures |ext| > 1 && ext[0] == '.'
    ensures forall j :: 1 <= j < |ext| ==> IsAsciiLower(ext[j])
    ensures Lower(ext) == ext
  {
    if ext == ".png" {
      assert IsAsciiLower('p') && IsAsciiLower('n') && IsAsciiLower('g');
    } else if ext == ".jpg" {
      assert IsAsciiLower('j') && IsAsciiLower('p') && IsAsciiLower('g');
    } else if ext == ".jpeg" {
      assert IsAsciiLower('j') && IsAsciiLower('p') && IsAsciiLower('e') && IsAsciiLower('g');
    } else if ext == ".gif" {
      assert IsAsciiLower('g') && IsAsciiLower('i') && IsAsciiLower('f');
    } else if ext == ".webp" {
      assert IsAsciiLower('w') && IsAsciiLower('e') && IsAsciiLower('b') && IsAsciiLower('p');
    } else {
      assert ext == ".bmp";
      assert IsAsciiLower('b') && IsAsciiLower('m') && IsAsciiLower('p');
    }
    LowerNoUpper(ext);
  }

  /** `Message.__str__`: `[<room>] <author name>: <text>`, with the author
      name of `AuthorLabel` and the text of `LabelText`. */
  function MessageLabel(room: nat, username: Option<string>, email: Option<string>,
                        displayName: string, content: string, attachmentName: string): (r: string)
    ensures var prefix := "[" + NatToString(room) + "] ";
            var name := AuthorLabel(username, email, displayName);
            |r| == |prefix| + |name| + 2 + |LabelText(content, attachmentName)|
            && StartsWith(r, prefix)
            && r[|prefix|..|prefix| + |name|] == name
            && r[|prefix| + |name|..|prefix| + |name| + 2] == ": "
            && r[|prefix| + |name| + 2..] == LabelText(content, attachmentName)
  {
    var prefix := "[" + NatToString(room) + "] ";
    var name := AuthorLabel(username, email, displayName);
    var r := prefix + name + ": " + LabelText(content, attachmentName);
    assert r == prefix + (name + (": " + LabelText(content, attachmentName)));
    r
  }

  /** The author part of the label: the first non-empty of the username, the
      email and the display name, else "Unknown". An author without a
      `username` attribute passes `None`. */
  function AuthorLabel(username: Option<string>, email: Option<string>, displayName: string): (r: string)
    ensures r != ""
    ensures username.Some? && username.value != "" ==> r == username.value
    ensures !(username.Some? && username.value != "") && email.Some? && email.value != "" ==> r == email.value
    ensures !(username.Some? && username.value != "") && !(email.Some? && email.value != "")
            ==> r == (if displayName != "" then displayName else "Unknown")
  {
    if username.Some? && username.value != "" then username.value
    else if email.Some? && email.value != "" then email.value
    else if displayName != "" then displayName
    else "Unknown"
  }

  /** The text part of the label: `content[:30]` when there is content. */
  function LabelText(content: string, attachmentName: string): (r: string)
    ensures content != "" ==> r == content[..if |content| < 30 then |content| else 30]
    ensures content == "" && attachmentName != "" ==> r == attachmentName
    ensures content == "" && attachmentName == "" ==> r == "…"
  {
    if content != "" then Take(content, 30)
    else if attachmentName != "" then attachmentName
    else "…"
  }

  /** `Message.soft_delete`: sets `deleted_at` only when it is unset. */
  function SoftDeleted(m: Message, now: int): (r: Message)
    ensures r.deletedAt.Some?
    ensures m.deletedAt.Some? ==> r == m
    ensures m.deletedAt.None? ==> r == m.(deletedAt := Some(now))
  {
    if m.deletedAt.Some? then m else m.(deletedAt := Some(now))
  }

  /** Soft deletion is idempotent: a second call never overwrites the
      timestamp of the first. */
  lemma SoftDeleteIdempotent(m: Message, t1: int, t2: int)
    ensures SoftDeleted(SoftDeleted(m, t1), t2) == SoftDeleted(m, t1)
  {
  }

  /** `Friendship.save`: when both ids are set (non-zero) and out of order,
      they are swapped. */
  function NormalizedPair(user1: nat, user2: nat): (r: (nat, nat))
    ensures user1 != 0 && user2 != 0 ==> r.0 <= r.1
    ensures r == (user1, user2) || r == (user2, user1)
    ensures user1 <= user2 ==> r == (user1, user2)
  {
    if user1 != 0 && user2 != 0 && user1 > user2 then (user2, user1) else (user1, user2)
  }

  /** Saving a normalised pair again changes nothing; both orders save to the
      same row. */
  lemma NormalizedPairIdempotent(u1: nat, u2: nat)
    requires u1 != 0 && u2 != 0
    ensures NormalizedPair(NormalizedPair(u1, u2).0, NormalizedPair(u1, u2).1) == NormalizedPair(u1, u2)
    ensures NormalizedPair(u1, u2) == NormalizedPair(u2, u1)
  {
  }

  /** Every reply in `rows` names a message that is in `rows`. */
  ghost predicate RepliesResolve(rows: map<string, Message>) {
    forall k :: k in rows && rows[k].replyTo.Some? ==> rows[k].replyTo.value in rows
  }

  /** The rows after `hard_delete` of `id`: that row is gone, and since
      `reply_to` is `on_delete=SET_NULL`, every reply to it loses its
      `reply_to`; every other column of every other row is kept. */
  function WithoutMessage(rows: map<string, Message>, id: string): (r: map<string, Message>)
    ensures r.Keys == rows.Keys - {id}
    ensures forall k :: k in r ==> r[k].replyTo != Some(id)
    ensures forall k :: k in r ==>
      r[k].replyTo == (if rows[k].replyTo == Some(id) then None else rows[k].replyTo) &&
      r[k] == rows[k].(replyTo := r[k].replyTo)
    ensures RepliesResolve(rows) ==> RepliesResolve(r)
  {
    map k | k in rows && k != id :: if rows[k].replyTo == Some(id) then rows[k].(replyTo := None) else rows[k]
  }

  /** The message table together with the per-user hidden marks
      (`HiddenMessage`, unique per `(user, message)`). */
  class MessageTable {
    var rows: map<string, Message>
    var hidden: set<(nat, string)>

    constructor ()
      ensures rows == map[] && hidden == {}
    {
      rows := map[];
      hidden := {};
    }

    ghost predicate Valid()
      reads this
    {
      forall id :: id in rows ==> rows[id].id == id
    }

    /** `soft_delete` on a stored message. */
    method SoftDelete(id: string, now: int)
      requires Valid() && id in rows
      modifies this
      ensures Valid()
      ensures rows == old(rows)[id := SoftDeleted(old(rows)[id], now)]
      ensures hidden == old(hidden)
    {
      rows := rows[id := SoftDeleted(rows[id], now)];
    }

    /** `hard_delete`: the row is removed, replies to it keep no
        `reply_to`, and its hidden marks cascade. */
    method HardDelete(id: string)
      requires Valid()
      modifies this
      ensures Valid()
      ensures rows == WithoutMessage(old(rows), id)
      ensures hidden == set h | h in old(hidden) && h.1 != id
    {
      rows := WithoutMessage(rows, id);
      hidden := set h | h in hidden && h.1 != id;
    }

    method Insert(m: Message)
      requires Valid()
      modifies this
      ensures Valid()
      ensures rows == old(rows)[m.id := m] && hidden == old(hidden)
    {
      rows := rows[m.id := m];
    }
  }
}
