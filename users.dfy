/** The custom user model and its manager (backend/users/models.py). */
module Users {
  import opened Wrappers
  import opened Text

  datatype Role = Admin | Moderator | Vip | RegularUser

  /** A user row.  `username` is `None` because the model has no such field
      (`getattr(user, "username", None)` finds nothing); it is kept so that the
      fallback chains that probe it read as in the source. */
  datatype User = User(
    id: nat,
    email: string,
    username: Option<string>,
    nickname: string,
    firstName: string,
    lastName: string,
    role: Role,
    isActive: bool,
    isStaff: bool,
    isSuperuser: bool,
    hasUsablePassword: bool,
    avatarUrl: Option<string>)

  /** Extra keyword fields a caller may pass to `create_user`. */
  datatype ExtraFields = ExtraFields(isStaff: Option<bool>, isSuperuser: Option<bool>, role: Option<Role>, nickname: Option<string>)

  const NoExtra := ExtraFields(None, None, None, None)

  datatype UserError = EmailRequired | DuplicateEmail

  /** `BaseUserManager.normalize_email`: when the address has an `@`, it is
      stripped and the domain part after the last `@` is lower-cased. */
  function NormalizeEmail(email: string): (r: string)
    ensures |r| <= |email|
    ensures '@' !in Trim(email) ==> r == email
    ensures LastAt(Trim(email)).Some? ==>
      var t, i := Trim(email), LastAt(Trim(email)).value;
      |r| == |t| && r[..i] == t[..i] && r[i] == '@' && r[i + 1..] == Lower(t[i + 1..])
  {
    var t := Trim(email);
    match LastAt(t)
    case None => email
    case Some(i) => t[..i] + "@" + Lower(t[i + 1..])
  }

  function LastAt(s: string): (r: Option<nat>)
    ensures r.Some? ==> r.value < |s| && s[r.value] == '@'
    ensures r.Some? ==> forall j :: r.value < j < |s| ==> s[j] != '@'
    ensures r.None? <==> '@' !in s
  {
    if s == [] then None
    else if s[|s| - 1] == '@' then Some(|s| - 1)
    else LastAt(s[..|s| - 1])
  }

  /** An address without surrounding whitespace keeps its local part and gets
      its domain lower-cased. */
  lemma {:induction false} NormalizeEmailKeepsLocalPart(local: string, domain: string)
    requires local != [] && !IsSpace(local[0])
    requires domain != [] && !IsSpace(domain[|domain| - 1])
    requires forall i :: 0 <= i < |domain| ==> domain[i] != '@'
    ensures NormalizeEmail(local + "@" + domain) == local + "@" + Lower(domain)
  {
    var s := local + "@" + domain;
    TrimNoop(s);
    LastAtSplit(local, domain);
    assert s[..|local|] == local;
    assert s[|local| + 1..] == domain;
    JoinAtSign(NormalizeEmail(s), local, Lower(domain));
  }

  lemma JoinAtSign(r: string, a: string, b: string)
    requires |r| == |a| + 1 + |b| && r[..|a|] == a && r[|a|] == '@' && r[|a| + 1..] == b
    ensures r == a + "@" + b
  {
    assert r == r[..|a|] + [r[|a|]] + r[|a| + 1..];
  }

  lemma {:induction false} LastAtSplit(local: string, domain: string)
    requires forall i :: 0 <= i < |domain| ==> domain[i] != '@'
    ensures LastAt(local + "@" + domain) == Some(|local|)
    decreases |domain|
  {
    var s := local + "@" + domain;
    if domain != [] {
      assert s[..|s| - 1] == local + "@" + domain[..|domain| - 1];
      LastAtSplit(local, domain[..|domain| - 1]);
    }
  }

  /** `User.can_create_room`; the number of rooms the user already created is
      a parameter (the room model it counts is not part of this repository). */
  function CanCreateRoom(role: Role, ownedRooms: nat): (r: bool)
    ensures role == Admin ==> r
    ensures role == Moderator ==> (r <==> ownedRooms < 3)
    ensures role == Vip ==> (r <==> ownedRooms < 2)
    ensures role == RegularUser ==> !r
  {
    match role
    case Admin => true
    case Moderator => ownedRooms < 3
    case Vip => ownedRooms < 2
    case RegularUser => false
  }

  /** The names `backend/chat/models.py` defines at module level, which is
      what `from chat.models import …` can find. */
  const ChatModelNames: set<string> :=
    {"annotations", "os", "uuid4", "Optional", "settings", "models", "MPTTModel", "TreeForeignKey",
     "Q", "TextChoices", "_message_upload_to", "Label", "Folder", "ChatType", "Chat",
     "ChatParticipant", "Message", "HiddenMessage", "FriendRequestStatus", "FriendRequest",
     "Friendship", "Block"}

  /** `can_create_room` as written: its first statement imports `ChatRoom`
      from the chat models, and an import of a name the module does not
      define raises `ImportError` (`None`) before any role is looked at. */
  function CanCreateRoomAsWritten(role: Role, ownedRooms: nat): (r: Option<bool>)
    ensures r.None? <==> "ChatRoom" !in ChatModelNames
    ensures r.Some? ==> r.value == CanCreateRoom(role, ownedRooms)
  {
    if "ChatRoom" !in ChatModelNames then None else Some(CanCreateRoom(role, ownedRooms))
  }

  /** As written, every call raises, an administrator's too, where the role
      rules grant an administrator a room. */
  lemma CanCreateRoomRaisesAsWritten(role: Role, ownedRooms: nat)
    ensures CanCreateRoomAsWritten(role, ownedRooms).None?
    ensures role == Admin ==> CanCreateRoom(role, ownedRooms)
  {
    assert "ChatRoom" !in ChatModelNames;
  }

  /** A higher limit never refuses what a lower one allows: once a moderator
      or VIP is refused, owning more rooms keeps them refused. */
  lemma CanCreateRoomMonotone(role: Role, a: nat, b: nat)
    requires a <= b
    ensures CanCreateRoom(role, b) ==> CanCreateRoom(role, a)
  {
  }

  /** The `users` table. */
  class UserTable {
    var users: map<nat, User>
    var nextId: nat

    constructor ()
      ensures Valid() && users == map[]
    {
      users, nextId := map[], 1;
    }

    ghost predicate Valid()
      reads this
    {
      (forall id :: id in users ==> id < nextId && users[id].id == id && users[id].username.None?) &&
      (forall i, j :: i in users && j in users && i != j ==> users[i].email != users[j].email)
    }

    predicate EmailTaken(email: string)
      reads this
    {
      exists id :: id in users && users[id].email == email
    }

    /** `UserManager.create_user`: an empty email is refused; the email is
        normalised; role, activity and staff flags take their model defaults
        unless given; the unique email constraint refuses a duplicate. */
    method CreateUser(email: string, password: Option<string>, extra: ExtraFields) returns (r: Result<User, UserError>)
      requires Valid()
      modifies this
      ensures Valid()
      ensures email == "" ==> r == Err(EmailRequired) && users == old(users)
      ensures r.Err? ==> users == old(users)
      ensures r == Err(DuplicateEmail) <==> email != "" && old(EmailTaken(NormalizeEmail(email)))
      ensures r.Ok? ==>
        r.value.id !in old(users) && users == old(users)[r.value.id := r.value] &&
        r.value.email == NormalizeEmail(email) &&
        r.value.isStaff == extra.isStaff.GetOr(false) &&
        r.value.isSuperuser == extra.isSuperuser.GetOr(false) &&
        r.value.role == extra.role.GetOr(RegularUser) &&
        r.value.isActive && r.value.username.None? &&
        r.value.hasUsablePassword == password.Some?
    {
      if email == "" {
        return Err(EmailRequired);
      }
      var normalized := NormalizeEmail(email);
      if EmailTaken(normalized) {
        return Err(DuplicateEmail);
      }
      var u := User(nextId, normalized, None, extra.nickname.GetOr(""), "", "",
                    extra.role.GetOr(RegularUser), true, extra.isStaff.GetOr(false),
                    extra.isSuperuser.GetOr(false), password.Some?, None);
      users := users[nextId := u];
      nextId := nextId + 1;
      return Ok(u);
    }

    /** `UserManager.create_superuser`: staff and superuser default to true,
        an explicit value wins. */
    method CreateSuperuser(email: string, password: Option<string>, extra: ExtraFields) returns (r: Result<User, UserError>)
      requires Valid()
      modifies this
      ensures Valid()
      ensures email == "" ==> r == Err(EmailRequired)
      ensures r.Ok? ==>
        r.value.isStaff == extra.isStaff.GetOr(true) &&
        r.value.isSuperuser == extra.isSuperuser.GetOr(true) &&
        users == old(users)[r.value.id := r.value]
    {
      var withDefaults := extra.(isStaff := Some(extra.isStaff.GetOr(true)),
                                 isSuperuser := Some(extra.isSuperuser.GetOr(true)));
      r := CreateUser(email, password, withDefaults);
    }
  }
}
