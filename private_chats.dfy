/** Private (two-person) chats and their per-participant counters
    (backend/chat/services.py, first half). */
module PrivateChats {
  import opened Wrappers
  import opened Text
  import opened ChatModels

  /** `build_private_key`: `"<smaller id>:<larger id>"`. */
  function PrivateKey(a: nat, b: nat): string {
    var lo := if a <= b then a else b;
    var hi := if a <= b then b else a;
    NatToString(lo) + ":" + NatToString(hi)
  }

  /** The key does not depend on the order of the two users. */
  lemma PrivateKeySymmetric(a: nat, b: nat)
    ensures PrivateKey(a, b) == PrivateKey(b, a)
  {
  }

  /** Position of the first `c` in `s`, or `|s|` when there is none. */
  function FirstIndex(s: string, c: char): nat {
    if s == [] || s[0] == c then 0 else 1 + FirstIndex(s[1..], c)
  }

  lemma {:induction false} FirstColon(x: string, y: string)
    requires AllDigits(x)
    ensures FirstIndex(x + ":" + y, ':') == |x|
  {
    if x != [] {
      assert (x + ":" + y)[1..] == x[1..] + ":" + y;
      FirstColon(x[1..], y);
    }
  }

  lemma {:induction false} SplitAtColon(x1: string, y1: string, x2: string, y2: string)
    requires AllDigits(x1) && AllDigits(x2)
    requires x1 + ":" + y1 == x2 + ":" + y2
    ensures x1 == x2 && y1 == y2
  {
    var s := x1 + ":" + y1;
    FirstColon(x1, y1);
    FirstColon(x2, y2);
    assert x1 == s[..|x1|] == x2;
    assert y1 == s[|x1| + 1..] == y2;
  }

  /** Two pairs of users share a key exactly when they are the same unordered
      pair, so one key identifies one conversation. */
  lemma PrivateKeyInjective(a: nat, b: nat, c: nat, d: nat)
    ensures PrivateKey(a, b) == PrivateKey(c, d) <==> (a == c && b == d) || (a == d && b == c)
  {
    var lo1, hi1 := if a <= b then a else b, if a <= b then b else a;
    var lo2, hi2 := if c <= d then c else d, if c <= d then d else c;
    if PrivateKey(a, b) == PrivateKey(c, d) {
      SplitAtColon(NatToString(lo1), NatToString(hi1), NatToString(lo2), NatToString(hi2));
      NatToStringInjective(lo1, lo2);
      NatToStringInjective(hi1, hi2);
    }
  }

  predicate IsPrivateWith(c: Chat, key: string) { c.kind == Private && c.privateKey == Some(key) }

  /** Some chat already holds `key` as its (unique) private key. */
  predicate KeyTaken(chats: map<nat, Chat>, key: string) {
    exists id :: id in chats && chats[id].privateKey == Some(key)
  }

  predicate HasPrivate(chats: map<nat, Chat>, key: string) {
    exists id :: id in chats && IsPrivateWith(chats[id], key)
  }

  /** The users linked to a chat. */
  function ParticipantsOf(links: map<(nat, nat), Participant>, chat: nat): set<nat> {
    set k | k in links && k.0 == chat :: k.1
  }

  /** `inc_unread_for_others`, as a function of the participant table. */
  function IncUnread(links: map<(nat, nat), Participant>, chat: nat, author: nat): (r: map<(nat, nat), Participant>)
    ensures r.Keys == links.Keys
    ensures forall k :: k in links && k.0 == chat && k.1 != author ==>
      r[k] == links[k].(unreadCount := links[k].unreadCount + 1)
    ensures forall k :: k in links && (k.0 != chat || k.1 == author) ==> r[k] == links[k]
  {
    map k | k in links :: if k.0 == chat && k.1 != author then links[k].(unreadCount := links[k].unreadCount + 1) else links[k]
  }

  /** `mark_conversation_read`, as a function of the participant table. */
  function MarkRead(links: map<(nat, nat), Participant>, chat: nat, user: nat, now: int): (r: map<(nat, nat), Participant>)
    ensures r.Keys == links.Keys
    ensures (chat, user) in links ==>
      r[(chat, user)] == Participant(Some(now), 0, links[(chat, user)].isMuted)
    ensures forall k :: k in links && k != (chat, user) ==> r[k] == links[k]
  {
    if (chat, user) in links then links[(chat, user) := links[(chat, user)].(unreadCount := 0, lastReadAt := Some(now))]
    else links
  }

  /** A participant who reads the chat after a message from someone else has
      no unread messages, and the author's counter is what it was. */
  lemma ReadAfterIncrement(links: map<(nat, nat), Participant>, chat: nat, author: nat, reader: nat, now: int)
    requires (chat, author) in links && (chat, reader) in links && reader != author
    ensures MarkRead(IncUnread(links, chat, author), chat, reader, now)[(chat, reader)].unreadCount == 0
    ensures MarkRead(IncUnread(links, chat, author), chat, reader, now)[(chat, author)] == links[(chat, author)]
  {
  }

  /** `maybe_set_expires_at`: a secret chat with a non-zero timer gives the
      message an expiry `timer` seconds after `now`; otherwise it is kept. */
  function MaybeSetExpiresAt(chat: Chat, expiresAt: Option<int>, now: int): (r: Option<int>)
    ensures chat.isSecret && chat.selfDestructTimer.Some? && chat.selfDestructTimer.value > 0 ==>
      r.Some? && r.value > now && r.value - now == chat.selfDestructTimer.value
    ensures !(chat.isSecret && chat.selfDestructTimer.Some? && chat.selfDestructTimer.value > 0) ==> r == expiresAt
  {
    if chat.isSecret && chat.selfDestructTimer.Some? && chat.selfDestructTimer.value != 0
    then Some(now + chat.selfDestructTimer.value)
    else expiresAt
  }

  datatype DbError = IntegrityError

  /** The chat and participant tables. */
  class DmStore {
    var chats: map<nat, Chat>
    var links: map<(nat, nat), Participant>
    var nextId: nat

    constructor ()
      ensures Valid() && chats == map[] && links == map[]
    {
      chats, links, nextId := map[], map[], 1;
    }

    /** Ids are below `nextId`, every link points at a chat, and `private_key`
        is unique among chats. */
    ghost predicate Valid()
      reads this
    {
      (forall id :: id in chats ==> id < nextId) &&
      (forall k :: k in links ==> k.0 in chats) &&
      (forall i, j :: i in chats && j in chats && i != j && chats[i].privateKey.Some? ==>
         chats[i].privateKey != chats[j].privateKey)
    }

    /** `get_or_create_private_chat`, run inside one transaction: an existing
        private chat for the pair is returned as is; otherwise a chat named
        `dm:<key>` with exactly the two users is created.  When the insert
        would break a uniqueness constraint (the key already held by a chat
        that is not private, or both users being the same person so that the
        two participant rows collide) the transaction rolls back. */
    method GetOrCreatePrivateChat(current: nat, other: nat) returns (r: Result<(nat, bool), DbError>)
      requires Valid()
      modifies this
      ensures Valid()
      ensures r.Ok? && !r.value.1 <==> old(HasPrivate(chats, PrivateKey(current, other)))
      ensures r.Ok? ==> r.value.0 in chats && IsPrivateWith(chats[r.value.0], PrivateKey(current, other))
      ensures r.Ok? && !r.value.1 ==> chats == old(chats) && links == old(links)
      ensures r.Ok? && r.value.1 ==>
        r.value.0 !in old(chats) &&
        chats == old(chats)[r.value.0 := Chat(Private, "dm:" + PrivateKey(current, other), Some(PrivateKey(current, other)), false, None, None, {})] &&
        links == old(links)[(r.value.0, current) := NewParticipant][(r.value.0, other) := NewParticipant] &&
        ParticipantsOf(links, r.value.0) == {current, other}
      ensures r.Err? ==>
        chats == old(chats) && links == old(links) &&
        (current == other || old(KeyTaken(chats, PrivateKey(current, other))))
    {
      var key := PrivateKey(current, other);
      if HasPrivate(chats, key) {
        var id :| id in chats && IsPrivateWith(chats[id], key);
        return Ok((id, false));
      }
      if KeyTaken(chats, key) || current == other {
        return Err(IntegrityError);
      }
      var id := nextId;
      var chat := Chat(Private, "dm:" + key, Some(key), false, None, None, {});
      ghost var oldLinks := links;
      chats := chats[id := chat];
      links := links[(id, current) := NewParticipant][(id, other) := NewParticipant];
      nextId := nextId + 1;
      assert ParticipantsOf(links, id) == {current, other} by {
        forall u | u in ParticipantsOf(links, id) ensures u == current || u == other {
          assert (id, u) in links;
          assert (id, u) !in oldLinks;
        }
        assert (id, current) in links && (id, other) in links;
      }
      return Ok((id, true));
    }

    /** Calling `get_or_create_private_chat` again, with the users in either
        order, returns the same chat and reports that nothing was created. */
    method GetOrCreateTwice(current: nat, other: nat) returns (first: Result<(nat, bool), DbError>, second: Result<(nat, bool), DbError>)
      requires Valid()
      modifies this
      ensures Valid()
      ensures first.Ok? ==> second == Ok((first.value.0, false))
    {
      first := GetOrCreatePrivateChat(current, other);
      if first.Ok? {
        PrivateKeySymmetric(current, other);
        assert HasPrivate(chats, PrivateKey(other, current));
        ghost var before := chats;
        second := GetOrCreatePrivateChat(other, current);
        var id := second.value.0;
        assert id == first.value.0 by {
          assert before[id].privateKey == before[first.value.0].privateKey;
        }
      } else {
        second := first;
      }
    }

    /** `mark_conversation_read`. */
    method MarkConversationRead(chat: nat, user: nat, now: int)
      requires Valid()
      modifies this
      ensures Valid()
      ensures links == MarkRead(old(links), chat, user, now) && chats == old(chats)
    {
      links := MarkRead(links, chat, user, now);
    }

    /** `inc_unread_for_others`. */
    method IncUnreadForOthers(chat: nat, author: nat)
      requires Valid()
      modifies this
      ensures Valid()
      ensures links == IncUnread(old(links), chat, author) && chats == old(chats)
    {
      links := IncUnread(links, chat, author);
    }

    /** `last_message` is `on_delete=SET_NULL`: deleting a message clears it
        on every chat that pointed at it. */
    method ClearLastMessage(messageId: string)
      requires Valid()
      modifies this
      ensures Valid()
      ensures chats.Keys == old(chats).Keys && links == old(links)
      ensures forall c :: c in old(chats) && old(chats)[c].lastMessage == Some(messageId) ==>
        chats[c] == old(chats)[c].(lastMessage := None)
      ensures forall c :: c in old(chats) && old(chats)[c].lastMessage != Some(messageId) ==>
        chats[c] == old(chats)[c]
    {
      chats := map c | c in chats :: if chats[c].lastMessage == Some(messageId) then chats[c].(lastMessage := None) else chats[c];
    }

    /** Storing the id of the newest message on the chat (`last_message`). */
    method SetLastMessage(chat: nat, messageId: string)
      requires Valid() && chat in chats
      modifies this
      ensures Valid()
      ensures chats == old(chats)[chat := old(chats)[chat].(lastMessage := Some(messageId))]
      ensures links == old(links)
    {
      chats := chats[chat := chats[chat].(lastMessage := Some(messageId))];
    }
  }
}
