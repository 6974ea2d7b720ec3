/** Friend requests, friendships and blocks (backend/chat/services.py, second
    half, over the FriendRequest, Friendship and Block tables of
    backend/chat/models.py). */
module SocialGraph {
  import opened Wrappers
  import opened ChatModels
  import opened Sorting

  /** `_pair`: the two ids in ascending order. */
  function Pair(a: nat, b: nat): (r: (nat, nat))
    ensures r.0 <= r.1
    ensures (r.0 == a && r.1 == b) || (r.0 == b && r.1 == a)
  {
    if a <= b then (a, b) else (b, a)
  }

  lemma PairSymmetric(a: nat, b: nat)
    ensures Pair(a, b) == Pair(b, a)
  {
  }

  /** `are_friends`: the normalised row exists. */
  predicate AreFriendsIn(friendships: seq<(nat, nat)>, a: nat, b: nat) {
    Pair(a, b) in friendships
  }

  /** `block_exists`: a block in either direction. */
  predicate BlockExistsIn(blocks: set<(nat, nat)>, a: nat, b: nat) {
    (a, b) in blocks || (b, a) in blocks
  }

  /** Both relations are symmetric in their arguments. */
  lemma FriendsAndBlocksSymmetric(friendships: seq<(nat, nat)>, blocks: set<(nat, nat)>, a: nat, b: nat)
    ensures AreFriendsIn(friendships, a, b) == AreFriendsIn(friendships, b, a)
    ensures BlockExistsIn(blocks, a, b) == BlockExistsIn(blocks, b, a)
  {
    PairSymmetric(a, b);
  }

  datatype SocialError = SelfRequest

  class SocialGraph {
    /** `FriendRequest` rows keyed by `(from_user, to_user)` */
    var requests: map<(nat, nat), FriendRequest>
    /** `Friendship` rows `(user1, user2)`, in creation order */
    var friendships: seq<(nat, nat)>
    /** `Block` rows `(blocker, blocked)` */
    var blocks: set<(nat, nat)>

    constructor ()
      ensures Valid() && requests == map[] && friendships == [] && blocks == {}
    {
      requests, friendships, blocks := map[], [], {};
    }

    /** Each friendship is stored once, with `user1 <= user2`. */
    ghost predicate Valid()
      reads this
    {
      NoDuplicates(friendships) &&
      forall p :: p in friendships ==> p.0 <= p.1
    }

    predicate AreFriends(a: nat, b: nat)
      reads this
    {
      AreFriendsIn(friendships, a, b)
    }

    predicate BlockExists(a: nat, b: nat)
      reads this
    {
      BlockExistsIn(blocks, a, b)
    }

    /** `send_friend_request`: refused for oneself; creates a pending request
        when there is none; puts an answered request back to pending with no
        response time; leaves a pending one as it is. */
    method SendFriendRequest(from: nat, to: nat, now: int) returns (r: Result<FriendRequest, SocialError>)
      requires Valid()
      modifies this
      ensures Valid()
      ensures friendships == old(friendships) && blocks == old(blocks)
      ensures from == to ==> r == Err(SelfRequest) && requests == old(requests)
      ensures from != to && (from, to) !in old(requests) ==>
        r == Ok(FriendRequest(Pending, now, None)) && requests == old(requests)[(from, to) := r.value]
      ensures from != to && (from, to) in old(requests) && old(requests)[(from, to)].status != Pending ==>
        r == Ok(old(requests)[(from, to)].(status := Pending, respondedAt := None)) &&
        requests == old(requests)[(from, to) := r.value]
      ensures from != to && (from, to) in old(requests) && old(requests)[(from, to)].status == Pending ==>
        r == Ok(old(requests)[(from, to)]) && requests == old(requests)
    {
      if from == to {
        return Err(SelfRequest);
      }
      if (from, to) !in requests {
        var fr := FriendRequest(Pending, now, None);
        requests := requests[(from, to) := fr];
        return Ok(fr);
      }
      var fr := requests[(from, to)];
      if fr.status != Pending {
        fr := fr.(status := Pending, respondedAt := None);
        requests := requests[(from, to) := fr];
      }
      return Ok(fr);
    }

    /** `accept_friend_request`: the request becomes accepted and exactly one
        friendship row exists for the pair afterwards. */
    method AcceptFriendRequest(from: nat, to: nat, now: int)
      requires Valid() && (from, to) in requests
      modifies this
      ensures Valid()
      ensures requests == old(requests)[(from, to) := old(requests)[(from, to)].(status := Accepted, respondedAt := Some(now))]
      ensures friendships == if Pair(from, to) in old(friendships) then old(friendships) else old(friendships) + [Pair(from, to)]
      ensures AreFriends(from, to) && AreFriends(to, from)
      ensures blocks == old(blocks)
    {
      requests := requests[(from, to) := requests[(from, to)].(status := Accepted, respondedAt := Some(now))];
      var p := Pair(from, to);
      if p !in friendships {
        friendships := friendships + [p];
      }
      PairSymmetric(from, to);
    }

    /** `reject_friend_request`: no friendship is created. */
    method RejectFriendRequest(from: nat, to: nat, now: int)
      requires Valid() && (from, to) in requests
      modifies this
      ensures Valid()
      ensures requests == old(requests)[(from, to) := old(requests)[(from, to)].(status := Rejected, respondedAt := Some(now))]
      ensures friendships == old(friendships) && blocks == old(blocks)
    {
      requests := requests[(from, to) := requests[(from, to)].(status := Rejected, respondedAt := Some(now))];
    }

    /** `remove_friend`: deletes the pair's row. */
    method RemoveFriend(a: nat, b: nat)
      requires Valid()
      modifies this
      ensures Valid()
      ensures friendships == Without(old(friendships), Pair(a, b))
      ensures !AreFriends(a, b) && !AreFriends(b, a)
      ensures requests == old(requests) && blocks == old(blocks)
    {
      WithoutKeepsDistinct(friendships, Pair(a, b));
      friendships := Without(friendships, Pair(a, b));
      PairSymmetric(a, b);
    }

    /** `block_user`: get-or-create, so blocking twice is blocking once. */
    method BlockUser(blocker: nat, blocked: nat)
      requires Valid()
      modifies this
      ensures Valid()
      ensures blocks == old(blocks) + {(blocker, blocked)}
      ensures BlockExists(blocker, blocked) && BlockExists(blocked, blocker)
      ensures requests == old(requests) && friendships == old(friendships)
    {
      blocks := blocks + {(blocker, blocked)};
    }

    /** `unblock_user`: only the blocker -> blocked direction is removed. */
    method UnblockUser(blocker: nat, blocked: nat)
      requires Valid()
      modifies this
      ensures Valid()
      ensures blocks == old(blocks) - {(blocker, blocked)}
      ensures blocker != blocked ==> ((blocked, blocker) in blocks <==> (blocked, blocker) in old(blocks))
      ensures requests == old(requests) && friendships == old(friendships)
    {
      blocks := blocks - {(blocker, blocked)};
    }
  }
}
