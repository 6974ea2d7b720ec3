/** The REST permission classes of backend/chat/permissions.py. */
module ChatPermissions {
  import opened Wrappers
  import opened ChatSerializers

  /** `IsAuthenticated.has_permission`: there is a request user and it is
      authenticated. */
  function IsAuthenticated(q: Requester): (r: bool)
    ensures r <==> q.SignedIn?
  {
    match q
    case SignedIn(_) => true
    case _ => false
  }

  /** `IsChatParticipant.has_permission`.  `getChat` is `None` when the view
      has no callable `get_chat`, else the participants of the chat it
      returns; the anonymous user's primary key is `None`. */
  function IsChatParticipant(getChat: Option<set<nat>>, q: Requester): (r: bool)
    ensures getChat.None? ==> !r
    ensures getChat.Some? ==> (r <==> q.SignedIn? && q.id in getChat.value)
  {
    match getChat
    case None => false
    case Some(participants) => RequesterId(q).Some? && RequesterId(q).value in participants
  }

  /** Being a participant implies being authenticated. */
  lemma ParticipantIsAuthenticated(getChat: Option<set<nat>>, q: Requester)
    ensures IsChatParticipant(getChat, q) ==> IsAuthenticated(q)
  {
  }
}
