/** The Channels layer as the application uses it: named groups of consumer
    channels and an append-only log of `(group, event)` pairs, one entry per
    `group_send`. */
module Channels {
  import opened Json

  datatype Sent = Sent(group: string, event: Json)

  class ChannelLayer {
    /** group name -> the channel names currently in the group */
    var groups: map<string, set<string>>
    /** every `group_send`, in order */
    var sent: seq<Sent>

    constructor ()
      ensures groups == map[] && sent == []
    {
      groups := map[];
      sent := [];
    }

    function Members(g: string): set<string>
      reads this
    {
      if g in groups then groups[g] else {}
    }

    method GroupAdd(g: string, channel: string)
      modifies this
      ensures groups == old(groups)[g := old(Members(g)) + {channel}]
      ensures sent == old(sent)
    {
      groups := groups[g := Members(g) + {channel}];
    }

    method GroupDiscard(g: string, channel: string)
      modifies this
      ensures groups == old(groups)[g := old(Members(g)) - {channel}]
      ensures sent == old(sent)
    {
      groups := groups[g := Members(g) - {channel}];
    }

    method GroupSend(g: string, event: Json)
      modifies this
      ensures sent == old(sent) + [Sent(g, event)]
      ensures groups == old(groups)
    {
      sent := sent + [Sent(g, event)];
    }
  }
}
