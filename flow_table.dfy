/** The client's bookkeeping of open dialogues: for each user the list of their flows, most recent
    last, and for each message awaiting an edit the flow that watches it. Flows are named by keys;
    the bot holds the flow objects themselves. */
module FlowTable {
  import opened Wrappers
  import opened Reactions
  import opened FlowEngine

  type FlowKey = nat

  /** The user's list after a successful removal of the flow. */
  function AfterClose(flows: map<UserId, seq<FlowKey>>, user: UserId, key: FlowKey): map<UserId, seq<FlowKey>> {
    if user in flows then flows[user := RemoveFirst(flows[user], key)] else flows
  }

  class Table {
    /** `client.flows`. */
    var flows: map<UserId, seq<FlowKey>>
    /** `client.messages_pending_edit`. */
    var pendingEdit: map<MessageId, FlowKey>

    constructor ()
      ensures flows == map[] && pendingEdit == map[]
    {
      flows, pendingEdit := map[], map[];
    }

    /** `flows.get(user, [])`. */
    function FlowsOf(user: UserId): seq<FlowKey>
      reads this
    {
      if user in flows then flows[user] else []
    }

    /** Whether `flows[user]` holds the flow, so that removing it succeeds. */
    predicate Listed(user: UserId, key: FlowKey)
      reads this
    {
      user in flows && key in flows[user]
    }

    /** What `flows[user].remove(flow)` would raise, if anything. */
    function RemovalError(user: UserId, key: FlowKey): (r: Option<string>)
      reads this
      ensures r.None? <==> Listed(user, key)
    {
      if user !in flows then Some("KeyError")
      else if key !in flows[user] then Some("ValueError")
      else None
    }

    /** `flows[user] = flows.get(user, []); flows[user].append(flow)`: the user's list gains the
        flow at its end and every other list is untouched. */
    method Register(user: UserId, key: FlowKey)
      modifies this
      ensures flows == old(flows)[user := old(FlowsOf(user)) + [key]]
      ensures pendingEdit == old(pendingEdit)
    {
      flows := flows[user := FlowsOf(user) + [key]];
    }

    /** `flows[user].remove(flow)`: a KeyError when the user has no list, a ValueError when the
        flow is not in it; otherwise its first occurrence goes. */
    method Remove(user: UserId, key: FlowKey) returns (err: Option<string>)
      modifies this
      ensures err == old(RemovalError(user, key))
      ensures err.None? ==> flows == AfterClose(old(flows), user, key)
      ensures err.Some? ==> flows == old(flows)
      ensures pendingEdit == old(pendingEdit)
    {
      if user !in flows {
        return Some("KeyError");
      }
      if key !in flows[user] {
        return Some("ValueError");
      }
      flows := flows[user := RemoveFirst(flows[user], key)];
      return None;
    }

    /** `messages_pending_edit[id] = flow`: the message is watched by the flow, replacing any
        flow that watched it before. */
    method Watch(id: MessageId, key: FlowKey)
      modifies this
      ensures pendingEdit == old(pendingEdit)[id := key]
      ensures flows == old(flows)
    {
      pendingEdit := pendingEdit[id := key];
    }

    /** `del messages_pending_edit[id]`: a KeyError when the message is not watched. */
    method Forget(id: MessageId) returns (err: Option<string>)
      modifies this
      ensures err.None? <==> id in old(pendingEdit)
      ensures err.Some? ==> err == Some("KeyError") && pendingEdit == old(pendingEdit)
      ensures pendingEdit == old(pendingEdit) - {id}
      ensures flows == old(flows)
    {
      if id !in pendingEdit {
        return Some("KeyError");
      }
      pendingEdit := pendingEdit - {id};
      return None;
    }
  }

  /** `client.message_aliases` and `client.message_pairs`: which original message each re-posted
      message stands for (and which re-post an original got), and the prefix/replacement pairing
      of the two messages a re-post consists of. */
  class Reposts {
    var aliases: map<MessageId, Msg>
    var pairs: map<MessageId, MessageId>

    constructor ()
      ensures aliases == map[] && pairs == map[]
    {
      aliases, pairs := map[], map[];
    }

    /** The bookkeeping at the end of `resend_message`: both posted messages stand for the
        original, the original now stands for its replacement, and the two posts name each other. */
    method Record(original: Msg, prefix: Msg, replacement: Msg)
      modifies this
      ensures aliases == old(aliases)[prefix.id := original][replacement.id := original][original.id := replacement]
      ensures pairs == old(pairs)[replacement.id := prefix.id][prefix.id := replacement.id]
    {
      aliases := aliases[prefix.id := original][replacement.id := original][original.id := replacement];
      pairs := pairs[replacement.id := prefix.id][prefix.id := replacement.id];
    }
  }
}
