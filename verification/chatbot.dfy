/**
 * The bot's message handler (chatbot.js): the global `userStates` object,
 * one entry per private-chat sender, updated in place by each inbound
 * message. Sending, the typing indicator and the pacing delays are left
 * out; the messages a turn sends are returned in order.
 */
module Chatbot {
  import opened Wrappers
  import opened JsString
  import opened Dialogue

  /** The sender-id suffix of a private chat; messages from other chats are ignored. */
  const PRIVATE_CHAT_SUFFIX := "@c.us"

  /** The entry a message from `userId` is handled with: the stored one, or a fresh `initial` one. */
  function EntryFor(states: map<string, Conv>, userId: string): Conv {
    if userId in states then states[userId] else Conv(Initial, map[])
  }

  class Bot {
    /** `userStates`: the conversation of every user currently in the dialogue. */
    var userStates: map<string, Conv>

    /**
     * Between messages every entry belongs to a private-chat sender and is in
     * an enumerated state other than `initial`: the handler's default branch
     * is never taken by the running bot.
     */
    ghost predicate Valid()
      reads this
    {
      forall u :: u in userStates ==>
        EndsWith(u, PRIVATE_CHAT_SUFFIX) &&
        IsDialogueState(userStates[u].state) && userStates[u].state != Initial
    }

    constructor ()
      ensures Valid() && userStates == map[]
    {
      userStates := map[];
    }

    /**
     * One inbound message. A message from a group is ignored. Otherwise the
     * sender's entry (created as `initial` with no answers on a first
     * message) is stepped with the trimmed text: replaced by the new entry,
     * or deleted when the user confirmed. No other user's entry changes.
     */
    method OnMessage(from: string, body: string) returns (sent: seq<Message>)
      requires Valid()
      modifies this
      ensures Valid()
      ensures !EndsWith(from, PRIVATE_CHAT_SUFFIX) ==> userStates == old(userStates) && sent == []
      ensures EndsWith(from, PRIVATE_CHAT_SUFFIX) ==>
        var entry := EntryFor(old(userStates), from);
        var r := Step(entry.state, entry.data, Trim(body));
        sent == r.out &&
        userStates == if r.next.Some? then old(userStates)[from := r.next.value] else old(userStates) - {from}
      ensures EndsWith(from, PRIVATE_CHAT_SUFFIX) && from !in old(userStates) ==>
        from in userStates && userStates[from] == Conv(WaitingOkStart, map[]) && sent == WELCOME
      ensures forall u :: u != from ==> (u in userStates <==> u in old(userStates))
      ensures forall u :: u != from && u in userStates ==> userStates[u] == old(userStates)[u]
    {
      if !EndsWith(from, PRIVATE_CHAT_SUFFIX) {
        return [];
      }
      var userId := from;
      var userMessage := Trim(body);
      if userId !in userStates {
        userStates := userStates[userId := Conv(Initial, map[])];
      }
      var userState := userStates[userId];
      var reply := Step(userState.state, userState.data, userMessage);
      match reply.next {
        case None =>
          userStates := userStates - {userId};
        case Some(next) =>
          userStates := userStates[userId := next];
      }
      sent := reply.out;
    }
  }
}
