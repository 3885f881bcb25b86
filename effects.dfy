/** The world outside the plugin, as seen by its handlers: the chat
    platform messages are sent to and deleted from, and the backend that
    answers questions. It stands for the I/O the handlers do; nothing of
    the platforms or of the backend protocol is modelled. */
module Effects {
  import opened Json
  import opened Messages

  class World {
    /** Every message sent, in order (plain sends, finishing messages and
        forward bundles alike). */
    var sent: seq<Message>
    /** The id the platform gives the next message sent. */
    var nextMessageId: int
    /** Ids of the messages deleted, in order. */
    var deleted: seq<int>
    /** What the backend answers the next questions with; `None` when asking
        raises. With nothing left, asking raises. */
    var replies: seq<Option<Json>>
    /** How many questions were asked. */
    var asked: nat
    /** Whether creating a backend client raises. */
    const createFails: bool
    /** The cookie probes' results, or `None` when gathering them raises. */
    const gathered: Option<seq<bool>>

    constructor (replies: seq<Option<Json>>, createFails: bool, gathered: Option<seq<bool>>, firstMessageId: int)
      ensures this.replies == replies && this.createFails == createFails && this.gathered == gathered
      ensures sent == [] && deleted == [] && asked == 0 && nextMessageId == firstMessageId
    {
      this.replies := replies;
      this.createFails := createFails;
      this.gathered := gathered;
      sent := [];
      deleted := [];
      asked := 0;
      nextMessageId := firstMessageId;
    }

    /** Sends a message and returns the id it was given. */
    method Send(m: Message) returns (id: int)
      modifies this
      ensures sent == old(sent) + [m] && id == old(nextMessageId) && nextMessageId == id + 1
      ensures deleted == old(deleted) && replies == old(replies) && asked == old(asked)
    {
      sent := sent + [m];
      id := nextMessageId;
      nextMessageId := nextMessageId + 1;
    }

    /** Deletes a sent message. */
    method Delete(id: int)
      modifies this
      ensures deleted == old(deleted) + [id]
      ensures sent == old(sent) && nextMessageId == old(nextMessageId) && replies == old(replies) && asked == old(asked)
    {
      deleted := deleted + [id];
    }

    /** Asks the backend one question. */
    method Ask() returns (reply: Option<Json>)
      modifies this
      ensures asked == old(asked) + 1
      ensures old(replies) == [] ==> reply == None && replies == []
      ensures old(replies) != [] ==> reply == old(replies)[0] && replies == old(replies)[1..]
      ensures sent == old(sent) && nextMessageId == old(nextMessageId) && deleted == old(deleted)
    {
      asked := asked + 1;
      if replies == [] {
        reply := None;
      } else {
        reply := replies[0];
        replies := replies[1..];
      }
    }
  }

  /** Sent messages only accumulate: a prefix of a prefix is a prefix. */
  lemma SentGrows(a: seq<Message>, b: seq<Message>, c: seq<Message>)
    requires a <= b && b <= c
    ensures a <= c
  {
    assert c[..|a|] == c[..|b|][..|a|];
  }
}
