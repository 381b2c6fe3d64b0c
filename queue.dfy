// The processing queue and its dead-letter queue as plain message lists with
// send and delete. Redelivery, visibility timeouts and the move of a message
// to the dead-letter queue after repeated receives are queue configuration,
// not code, and are not modelled.

module Queue {
  import opened Common

  /** The decoded `Body` of a message as the handlers see it: a JSON object
      (a field that is absent or `null` is `None`; identifiers are strings or
      numbers), some other JSON value, or text that is not JSON. */
  datatype Body =
    | Job(videoId: Option<AttrValue>, ownerUsername: Option<AttrValue>, timestamp: Option<real>)
    | NotAnObject
    | Malformed

  /** A received message: its id, its receipt handle, its body (`None` when the
      envelope has no `Body`) and its string attributes. */
  datatype Message = Message(messageId: string, receiptHandle: string, body: Option<Body>,
                             attributes: map<string, string>)

  /** The messages that remain once every copy with this receipt handle is deleted. */
  function WithoutHandle(msgs: seq<Message>, receiptHandle: string): (r: seq<Message>)
    ensures forall m :: m in r <==> m in msgs && m.receiptHandle != receiptHandle
    ensures multiset(r) <= multiset(msgs)
  {
    if msgs == [] then []
    else
      assert msgs == [msgs[0]] + msgs[1..];
      if msgs[0].receiptHandle == receiptHandle then WithoutHandle(msgs[1..], receiptHandle)
      else [msgs[0]] + WithoutHandle(msgs[1..], receiptHandle)
  }

  /** The queue after `delete_message(message)` (and after
      `delete_message_from_dlq`, the same call on the dead-letter queue),
      which answers `False` on a `ClientError` and deletes nothing. */
  function Deleted(msgs: seq<Message>, m: Message, deleteFails: bool): (r: seq<Message>)
    ensures multiset(r) <= multiset(msgs)
    ensures deleteFails ==> r == msgs
    ensures !deleteFails ==> forall x :: x in r <==> x in msgs && x.receiptHandle != m.receiptHandle
  {
    if deleteFails then msgs else WithoutHandle(msgs, m.receiptHandle)
  }

  /** Deleting by a handle no message carries changes nothing. */
  lemma {:induction false} WithoutAbsentHandle(msgs: seq<Message>, receiptHandle: string)
    requires forall i :: 0 <= i < |msgs| ==> msgs[i].receiptHandle != receiptHandle
    ensures WithoutHandle(msgs, receiptHandle) == msgs
  {
    if msgs != [] {
      WithoutAbsentHandle(msgs[1..], receiptHandle);
      assert msgs == [msgs[0]] + msgs[1..];
    }
  }

  /** Deleting is idempotent: a second delete with the same handle is a no-op. */
  lemma WithoutHandleTwice(msgs: seq<Message>, receiptHandle: string)
    ensures WithoutHandle(WithoutHandle(msgs, receiptHandle), receiptHandle) == WithoutHandle(msgs, receiptHandle)
  {
    var once := WithoutHandle(msgs, receiptHandle);
    forall i | 0 <= i < |once| ensures once[i].receiptHandle != receiptHandle {
      assert once[i] in once;
    }
    WithoutAbsentHandle(once, receiptHandle);
  }

  /** One queue. Every remote call may fail with a `ClientError`; whether it
      does is an input of the call. */
  class MessageQueue {
    var messages: seq<Message>

    constructor(messages: seq<Message>)
      ensures this.messages == messages
    {
      this.messages := messages;
    }

    /** `send_message`: `True` and the message enqueued, or `False` and nothing. */
    method Send(m: Message, fails: bool) returns (r: bool)
      modifies this
      ensures r == !fails
      ensures messages == if fails then old(messages) else old(messages) + [m]
    {
      if fails {
        return false;
      }
      messages := messages + [m];
      r := true;
    }

    /** `delete_message` by the message's receipt handle. */
    method Delete(m: Message, fails: bool) returns (r: bool)
      modifies this
      ensures r == !fails
      ensures messages == if fails then old(messages) else WithoutHandle(old(messages), m.receiptHandle)
    {
      if fails {
        return false;
      }
      messages := WithoutHandle(messages, m.receiptHandle);
      r := true;
    }
  }
}
