/**
 * The SSH channel a tunnel stream reads from and writes to.  Incoming
 * messages wait in `inbox`; `finished` says the sender is gone, so that once
 * the inbox is empty `wait()` yields `None` instead of pending.  `sent` and
 * `eofSent` record what the stream has pushed out.
 */
module Channels {
  import opened Formatting
  import opened AdapterErrors

  datatype ChannelMsg = Data(data: seq<u8>) | Eof | Close | OtherMsg(kind: nat)

  /** `Poll<Option<ChannelMsg>>` for one poll of `channel.wait()`. */
  datatype WaitPoll = Message(msg: ChannelMsg) | Finished | NotYet

  /** What the network answers to one poll of a send (`data` or `eof`). */
  datatype SendOutcome = Sent | SendFailed(reason: string) | SendPending

  /** Poll results of the stream operations. */
  datatype ReadPoll = ReadOk | ReadErr(error: IoError) | ReadPending
  datatype WritePoll = Written(count: nat) | WriteErr(error: IoError) | WritePending
  datatype UnitPoll = UnitOk | UnitErr(error: IoError) | UnitPending

  /** The bytes one message carries. */
  function MsgBytes(m: ChannelMsg): seq<u8>
  {
    if m.Data? then m.data else []
  }

  /** The bytes carried by the `Data` messages of `msgs`, in order. */
  function Payloads(msgs: seq<ChannelMsg>): seq<u8>
  {
    if msgs == [] then [] else MsgBytes(msgs[0]) + Payloads(msgs[1..])
  }

  lemma {:induction false} PayloadsAppend(a: seq<ChannelMsg>, b: seq<ChannelMsg>)
    ensures Payloads(a + b) == Payloads(a) + Payloads(b)
  {
    if a == [] {
      assert a + b == b;
    } else {
      assert (a + b)[0] == a[0];
      assert (a + b)[1..] == a[1..] + b;
      PayloadsAppend(a[1..], b);
    }
  }

  /** Splitting the inbox around message `k` splits its payloads the same way. */
  lemma PayloadsAt(msgs: seq<ChannelMsg>, k: nat)
    requires k < |msgs|
    ensures Payloads(msgs) == Payloads(msgs[..k]) + MsgBytes(msgs[k]) + Payloads(msgs[k + 1..])
  {
    var pre, rest := msgs[..k], msgs[k..];
    assert msgs == pre + rest;
    PayloadsAppend(pre, rest);
    assert rest[0] == msgs[k] && rest[1..] == msgs[k + 1..];
    var a, b, c := Payloads(pre), MsgBytes(msgs[k]), Payloads(msgs[k + 1..]);
    assert Payloads(rest) == b + c;
    assert a + (b + c) == a + b + c;
  }

  /** Every `PpStreamError` the stream reports becomes an io error of kind `Other`. */
  function StreamError(reason: string): IoError
  {
    IoError(Other, reason)
  }

  class Channel {
    var inbox: seq<ChannelMsg>
    var finished: bool
    var sent: seq<u8>
    var eofSent: bool

    constructor (incoming: seq<ChannelMsg>, senderGone: bool)
      ensures inbox == incoming && finished == senderGone && sent == [] && !eofSent
    {
      inbox, finished, sent, eofSent := incoming, senderGone, [], false;
    }

    /** One poll of `wait()`: the oldest message, `None` once the channel is finished, else pending. */
    method Wait() returns (p: WaitPoll)
      modifies this
      ensures old(inbox) != [] ==> p == Message(old(inbox)[0]) && inbox == old(inbox)[1..]
      ensures old(inbox) == [] ==> inbox == [] && p == (if finished then Finished else NotYet)
      ensures finished == old(finished) && sent == old(sent) && eofSent == old(eofSent)
    {
      if inbox != [] {
        p := Message(inbox[0]);
        inbox := inbox[1..];
      } else if finished {
        p := Finished;
      } else {
        p := NotYet;
      }
    }

    /** One poll of `data(buf)`: the bytes go out only when the send completes. */
    method SendData(buf: seq<u8>, outcome: SendOutcome) returns (p: SendOutcome)
      modifies this
      ensures p == outcome
      ensures sent == (if outcome == Sent then old(sent) + buf else old(sent))
      ensures inbox == old(inbox) && finished == old(finished) && eofSent == old(eofSent)
    {
      if outcome == Sent {
        sent := sent + buf;
      }
      p := outcome;
    }

    /** One poll of `eof()`. */
    method SendEof(outcome: SendOutcome) returns (p: SendOutcome)
      modifies this
      ensures p == outcome
      ensures eofSent == (old(eofSent) || outcome == Sent)
      ensures inbox == old(inbox) && finished == old(finished) && sent == old(sent)
    {
      if outcome == Sent {
        eofSent := true;
      }
      p := outcome;
    }
  }
}
