/**
 * The tunnel stream of the session layer: it turns the message-framed data of
 * an SSH channel into a byte stream.  One `Data` payload at a time is kept in
 * `readBuf`; the unread part is the window `readBuf[bufferOffset..bufferEnd]`.
 */
module TunnelStream {
  import opened Formatting
  import opened AdapterErrors
  import opened Channels

  /** Messages `poll_read` passes over while it waits for bytes: empty `Data` and
    * message kinds other than `Data`, `Eof` and `Close`. */
  predicate Skipped(m: ChannelMsg)
  {
    m.OtherMsg? || m == Data([])
  }

  /** Index of the first message that ends a read with an empty window, or `|msgs|`. */
  function ReadStop(msgs: seq<ChannelMsg>): (k: nat)
    ensures k <= |msgs|
    ensures forall j :: 0 <= j < k ==> Skipped(msgs[j])
    ensures k < |msgs| ==> !Skipped(msgs[k])
  {
    if msgs == [] || !Skipped(msgs[0]) then 0 else 1 + ReadStop(msgs[1..])
  }

  /** Skipped messages carry no bytes. */
  lemma {:induction false} SkippedCarryNothing(msgs: seq<ChannelMsg>)
    requires forall j :: 0 <= j < |msgs| ==> Skipped(msgs[j])
    ensures Payloads(msgs) == []
  {
    if msgs != [] {
      SkippedCarryNothing(msgs[1..]);
    }
  }

  /** Whether the read loop goes round again or returns `result`. */
  datatype Received = Again | Finish(result: ReadPoll)

  function Min(a: nat, b: nat): nat
  {
    if a < b then a else b
  }

  class SshTunnelStream {
    const channel: Channel
    var readBuf: seq<u8>
    var bufferOffset: nat
    var bufferEnd: nat

    ghost predicate Valid()
      reads this
    {
      bufferOffset <= bufferEnd <= |readBuf|
    }

    /** The bytes received but not yet handed to a reader. */
    ghost function Window(): seq<u8>
      reads this
      requires Valid()
    {
      readBuf[bufferOffset..bufferEnd]
    }

    /** Everything a reader has still to receive, in order: the window, then the
      * payloads of the messages still queued on the channel. */
    ghost function Unread(): seq<u8>
      reads this, channel
      requires Valid()
    {
      Window() + Payloads(channel.inbox)
    }

    /** A new stream over `ch` starts with an empty buffer and an empty window. */
    constructor (ch: Channel)
      ensures Valid() && channel == ch
      ensures readBuf == [] && bufferOffset == 0 && bufferEnd == 0
    {
      channel := ch;
      readBuf := [];
      bufferOffset, bufferEnd := 0, 0;
    }

    /** Hands out up to `capacity` bytes from the front of a non-empty window. */
    method Serve(capacity: nat) returns (out: seq<u8>)
      requires Valid() && bufferOffset < bufferEnd
      modifies this
      ensures Valid()
      ensures var n := Min(old(bufferEnd - bufferOffset), capacity);
        && out == old(readBuf[bufferOffset..bufferOffset + n])
        && bufferOffset == old(bufferOffset) + n
        && bufferEnd == old(bufferEnd) && readBuf == old(readBuf)
      ensures old(Window()) == out + Window()
    {
      var length := Min(bufferEnd - bufferOffset, capacity);
      var offset := bufferOffset;
      bufferOffset := bufferOffset + length;
      out := readBuf[offset..bufferOffset];
      assert readBuf[offset..bufferEnd] == out + readBuf[bufferOffset..bufferEnd];
    }

    /** Takes a `Data` payload as the new window: a larger payload replaces the buffer,
      * a smaller one overwrites its prefix. */
    method Store(data: seq<u8>)
      requires Valid()
      modifies this
      ensures Valid() && Window() == data
      ensures bufferOffset == 0 && bufferEnd == |data|
      ensures readBuf == (if |data| > |old(readBuf)| then data else data + old(readBuf)[|data|..])
    {
      bufferOffset := 0;
      bufferEnd := |data|;
      if |data| > |readBuf| {
        readBuf := data;
      } else {
        readBuf := data + readBuf[|data|..];
      }
    }

    /** One poll of the channel while the window is empty: a `Data` payload becomes the
      * window, `Eof` and `Close` end the read with an error, a finished channel ends it
      * with no bytes, an empty channel leaves it pending, anything else is passed over. */
    method Receive() returns (next: Received)
      requires Valid() && bufferOffset == bufferEnd
      modifies this, channel
      ensures Valid() && Unread() == old(Unread())
      ensures channel.finished == old(channel.finished) && channel.sent == old(channel.sent)
      ensures channel.eofSent == old(channel.eofSent)
      ensures old(channel.inbox) == [] ==>
        && channel.inbox == [] && readBuf == old(readBuf) && bufferOffset == bufferEnd
        && next == Finish(if channel.finished then ReadOk else ReadPending)
      ensures old(channel.inbox) != [] ==>
        var m := old(channel.inbox)[0];
        && channel.inbox == old(channel.inbox)[1..]
        && (Skipped(m) ==> next == Again && readBuf == old(readBuf) && bufferOffset == bufferEnd)
        && (m.Eof? || m.Close? ==>
              next == Finish(ReadErr(IoError(UnexpectedEof, ""))) && readBuf == old(readBuf) && bufferOffset == bufferEnd)
        && (m.Data? && m.data != [] ==>
              && next == Again && bufferOffset == 0 && bufferEnd == |m.data|
              && readBuf == (if |m.data| > |old(readBuf)| then m.data else m.data + old(readBuf)[|m.data|..]))
    {
      ghost var queued := channel.inbox;
      var polled := channel.Wait();
      match polled {
        case Message(msg) =>
          assert Payloads(queued) == MsgBytes(msg) + Payloads(channel.inbox);
          match msg {
            case Data(data) =>
              Store(data);
              next := Again;
            case Eof =>
              next := Finish(ReadErr(IoError(UnexpectedEof, "")));
            case Close =>
              next := Finish(ReadErr(IoError(UnexpectedEof, "")));
            case OtherMsg(_) =>
              next := Again;
          }
        case Finished =>
          next := Finish(ReadOk);
        case NotYet =>
          next := Finish(ReadPending);
      }
    }

    /** Reads at most `capacity` bytes (what the caller's buffer has room for). */
    method PollRead(capacity: nat) returns (r: ReadPoll, out: seq<u8>)
      requires Valid()
      modifies this, channel
      ensures Valid()
      ensures old(Unread()) == out + Unread()
      ensures |out| <= capacity
      ensures channel.finished == old(channel.finished) && channel.sent == old(channel.sent)
      ensures channel.eofSent == old(channel.eofSent)
      // bytes left in the window: serve from it without touching the channel
      ensures old(bufferEnd - bufferOffset) > 0 ==>
        var n := Min(old(bufferEnd - bufferOffset), capacity);
        && r == ReadOk
        && out == old(readBuf[bufferOffset..bufferOffset + n])
        && bufferOffset == old(bufferOffset) + n
        && bufferEnd == old(bufferEnd) && readBuf == old(readBuf)
        && channel.inbox == old(channel.inbox)
      // empty window: pass over skipped messages up to the first one that decides the read
      ensures old(bufferEnd - bufferOffset) == 0 ==>
        var inbox0 := old(channel.inbox);
        var k := ReadStop(inbox0);
        && (k == |inbox0| ==>
              && channel.inbox == [] && out == []
              && r == (if channel.finished then ReadOk else ReadPending))
        && (k < |inbox0| ==> channel.inbox == inbox0[k + 1..])
        && (k < |inbox0| && !inbox0[k].Data? ==> r == ReadErr(IoError(UnexpectedEof, "")) && out == [])
        && (k == |inbox0| || !inbox0[k].Data? ==> readBuf == old(readBuf) && bufferOffset == bufferEnd)
        && (k < |inbox0| && inbox0[k].Data? ==>
              var d := inbox0[k].data;
              && r == ReadOk
              && out == d[..Min(|d|, capacity)]
              && readBuf == (if |d| > |old(readBuf)| then d else d + old(readBuf)[|d|..])
              && bufferOffset == |out| && bufferEnd == |d|)
    {
      if bufferEnd - bufferOffset == 0 {
        r, out := ReadEmptyWindow(capacity);
      } else {
        out := Serve(capacity);
        r := ReadOk;
      }
    }

    /** A read with an empty window: refill it from the channel, then serve from it. */
    method ReadEmptyWindow(capacity: nat) returns (r: ReadPoll, out: seq<u8>)
      requires Valid() && bufferOffset == bufferEnd
      modifies this, channel
      ensures Valid()
      ensures old(Unread()) == out + Unread()
      ensures channel.finished == old(channel.finished) && channel.sent == old(channel.sent)
      ensures channel.eofSent == old(channel.eofSent)
      ensures
        var inbox0 := old(channel.inbox);
        var k := ReadStop(inbox0);
        && (k == |inbox0| ==>
              && channel.inbox == [] && out == []
              && r == (if channel.finished then ReadOk else ReadPending))
        && (k < |inbox0| ==> channel.inbox == inbox0[k + 1..])
        && (k < |inbox0| && !inbox0[k].Data? ==> r == ReadErr(IoError(UnexpectedEof, "")) && out == [])
        && (k == |inbox0| || !inbox0[k].Data? ==> readBuf == old(readBuf) && bufferOffset == bufferEnd)
        && (k < |inbox0| && inbox0[k].Data? ==>
              var d := inbox0[k].data;
              && r == ReadOk
              && out == d[..Min(|d|, capacity)]
              && readBuf == (if |d| > |old(readBuf)| then d else d + old(readBuf)[|d|..])
              && bufferOffset == |out| && bufferEnd == |d|)
    {
      var next := Refill();
      if next.Finish? {
        r, out := next.result, [];
        return;
      }
      out := Serve(capacity);
      r := ReadOk;
    }

    /** Polls the channel, passing over skipped messages, until a message or the lack of
      * one decides the read: `Again` when a payload now fills the window. */
    method Refill() returns (next: Received)
      requires Valid() && bufferOffset == bufferEnd
      modifies this, channel
      ensures Valid() && Unread() == old(Unread())
      ensures channel.finished == old(channel.finished) && channel.sent == old(channel.sent)
      ensures channel.eofSent == old(channel.eofSent)
      ensures
        var inbox0 := old(channel.inbox);
        var k := ReadStop(inbox0);
        && (k == |inbox0| ==>
              && channel.inbox == []
              && next == Finish(if channel.finished then ReadOk else ReadPending))
        && (k < |inbox0| ==> channel.inbox == inbox0[k + 1..])
        && (k < |inbox0| && !inbox0[k].Data? ==> next == Finish(ReadErr(IoError(UnexpectedEof, ""))))
        && (k == |inbox0| || !inbox0[k].Data? ==> readBuf == old(readBuf) && bufferOffset == bufferEnd)
        && (k < |inbox0| && inbox0[k].Data? ==>
              var d := inbox0[k].data;
              && next == Again && Window() == d
              && readBuf == (if |d| > |old(readBuf)| then d else d + old(readBuf)[|d|..])
              && bufferOffset == 0 && bufferEnd == |d|)
    {
      ghost var inbox0 := channel.inbox;
      ghost var k := ReadStop(inbox0);
      ghost var taken := 0;
      next := Again;
      while true
        invariant Valid() && Unread() == old(Unread())
        invariant 0 <= taken <= k && channel.inbox == inbox0[taken..]
        invariant channel.finished == old(channel.finished) && channel.sent == old(channel.sent)
        invariant channel.eofSent == old(channel.eofSent)
        invariant readBuf == old(readBuf) && bufferOffset == bufferEnd
        decreases |channel.inbox|
      {
        next := Receive();
        if next.Finish? || bufferOffset != bufferEnd {
          return;
        }
        taken := taken + 1;
      }
    }

    /** Sends the whole of `buf`; on success reports all of it as written. */
    method PollWrite(buf: seq<u8>, network: SendOutcome) returns (r: WritePoll)
      modifies channel
      ensures r == match network
                   case Sent => Written(|buf|)
                   case SendFailed(reason) => WriteErr(StreamError(reason))
                   case SendPending => WritePending
      ensures channel.sent == (if network == Sent then old(channel.sent) + buf else old(channel.sent))
      ensures channel.inbox == old(channel.inbox) && channel.finished == old(channel.finished)
      ensures channel.eofSent == old(channel.eofSent)
    {
      var p := channel.SendData(buf, network);
      match p {
        case Sent => r := Written(|buf|);
        case SendFailed(reason) => r := WriteErr(StreamError(reason));
        case SendPending => r := WritePending;
      }
    }

    /** The stream keeps no write buffer of its own: flushing always succeeds at once. */
    method PollFlush() returns (r: UnitPoll)
      ensures r == UnitOk
    {
      r := UnitOk;
    }

    /** Shutting down sends the channel's end-of-file. */
    method PollShutdown(network: SendOutcome) returns (r: UnitPoll)
      modifies channel
      ensures r == match network
                   case Sent => UnitOk
                   case SendFailed(reason) => UnitErr(StreamError(reason))
                   case SendPending => UnitPending
      ensures channel.eofSent == (old(channel.eofSent) || network == Sent)
      ensures channel.inbox == old(channel.inbox) && channel.finished == old(channel.finished)
      ensures channel.sent == old(channel.sent)
    {
      var p := channel.SendEof(network);
      match p {
        case Sent => r := UnitOk;
        case SendFailed(reason) => r := UnitErr(StreamError(reason));
        case SendPending => r := UnitPending;
      }
    }
  }
}
