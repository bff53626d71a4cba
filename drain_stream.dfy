/**
 * The older tunnel stream: the unread bytes of the last `Data` payload are
 * kept in `readBuf` and handed out by draining it from the front.
 */
module DrainStream {
  import opened Formatting
  import opened AdapterErrors
  import opened Channels

  /** Index of the first message that decides a read with an empty buffer (anything
    * but an unrecognised kind, empty `Data` included), or `|msgs|`. */
  function DrainStop(msgs: seq<ChannelMsg>): (k: nat)
    ensures k <= |msgs|
    ensures forall j :: 0 <= j < k ==> msgs[j].OtherMsg?
    ensures k < |msgs| ==> !msgs[k].OtherMsg?
  {
    if msgs == [] || !msgs[0].OtherMsg? then 0 else 1 + DrainStop(msgs[1..])
  }

  /** Whether the read loop goes round again or returns `result`. */
  datatype Received = Again | Finish(result: ReadPoll)

  function Min(a: nat, b: nat): nat
  {
    if a < b then a else b
  }

  class SshTunnelStream {
    const channel: Channel
    var readBuf: seq<u8>

    /** Everything a reader has still to receive, in order. */
    ghost function Unread(): seq<u8>
      reads this, channel
    {
      readBuf + Payloads(channel.inbox)
    }

    /** A new stream over `ch` starts with nothing buffered. */
    constructor (ch: Channel)
      ensures channel == ch && readBuf == []
    {
      channel := ch;
      readBuf := [];
    }

    /** Drains up to `capacity` bytes from the front of the buffer. */
    method Drain(capacity: nat) returns (out: seq<u8>)
      modifies this
      ensures out == old(readBuf[..Min(|readBuf|, capacity)])
      ensures readBuf == old(readBuf[Min(|readBuf|, capacity)..])
      ensures old(readBuf) == out + readBuf
    {
      var length := Min(|readBuf|, capacity);
      out := readBuf[..length];
      readBuf := readBuf[length..];
    }

    /** One poll of the channel with an empty buffer: a `Data` payload is buffered and its
      * prefix drained at once, `Eof` and `Close` end the read with an error, a finished
      * channel ends it with no bytes, an empty channel leaves it pending, anything else is
      * passed over. */
    method Receive(capacity: nat) returns (next: Received, out: seq<u8>)
      requires readBuf == []
      modifies this, channel
      ensures old(Unread()) == out + Unread()
      ensures channel.finished == old(channel.finished) && channel.sent == old(channel.sent)
      ensures channel.eofSent == old(channel.eofSent)
      ensures old(channel.inbox) == [] ==>
        && channel.inbox == [] && readBuf == [] && out == []
        && next == Finish(if channel.finished then ReadOk else ReadPending)
      ensures old(channel.inbox) != [] ==>
        var m := old(channel.inbox)[0];
        && channel.inbox == old(channel.inbox)[1..]
        && (m.OtherMsg? ==> next == Again && readBuf == [] && out == [])
        && (m.Eof? || m.Close? ==>
              next == Finish(ReadErr(IoError(UnexpectedEof, ""))) && readBuf == [] && out == [])
        && (m.Data? ==>
              && next == Finish(ReadOk)
              && out == m.data[..Min(|m.data|, capacity)]
              && readBuf == m.data[Min(|m.data|, capacity)..])
    {
      ghost var queued := channel.inbox;
      var polled := channel.Wait();
      out := [];
      match polled {
        case Message(msg) =>
          assert Payloads(queued) == MsgBytes(msg) + Payloads(channel.inbox);
          match msg {
            case Data(data) =>
              readBuf := data;
              out := Drain(capacity);
              next := Finish(ReadOk);
            case Eof =>
              next := Finish(ReadErr(IoError(UnexpectedEof, "")));
            case Close =>
              next := Finish(ReadErr(IoError(UnexpectedEof, "")));
            case OtherMsg(_) =>
              next := Again;
          }
        case Finished =>
          next := Finish(ReadOk);
        case NotYet =>
          next := Finish(ReadPending);
      }
    }

    /** Reads at most `capacity` bytes (what the caller's buffer has room for). */
    method PollRead(capacity: nat) returns (r: ReadPoll, out: seq<u8>)
      modifies this, channel
      ensures old(Unread()) == out + Unread()
      ensures |out| <= capacity
      ensures channel.finished == old(channel.finished) && channel.sent == old(channel.sent)
      ensures channel.eofSent == old(channel.eofSent)
      // buffered bytes: drain from them without touching the channel
      ensures old(readBuf) != [] ==>
        && r == ReadOk
        && out == old(readBuf[..Min(|readBuf|, capacity)])
        && readBuf == old(readBuf[Min(|readBuf|, capacity)..])
        && channel.inbox == old(channel.inbox)
      // empty buffer: pass over unrecognised messages up to the first one that decides the read
      ensures old(readBuf) == [] ==>
        var inbox0 := old(channel.inbox);
        var k := DrainStop(inbox0);
        && (k == |inbox0| ==>
              && channel.inbox == [] && out == [] && readBuf == []
              && r == (if channel.finished then ReadOk else ReadPending))
        && (k < |inbox0| ==> channel.inbox == inbox0[k + 1..])
        && (k < |inbox0| && !inbox0[k].Data? ==>
              r == ReadErr(IoError(UnexpectedEof, "")) && out == [] && readBuf == [])
        && (k < |inbox0| && inbox0[k].Data? ==>
              var d := inbox0[k].data;
              && r == ReadOk
              && out == d[..Min(|d|, capacity)]
              && readBuf == d[Min(|d|, capacity)..])
    {
      if readBuf != [] {
        out := Drain(capacity);
        r := ReadOk;
        return;
      }
      r, out := ReadChannel(capacity);
    }

    /** Polls the channel with an empty buffer, passing over unrecognised messages, until
      * a message or the lack of one decides the read. */
    method ReadChannel(capacity: nat) returns (r: ReadPoll, out: seq<u8>)
      requires readBuf == []
      modifies this, channel
      ensures old(Unread()) == out + Unread()
      ensures channel.finished == old(channel.finished) && channel.sent == old(channel.sent)
      ensures channel.eofSent == old(channel.eofSent)
      ensures
        var inbox0 := old(channel.inbox);
        var k := DrainStop(inbox0);
        && (k == |inbox0| ==>
              && channel.inbox == [] && out == [] && readBuf == []
              && r == (if channel.finished then ReadOk else ReadPending))
        && (k < |inbox0| ==> channel.inbox == inbox0[k + 1..])
        && (k < |inbox0| && !inbox0[k].Data? ==>
              r == ReadErr(IoError(UnexpectedEof, "")) && out == [] && readBuf == [])
        && (k < |inbox0| && inbox0[k].Data? ==>
              var d := inbox0[k].data;
              && r == ReadOk
              && out == d[..Min(|d|, capacity)]
              && readBuf == d[Min(|d|, capacity)..])
    {
      ghost var inbox0 := channel.inbox;
      ghost var k := DrainStop(inbox0);
      ghost var taken := 0;
      out := [];
      while true
        invariant 0 <= taken <= k && channel.inbox == inbox0[taken..]
        invariant channel.finished == old(channel.finished) && channel.sent == old(channel.sent)
        invariant channel.eofSent == old(channel.eofSent)
        invariant readBuf == [] && Unread() == old(Unread())
        decreases |channel.inbox|
      {
        var next;
        next, out := Receive(capacity);
        if next.Finish? {
          r := next.result;
          return;
        }
        taken := taken + 1;
      }
    }

    /** Sends the whole of `buf`; on success reports all of it as written. */
    method PollWrite(buf: seq<u8>, network: SendOutcome) returns (r: WritePoll)
      modifies channel
      ensures r == match network
                   case Sent => Written(|buf|)
                   case SendFailed(reason) => WriteErr(StreamError(reason))
                   case SendPending => WritePending
      ensures channel.sent == (if network == Sent then old(channel.sent) + buf else old(channel.sent))
      ensures channel.inbox == old(channel.inbox) && channel.finished == old(channel.finished)
      ensures channel.eofSent == old(channel.eofSent)
    {
      var p := channel.SendData(buf, network);
      match p {
        case Sent => r := Written(|buf|);
        case SendFailed(reason) => r := WriteErr(StreamError(reason));
        case SendPending => r := WritePending;
      }
    }

    /** The stream keeps no write buffer of its own: flushing always succeeds at once. */
    method PollFlush() returns (r: UnitPoll)
      ensures r == UnitOk
    {
      r := UnitOk;
    }

    /** Shutting down sends the channel's end-of-file. */
    method PollShutdown(network: SendOutcome) returns (r: UnitPoll)
      modifies channel
      ensures r == match network
                   case Sent => UnitOk
                   case SendFailed(reason) => UnitErr(StreamError(reason))
                   case SendPending => UnitPending
      ensures channel.eofSent == (old(channel.eofSent) || network == Sent)
      ensures channel.inbox == old(channel.inbox) && channel.finished == old(channel.finished)
      ensures channel.sent == old(channel.sent)
    {
      var p := channel.SendEof(network);
      match p {
        case Sent => r := UnitOk;
        case SendFailed(reason) => r := UnitErr(StreamError(reason));
        case SendPending => r := UnitPending;
      }
    }
  }
}
