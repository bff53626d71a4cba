/**
 * The readiness adapter: it retries a non-blocking protocol call, and whenever
 * the call would block it waits for the socket readiness the protocol engine
 * says it is blocked on.  The engine is a script of attempts: each attempt is
 * the call's answer and, for an error, what `block_directions()` reports right
 * after it and what the readiness waits it triggers will yield.  The waits
 * actually performed are returned as a trace.  A script that runs out before
 * the operation finishes gives `Unfinished`: the real task would still be
 * retrying.
 */
module Readiness {
  import opened Wrappers
  import opened AdapterErrors

  datatype BlockDirections = Inbound | Outbound | Both | NoDirection

  /** One readiness wait, in the order it is started. */
  datatype Interest = Readable | Writable

  datatype Attempt<R, E, W> =
    | Returned(value: R)
    | Errored(error: E, blocked: BlockDirections, onReadable: W, onWritable: W)

  /** What a readiness poll yields: `Poll<io::Result<()>>`. */
  datatype ReadyPoll = Pending | Ready | ReadyErr(e: IoError)

  /** Result of the async variant. `Panicked` is the fail-fast `unreachable!`. */
  datatype AsyncOutcome<R> = Done(value: R) | Failed(error: Error) | Panicked | Unfinished

  /** Result of the poll variant: `Poll::Ready(Ok)`, `Poll::Ready(Err)`, `Poll::Pending`. */
  datatype PollOutcome<R> = ReadyOk(value: R) | ReadyFailed(error: IoError) | NotReady | PollPanicked | PollUnfinished

  datatype Run<O> = Run(outcome: O, waits: seq<Interest>, calls: nat)

  function Prepend<O>(w: seq<Interest>, r: Run<O>): Run<O>
  {
    Run(r.outcome, w + r.waits, r.calls + 1)
  }

  datatype Step<O> = Retry(waits: seq<Interest>) | Stop(outcome: O, waits: seq<Interest>)

  /** The run that starts with `step` and, on a retry, continues as `rest`. */
  function Then<O>(step: Step<O>, rest: Run<O>): Run<O>
  {
    match step
    case Stop(o, w) => Run(o, w, 1)
    case Retry(w) => Prepend(w, rest)
  }

  /** The run of a loop that has already made `calls` calls and waited `w`. */
  function Shift<O>(w: seq<Interest>, calls: nat, r: Run<O>): Run<O>
  {
    Run(r.outcome, w + r.waits, calls + r.calls)
  }

  // ---------------------------------------------------------------------------
  // `poll_ssh2_fn`: the async variant over `ssh2::Error`
  // ---------------------------------------------------------------------------

  type AsyncAttempt<R> = Attempt<R, Ssh2Error, Option<IoError>>

  /** The readiness futures awaited for a direction, in order. */
  function AsyncWaits(dir: BlockDirections): seq<Interest>
  {
    match dir
    case Inbound => [Readable]
    case Outbound => [Writable]
    case Both => [Readable, Writable]
    case NoDirection => []
  }

  /** The error the awaited readiness reports, read-readiness first. */
  function AsyncWaitError(dir: BlockDirections, rd: Option<IoError>, wr: Option<IoError>): Option<IoError>
  {
    match dir
    case Inbound => rd
    case Outbound => wr
    case Both => if rd.Some? then rd else wr
    case NoDirection => None
  }

  /** True when the adapter calls the operation again after this attempt. */
  predicate AsyncRetries<R>(a: AsyncAttempt<R>)
  {
    a.Errored? && IsWouldBlockSsh2(a.error) && a.blocked != NoDirection
    && AsyncWaitError(a.blocked, a.onReadable, a.onWritable).None?
  }

  /** What one attempt leads to: another call after the waits, or the end of the loop. */
  function AsyncStep<R>(a: AsyncAttempt<R>): Step<AsyncOutcome<R>>
  {
    match a
    case Returned(v) => Stop(Done(v), [])
    case Errored(e, dir, rd, wr) =>
      if !IsWouldBlockSsh2(e) then Stop(Failed(FromSsh2(e)), [])
      else if dir == NoDirection then Stop(Panicked, [])
      else
        var err := AsyncWaitError(dir, rd, wr);
        if err.Some? then Stop(Failed(FromIo(err.value)), AsyncWaits(dir))
        else Retry(AsyncWaits(dir))
  }

  /** Reference semantics of the retry loop, one attempt at a time. */
  function AsyncRun<R>(engine: seq<AsyncAttempt<R>>): Run<AsyncOutcome<R>>
  {
    if engine == [] then Run(Unfinished, [], 0) else Then(AsyncStep(engine[0]), AsyncRun(engine[1..]))
  }

  /** Awaits the readiness the engine is blocked on; with `Both`, the two futures are
    * joined and a read-readiness error is reported first. Also returns the waits, in order. */
  method AwaitBlockedDirection(dir: BlockDirections, rd: Option<IoError>, wr: Option<IoError>)
    returns (err: Option<IoError>, awaited: seq<Interest>)
    requires dir != NoDirection
    ensures err == AsyncWaitError(dir, rd, wr) && awaited == AsyncWaits(dir)
  {
    match dir {
      case Inbound =>
        err, awaited := rd, [Readable];
      case Outbound =>
        err, awaited := wr, [Writable];
      case Both =>
        awaited := [Readable, Writable];
        if rd.Some? {
          err := rd;
        } else {
          err := wr;
        }
    }
  }

  /** One more step of a loop that has made `calls` calls and waited `w`. */
  lemma ShiftThen<O>(w: seq<Interest>, calls: nat, step: Step<O>, rest: Run<O>)
    ensures Shift(w, calls, Then(step, rest))
      == if step.Stop? then Run(step.outcome, w + step.waits, calls + 1)
         else Shift(w + step.waits, calls + 1, rest)
  {
    assert (w + step.waits) + rest.waits == w + (step.waits + rest.waits);
  }

  method PollSsh2Fn<R>(engine: seq<AsyncAttempt<R>>) returns (outcome: AsyncOutcome<R>, waits: seq<Interest>, calls: nat)
    ensures Run(outcome, waits, calls) == AsyncRun(engine)
  {
    calls, waits := 0, [];
    while true
      invariant calls <= |engine|
      invariant AsyncRun(engine) == Shift(waits, calls, AsyncRun(engine[calls..]))
      decreases |engine| - calls
    {
      if calls == |engine| {
        outcome := Unfinished;
        return;
      }
      assert engine[calls..][1..] == engine[calls + 1..];
      ShiftThen(waits, calls, AsyncStep(engine[calls]), AsyncRun(engine[calls + 1..]));
      var attempt := engine[calls];
      calls := calls + 1;
      match attempt
      case Returned(v) =>
        outcome := Done(v);
        return;
      case Errored(e, dir, rd, wr) =>
        if !IsWouldBlockSsh2(e) {
          outcome := Failed(FromSsh2(e));
          return;
        }
        if dir == NoDirection {
          // libssh2 reports EAGAIN but is not blocked
          outcome := Panicked;
          return;
        }
        var err, awaited := AwaitBlockedDirection(dir, rd, wr);
        waits := waits + awaited;
        if err.Some? {
          outcome := Failed(FromIo(err.value));
          return;
        }
    }
  }

  /** Index of the first attempt after which the adapter does not retry, or `|engine|`. */
  function AsyncStop<R>(engine: seq<AsyncAttempt<R>>): (k: nat)
    ensures k <= |engine|
    ensures forall j :: 0 <= j < k ==> AsyncRetries(engine[j])
    ensures k < |engine| ==> !AsyncRetries(engine[k])
  {
    if engine == [] || !AsyncRetries(engine[0]) then 0 else 1 + AsyncStop(engine[1..])
  }

  /** The waits every consumed attempt asked for, concatenated in order. */
  function AsyncTrace<R>(attempts: seq<AsyncAttempt<R>>): seq<Interest>
  {
    if attempts == [] then []
    else
      var a := attempts[0];
      (if a.Errored? && IsWouldBlockSsh2(a.error) then AsyncWaits(a.blocked) else []) + AsyncTrace(attempts[1..])
  }

  /** The adapter calls the operation exactly up to and including the first attempt that
    * does not lead to a retry; it returns that attempt's value or converted error and
    * stops there. A would-block with no direction fails fast. */
  lemma {:induction false} AsyncStopsAtFirstNonRetry<R>(engine: seq<AsyncAttempt<R>>)
    ensures var k := AsyncStop(engine); var r := AsyncRun(engine);
      && r.calls == (if k < |engine| then k + 1 else k)
      && (k == |engine| ==> r.outcome == Unfinished)
      && (k < |engine| && engine[k].Returned? ==> r.outcome == Done(engine[k].value))
      && (k < |engine| && engine[k].Errored? && !IsWouldBlockSsh2(engine[k].error) ==>
            r.outcome == Failed(SSH2(engine[k].error)))
      && (k < |engine| && engine[k].Errored? && IsWouldBlockSsh2(engine[k].error) && engine[k].blocked == NoDirection ==>
            r.outcome == Panicked)
      && (k < |engine| && engine[k].Errored? && IsWouldBlockSsh2(engine[k].error) && engine[k].blocked != NoDirection ==>
            r.outcome == Failed(IO(AsyncWaitError(engine[k].blocked, engine[k].onReadable, engine[k].onWritable).value)))
  {
    if engine != [] && AsyncRetries(engine[0]) {
      AsyncStopsAtFirstNonRetry(engine[1..]);
    }
  }

  /** The waits performed are exactly the ones the engine's reported directions call for:
    * `Inbound` only read readiness, `Outbound` only write readiness, `Both` read then write. */
  lemma {:induction false} AsyncWaitsFollowDirections<R>(engine: seq<AsyncAttempt<R>>)
    ensures AsyncRun(engine).calls <= |engine|
    ensures AsyncRun(engine).waits == AsyncTrace(engine[..AsyncRun(engine).calls])
  {
    if engine != [] {
      var a := engine[0];
      var r := AsyncRun(engine);
      if AsyncRetries(a) {
        AsyncWaitsFollowDirections(engine[1..]);
        assert engine[..r.calls][1..] == engine[1..][..r.calls - 1];
      } else {
        assert engine[..r.calls] == [a];
        assert [a][1..] == [];
      }
    }
  }

  /** The adapter never busy-loops: every retry is preceded by at least one readiness wait. */
  lemma {:induction false} AsyncNoBusyLoop<R>(engine: seq<AsyncAttempt<R>>)
    ensures AsyncRun(engine).calls <= |AsyncRun(engine).waits| + 1
  {
    if engine != [] && AsyncRetries(engine[0]) {
      AsyncNoBusyLoop(engine[1..]);
    }
  }

  // ---------------------------------------------------------------------------
  // `poll_ssh2_io_fn`: the poll variant over `std::io::Error`
  // ---------------------------------------------------------------------------

  type PollAttempt<R> = Attempt<R, IoError, ReadyPoll>

  /** The readiness polled for a direction; with `Both`, write readiness is polled only
    * once read readiness is `Ready(Ok)`. */
  function PollWaits(dir: BlockDirections, rd: ReadyPoll): seq<Interest>
  {
    match dir
    case Inbound => [Readable]
    case Outbound => [Writable]
    case Both => if rd == Ready then [Readable, Writable] else [Readable]
    case NoDirection => []
  }

  /** The combined readiness poll for a direction. */
  function PollReadiness(dir: BlockDirections, rd: ReadyPoll, wr: ReadyPoll): ReadyPoll
  {
    match dir
    case Inbound => rd
    case Outbound => wr
    case Both => if rd == Ready then wr else rd
    case NoDirection => Pending
  }

  predicate PollRetries<R>(a: PollAttempt<R>)
  {
    a.Errored? && a.error.kind == WouldBlock && a.blocked != NoDirection
    && PollReadiness(a.blocked, a.onReadable, a.onWritable) == Ready
  }

  function PollStep<R>(a: PollAttempt<R>): Step<PollOutcome<R>>
  {
    match a
    case Returned(v) => Stop(ReadyOk(v), [])
    case Errored(e, dir, rd, wr) =>
      if e.kind != WouldBlock then Stop(ReadyFailed(e), [])
      else if dir == NoDirection then Stop(PollPanicked, [])
      else match PollReadiness(dir, rd, wr)
        case Pending => Stop(NotReady, PollWaits(dir, rd))
        case ReadyErr(x) => Stop(ReadyFailed(x), PollWaits(dir, rd))
        case Ready => Retry(PollWaits(dir, rd))
  }

  function PollRun<R>(engine: seq<PollAttempt<R>>): Run<PollOutcome<R>>
  {
    if engine == [] then Run(PollUnfinished, [], 0) else Then(PollStep(engine[0]), PollRun(engine[1..]))
  }

  /** Polls the readiness the engine is blocked on; with `Both`, write readiness only
    * after read readiness is `Ready(Ok)`. Also returns the polls made, in order. */
  method PollBlockedDirection(dir: BlockDirections, rd: ReadyPoll, wr: ReadyPoll) returns (poll: ReadyPoll, polled: seq<Interest>)
    requires dir != NoDirection
    ensures poll == PollReadiness(dir, rd, wr) && polled == PollWaits(dir, rd)
  {
    match dir {
      case Inbound =>
        poll, polled := rd, [Readable];
      case Outbound =>
        poll, polled := wr, [Writable];
      case Both =>
        match rd {
          case Pending => poll, polled := Pending, [Readable];
          case ReadyErr(x) => poll, polled := ReadyErr(x), [Readable];
          case Ready => poll, polled := wr, [Readable, Writable];
        }
    }
  }

  method PollSsh2IoFn<R>(engine: seq<PollAttempt<R>>) returns (outcome: PollOutcome<R>, waits: seq<Interest>, calls: nat)
    ensures Run(outcome, waits, calls) == PollRun(engine)
  {
    calls, waits := 0, [];
    while true
      invariant calls <= |engine|
      invariant PollRun(engine) == Shift(waits, calls, PollRun(engine[calls..]))
      decreases |engine| - calls
    {
      if calls == |engine| {
        outcome := PollUnfinished;
        return;
      }
      assert engine[calls..][1..] == engine[calls + 1..];
      ShiftThen(waits, calls, PollStep(engine[calls]), PollRun(engine[calls + 1..]));
      var attempt := engine[calls];
      calls := calls + 1;
      match attempt
      case Returned(v) =>
        outcome := ReadyOk(v);
        return;
      case Errored(e, dir, rd, wr) =>
        if e.kind != WouldBlock {
          outcome := ReadyFailed(e);
          return;
        }
        if dir == NoDirection {
          // libssh2 reports EAGAIN but is not blocked
          outcome := PollPanicked;
          return;
        }
        var poll, polled := PollBlockedDirection(dir, rd, wr);
        waits := waits + polled;
        match poll {
          case Pending =>
            outcome := NotReady;
            return;
          case ReadyErr(x) =>
            outcome := ReadyFailed(x);
            return;
          case Ready =>
            // the direction is ready: call the operation again
        }
    }
  }

  function PollStop<R>(engine: seq<PollAttempt<R>>): (k: nat)
    ensures k <= |engine|
    ensures forall j :: 0 <= j < k ==> PollRetries(engine[j])
    ensures k < |engine| ==> !PollRetries(engine[k])
  {
    if engine == [] || !PollRetries(engine[0]) then 0 else 1 + PollStop(engine[1..])
  }

  /** The operation is retried only after the readiness poll returned `Ready(Ok)`;
    * `Pending` and readiness errors go back to the caller at once. */
  lemma {:induction false} PollRetriesOnlyWhenReady<R>(engine: seq<PollAttempt<R>>)
    ensures var k := PollStop(engine); var r := PollRun(engine);
      && r.calls == (if k < |engine| then k + 1 else k)
      && (k == |engine| ==> r.outcome == PollUnfinished)
      && (k < |engine| && engine[k].Returned? ==> r.outcome == ReadyOk(engine[k].value))
      && (k < |engine| && engine[k].Errored? && engine[k].error.kind != WouldBlock ==>
            r.outcome == ReadyFailed(engine[k].error))
      && (k < |engine| && engine[k].Errored? && engine[k].error.kind == WouldBlock && engine[k].blocked == NoDirection ==>
            r.outcome == PollPanicked)
      && (k < |engine| && engine[k].Errored? && engine[k].error.kind == WouldBlock && engine[k].blocked != NoDirection ==>
            var poll := PollReadiness(engine[k].blocked, engine[k].onReadable, engine[k].onWritable);
            poll != Ready && r.outcome == (if poll == Pending then NotReady else ReadyFailed(poll.e)))
  {
    if engine != [] && PollRetries(engine[0]) {
      PollRetriesOnlyWhenReady(engine[1..]);
    }
  }

  function PollTrace<R>(attempts: seq<PollAttempt<R>>): seq<Interest>
  {
    if attempts == [] then []
    else
      var a := attempts[0];
      (if a.Errored? && a.error.kind == WouldBlock then PollWaits(a.blocked, a.onReadable) else []) + PollTrace(attempts[1..])
  }

  /** The readiness polled is exactly the one the reported directions call for. */
  lemma {:induction false} PollWaitsFollowDirections<R>(engine: seq<PollAttempt<R>>)
    ensures PollRun(engine).calls <= |engine|
    ensures PollRun(engine).waits == PollTrace(engine[..PollRun(engine).calls])
  {
    if engine != [] {
      var a := engine[0];
      var r := PollRun(engine);
      if PollRetries(a) {
        PollWaitsFollowDirections(engine[1..]);
        assert engine[..r.calls][1..] == engine[1..][..r.calls - 1];
      } else {
        assert engine[..r.calls] == [a];
        assert [a][1..] == [];
      }
    }
  }

  /** With `Both`, a read-readiness poll that is not `Ready(Ok)` is returned without
    * write readiness ever being polled. */
  lemma BothChecksReadFirst<R>(engine: seq<PollAttempt<R>>)
    requires engine != [] && engine[0].Errored? && engine[0].error.kind == WouldBlock
    requires engine[0].blocked == Both && engine[0].onReadable != Ready
    ensures PollRun(engine).waits == [Readable]
    ensures PollRun(engine).outcome == (if engine[0].onReadable == Pending then NotReady else ReadyFailed(engine[0].onReadable.e))
  {
  }

  /** The poll variant never busy-loops either. */
  lemma {:induction false} PollNoBusyLoop<R>(engine: seq<PollAttempt<R>>)
    ensures PollRun(engine).calls <= |PollRun(engine).waits| + 1
  {
    if engine != [] && PollRetries(engine[0]) {
      PollNoBusyLoop(engine[1..]);
    }
  }

  /** A mock engine that would block on inbound readiness once and then succeeds:
    * the adapter suspends exactly once, on read readiness, and returns the result. */
  lemma InboundOnceThenSuccess<R>(v: R, e: Ssh2Error)
    requires e.code == LIBSSH2_ERROR_EAGAIN
    ensures AsyncRun([Errored(e, Inbound, None, None), Returned(v)]) == Run(Done(v), [Readable], 2)
  {
    var engine: seq<AsyncAttempt<R>> := [Errored(e, Inbound, None, None), Returned(v)];
    assert engine[1..] == [Returned(v)];
  }
}
