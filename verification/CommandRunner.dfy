/** Running a command: the capture loop on its mutable variables, and the result drawn from it. */
module CommandRunner {
  import opened CaptureLoop
  import opened CaptureScript
  import opened Options

  /** The variables of the capture loop. */
  class Capture {
    const limits: Limits
    const script: nat -> Turn
    const deadline: int
    var clock: int
    var open: set<Stream>
    var out: seq<Byte>
    var err: seq<Byte>
    var drain: Option<int>
    var forced: bool
    var timedOut: bool
    var overBudget: bool
    var emitted: nat
    var code: Option<int>
    var status: Status
    ghost var readOut: seq<Byte>
    ghost var readErr: seq<Byte>
    ghost var windows: nat

    constructor (now: int, limits: Limits, script: nat -> Turn)
      ensures this.limits == limits && this.script == script && Now() == Start(now, limits)
    {
      this.limits, this.script, deadline := limits, script, now + limits.timeout;
      clock, open, out, err, drain := now, {Out, Err}, [], [], None;
      forced, timedOut, overBudget, emitted, code, status := false, false, false, 0, None, Running;
      readOut, readErr, windows := [], [], 0;
    }

    ghost function Now(): State
      reads this
    {
      var pipes := Pipes(open, out, err, emitted, readOut, readErr);
      State(clock, pipes, deadline, drain, forced, timedOut, overBudget, code, status, windows)
    }

    method StartWindow(from: int)
      modifies this`drain, this`windows
      ensures Now() == OpenWindow(old(Now()), from, limits)
    {
      drain := Some(from + limits.grace);
      windows := windows + 1;
    }

    /** The part of a round before anything is read. */
    method PollProcess(t: Turn)
      modifies this
      ensures Now() == Top(old(Now()), t, limits)
    {
      var now := clock + 1 + t.topDelay;
      clock := now;
      if code.None? {
        code := t.polled;
      }
      if code.None? && !overBudget && !timedOut && now >= deadline {
        timedOut := true;
        clock := clock + t.killDelay;
        code := t.afterTimeout;
        if code.None? {
          status := NotTerminated;
          return;
        }
        StartWindow(clock);
      }
      if code.Some? && open != {} && drain.None? {
        StartWindow(now);
      }
    }

    /** One ready descriptor. */
    method ReadReady(r: Ready, t: Turn)
      modifies this
      ensures Now() == ReadOne(old(Now()), r, t, limits)
    {
      clock := clock + r.delay;
      if r.stream !in open || r.arrival.Blocked? {
        return;
      }
      var chunk := r.arrival.chunk;
      if chunk == [] {
        open := open - {r.stream};
        return;
      }
      StoreChunk(r.stream, chunk);
      if emitted > limits.budget && !overBudget {
        BreachBudget(t);
      }
    }

    method StoreChunk(stream: Stream, chunk: seq<Byte>)
      modifies this`emitted, this`out, this`err, this`readOut, this`readErr
      ensures Now() == old(Now()).(pipes := Take(old(Now()).pipes, stream, chunk, limits.capture))
    {
      emitted := emitted + |chunk|;
      if stream == Out {
        out := Kept(out, chunk, limits.capture);
        readOut := readOut + chunk;
      } else {
        err := Kept(err, chunk, limits.capture);
        readErr := readErr + chunk;
      }
    }

    method BreachBudget(t: Turn)
      modifies this
      ensures Now() == Breach(old(Now()), t, limits)
    {
      overBudget := true;
      code := t.afterBreach;
      if code.None? {
        status := NotTerminated;
        return;
      }
      StartWindow(clock);
    }

    /** The part of a round after the reads. */
    method CheckWindow(t: Turn)
      modifies this
      ensures Now() == Check(old(Now()), t, limits)
    {
      clock := clock + t.checkDelay;
      if open != {} && drain.Some? && clock >= drain.value {
        if overBudget || timedOut || forced {
          open := {};
          status := Finished;
        } else {
          forced := true;
          clock := clock + t.cleanupDelay;
          StartWindow(clock);
        }
      }
    }

    method ReadAllReady(t: Turn)
      requires status == Running
      modifies this
      ensures Now() == ReadAll(old(Now()), |t.ready|, t, limits)
    {
      for i := 0 to |t.ready|
        invariant Now() == ReadAll(old(Now()), i, t, limits)
        invariant status == Running
      {
        ReadReady(t.ready[i], t);
        if status != Running {
          StoppedReading(old(Now()), i + 1, |t.ready|, t, limits);
          return;
        }
      }
    }

    /** The loop. It ends within the rounds there can be, and leaves the variables in the state that
        the rounds lead to. */
    method Loop() returns (ghost rounds: nat)
      requires status == Running && Inv(Now(), limits)
      modifies this
      ensures status != Running
      ensures rounds <= RoundsLeft(old(Now()), limits) && Now() == Rounds(old(Now()), script, rounds, limits)
      ensures rounds > 0 && Rounds(old(Now()), script, rounds - 1, limits).status == Running
    {
      hide Round, Inv, WindowsLeft, TicksLeft;
      ghost var start := Now();
      var n: nat := 0;
      while status == Running
        invariant Now() == Rounds(start, script, n, limits) && Inv(Now(), limits)
        invariant n + RoundsLeft(Now(), limits) <= RoundsLeft(start, limits)
        invariant status != Running ==> n > 0 && Rounds(start, script, n - 1, limits).status == Running
        decreases RoundsLeft(Now(), limits)
      {
        ghost var before := Now();
        RoundKeeps(before, script(n), limits);
        OneRound(script(n));
        n := n + 1;
        assert Now() == Rounds(start, script, n, limits);
        if status == Running {
          FewerRoundsLeft(before, script(n - 1), limits);
        }
      }
      rounds := n;
    }

    method OneRound(t: Turn)
      requires status == Running
      modifies this
      ensures Now() == Round(old(Now()), t, limits)
    {
      if open == {} && code.Some? {
        status := Finished;
        return;
      }
      PollProcess(t);
      if status != Running {
        return;
      }
      if open == {} {
        if code.Some? {
          status := Finished;
        } else {
          clock := clock + limits.poll;
        }
        return;
      }
      ReadAllReady(t);
      if status == Running {
        CheckWindow(t);
      }
    }
  }

  lemma {:induction false} StoppedReading(s: State, i: nat, n: nat, t: Turn, limits: Limits)
    requires i <= n <= |t.ready| && ReadAll(s, i, t, limits).status != Running
    ensures ReadAll(s, n, t, limits) == ReadAll(s, i, t, limits)
  {
    if i < n {
      StoppedReading(s, i, n - 1, t, limits);
    }
  }

  // ---------------------------------------------------------------- the result

  /** The captured text and whether the marker about truncation follows it. */
  datatype Text = Text(shown: string, truncated: bool)

  /** `_decode_capture`; `decode` stands for the lenient UTF-8 decoding. */
  function DecodeCapture(data: seq<Byte>, limit: nat, decode: seq<Byte> -> string): Text {
    Text(decode(data[..Min(|data|, limit)]), |data| > limit)
  }

  /** A text is marked as truncated exactly when more than the limit was read, and shows the first
      bytes that were read, up to the limit. */
  lemma TruncationIsExact(capture: seq<Byte>, read: seq<Byte>, limit: nat, decode: seq<Byte> -> string)
    requires IsPrefixUpTo(capture, read, limit)
    ensures DecodeCapture(capture, limit, decode).truncated <==> |read| > limit
    ensures DecodeCapture(capture, limit, decode).shown == decode(read[..Min(|read|, limit)])
  {
    assert capture[..Min(|capture|, limit)] == read[..Min(|read|, limit)];
  }

  datatype Result =
    | Completed(code: int, out: Text, err: Text)
    | OutputBudgetExceeded
    | CommandTimedOut
    | CommandFailed(code: int)
    | DidNotTerminate
    | BadArguments

  /** Whether the process was killed because its time was over before an exit was seen. */
  ghost predicate KilledByDeadline(now: int, limits: Limits, script: nat -> Turn, n: nat) {
    exists j :: 0 <= j < n && Overdue(now, limits, script, j)
  }

  /** How many bytes the script delivered on both streams in `n` rounds. */
  function Volume(script: nat -> Turn, n: nat): nat {
    |Delivered(script, n, Out).bytes| + |Delivered(script, n, Err).bytes|
  }

  /** `_run`: the positivity checks, the loop, and the order in which its failures are reported. After
      the loop has ended by itself, the result is told by the script: what it delivered on the two
      streams, whether the deadline came before an exit was seen, and the first exit seen. A command
      that completes shows the beginning of what it wrote, marked when it wrote more. */
  method Run(now: int, limits: Limits, script: nat -> Turn, check: bool, decode: seq<Byte> -> string)
    returns (result: Result, ghost end: State, ghost rounds: nat)
    ensures result == BadArguments <==> limits.timeout == 0 || limits.capture == 0 || limits.budget == 0
    ensures result != BadArguments ==>
              && end == Rounds(Start(now, limits), script, rounds, limits)
              && end.status != Running && RanFor(now, limits, script, rounds)
    ensures result == DidNotTerminate <==> result != BadArguments && end.status == NotTerminated
    ensures result == OutputBudgetExceeded <==>
              && result != BadArguments && end.status == Finished && Volume(script, rounds) > limits.budget
    ensures result == CommandTimedOut <==>
              && result != BadArguments && end.status == Finished && Volume(script, rounds) <= limits.budget
              && KilledByDeadline(now, limits, script, rounds)
    ensures forall c :: result == CommandFailed(c) <==>
              && result != BadArguments && end.status == Finished && Volume(script, rounds) <= limits.budget
              && !KilledByDeadline(now, limits, script, rounds)
              && check && c != 0 && FirstExit(script, rounds) == Some(c)
    ensures result.Completed? <==>
              && result != BadArguments && end.status == Finished && Volume(script, rounds) <= limits.budget
              && !KilledByDeadline(now, limits, script, rounds)
              && (check ==> FirstExit(script, rounds) == Some(0))
    ensures result.Completed? ==>
              && FirstExit(script, rounds) == Some(result.code)
              && Shows(result.out, Delivered(script, rounds, Out).bytes, limits.capture, decode)
              && Shows(result.err, Delivered(script, rounds, Err).bytes, limits.capture, decode)
  {
    end, rounds := Start(now, limits), 0;
    if limits.timeout == 0 || limits.capture == 0 || limits.budget == 0 {
      return BadArguments, end, rounds;
    }
    var c := new Capture(now, limits, script);
    rounds := c.Loop();
    end := c.Now();
    if c.status == NotTerminated {
      return DidNotTerminate, end, rounds;
    }
    FinishedTold(now, limits, script, rounds, end);
    if c.overBudget {
      return OutputBudgetExceeded, end, rounds;
    }
    if c.timedOut {
      return CommandTimedOut, end, rounds;
    }
    if check && c.code.value != 0 {
      return CommandFailed(c.code.value), end, rounds;
    }
    TruncationIsExact(c.out, c.readOut, limits.capture, decode);
    TruncationIsExact(c.err, c.readErr, limits.capture, decode);
    var out := DecodeCapture(c.out, limits.capture, decode);
    var err := DecodeCapture(c.err, limits.capture, decode);
    return Completed(c.code.value, out, err), end, rounds;
  }

  /** What the script says of the end of a loop that ended by itself. */
  lemma FinishedTold(now: int, limits: Limits, script: nat -> Turn, n: nat, s: State)
    requires s == Rounds(Start(now, limits), script, n, limits) && s.status == Finished
    requires RanFor(now, limits, script, n)
    ensures s.code.Some?
    ensures IsPrefixUpTo(s.pipes.out, s.pipes.readOut, limits.capture)
    ensures IsPrefixUpTo(s.pipes.err, s.pipes.readErr, limits.capture)
    ensures s.pipes.readOut == Delivered(script, n, Out).bytes && s.pipes.readErr == Delivered(script, n, Err).bytes
    ensures s.overBudget <==> Volume(script, n) > limits.budget
    ensures s.timedOut <==> KilledByDeadline(now, limits, script, n)
    ensures !s.timedOut && !s.overBudget ==> s.code == FirstExit(script, n)
  {
    FinishedRun(now, limits, script, s);
    ExitCodeTold(now, limits, script, n);
    StreamTold(now, limits, script, n, Out);
    StreamTold(now, limits, script, n, Err);
    hide Rounds, Delivered, FirstExit, Overdue, RanFor, IsPrefixUpTo;
  }

  ghost predicate Shows(text: Text, read: seq<Byte>, limit: nat, decode: seq<Byte> -> string) {
    text.shown == decode(read[..Min(|read|, limit)]) && (text.truncated <==> |read| > limit)
  }
}
