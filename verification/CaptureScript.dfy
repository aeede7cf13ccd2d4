/** What a run of the capture loop ends with, told by the script alone: the exit code is that of the
    process, and what was read of each stream is what the script delivered on it. */
module CaptureScript {
  import opened CaptureLoop
  import opened Options

  // ---------------------------------------------------------------- the exit code

  /** What the first poll that saw an exit said, among the first `n` rounds. */
  function FirstExit(script: nat -> Turn, n: nat): Option<int> {
    if n == 0 then None
    else if FirstExit(script, n - 1).Some? then FirstExit(script, n - 1)
    else script(n - 1).polled
  }

  /** In round `j` the time of the run is over, and no exit was seen up to then. */
  ghost predicate Overdue(now: int, limits: Limits, script: nat -> Turn, j: nat) {
    var s := Rounds(Start(now, limits), script, j, limits);
    && s.status == Running && !Drained(s) && !s.overBudget && !s.timedOut
    && FirstExit(script, j + 1).None? && s.clock + 1 + script(j).topDelay >= now + limits.timeout
  }

  /** In round `j` the bytes read come to exceed the budget. */
  ghost predicate BreachedIn(now: int, limits: Limits, script: nat -> Turn, j: nat) {
    && BytesRead(Rounds(Start(now, limits), script, j, limits)) <= limits.budget
    && BytesRead(Rounds(Start(now, limits), script, j + 1, limits)) > limits.budget
  }

  /** The exit code of the state after `n` rounds, in the words of the script. */
  ghost predicate CodeTold(now: int, limits: Limits, script: nat -> Turn, n: nat) {
    var s := Rounds(Start(now, limits), script, n, limits);
    && (!s.timedOut && !s.overBudget ==> s.code == FirstExit(script, n))
    && (s.overBudget ==>
          exists j :: 0 <= j < n && BreachedIn(now, limits, script, j) && s.code == script(j).afterBreach)
    && (s.timedOut && !s.overBudget ==>
          exists j :: 0 <= j < n && Overdue(now, limits, script, j) && s.code == script(j).afterTimeout)
    && (s.timedOut <==> exists j :: 0 <= j < n && Overdue(now, limits, script, j))
    && (s.status == NotTerminated <==> (s.timedOut || s.overBudget) && s.code.None?)
  }

  /** What one round does to the exit code and the two flags. */
  ghost predicate CodeMoves(s: State, t: Turn, r: State) {
    && (s.overBudget ==> r.overBudget)
    && (r.timedOut <==> s.timedOut || DeadlineKills(s, t))
    && (r.overBudget && !s.overBudget ==> s.status == Running && r.code == t.afterBreach)
    && (r.overBudget == s.overBudget ==>
          r.code == if s.status != Running || s.code.Some? then s.code
                    else if DeadlineKills(s, t) then t.afterTimeout else t.polled)
    && (r.status == NotTerminated <==>
          s.status == NotTerminated || (r.code.None? && (DeadlineKills(s, t) || r.overBudget != s.overBudget)))
    && r.deadline == s.deadline
  }

  /** What the reads of a round do to the exit code and the flags: nothing, but for a breach. */
  ghost predicate ReadsKeepCode(s: State, t: Turn, r: State) {
    && r.timedOut == s.timedOut && r.deadline == s.deadline && (s.overBudget ==> r.overBudget)
    && r.code == (if r.overBudget == s.overBudget then s.code else t.afterBreach)
    && (r.status == NotTerminated <==> r.overBudget != s.overBudget && r.code.None?)
    && r.status != Finished
  }

  lemma ReadOneCode(s: State, r: Ready, t: Turn, limits: Limits)
    requires s.status == Running
    ensures ReadsKeepCode(s, t, ReadOne(s, r, t, limits))
  {
    hide Take;
  }

  lemma ReadsThenOne(s: State, mid: State, t: Turn, r: State)
    requires s.status == Running && mid.status == Running
    requires ReadsKeepCode(s, t, mid) && ReadsKeepCode(mid, t, r)
    ensures ReadsKeepCode(s, t, r)
  {
  }

  lemma {:induction false} ReadAllCode(s: State, n: nat, t: Turn, limits: Limits)
    requires s.status == Running && n <= |t.ready|
    ensures ReadsKeepCode(s, t, ReadAll(s, n, t, limits))
  {
    if n > 0 {
      ReadAllCode(s, n - 1, t, limits);
      ReadAllStep(s, n, t, limits);
      hide ReadAll, ReadOne, ReadsKeepCode;
      var before := ReadAll(s, n - 1, t, limits);
      if before.status == Running {
        ReadOneCode(before, t.ready[n - 1], t, limits);
        ReadsThenOne(s, before, t, ReadOne(before, t.ready[n - 1], t, limits));
      }
    }
  }

  lemma ReadAllStep(s: State, n: nat, t: Turn, limits: Limits)
    requires 0 < n <= |t.ready|
    ensures ReadAll(s, n, t, limits) ==
            var before := ReadAll(s, n - 1, t, limits);
            if before.status == Running then ReadOne(before, t.ready[n - 1], t, limits) else before
  {
  }

  lemma RoundCode(s: State, t: Turn, limits: Limits)
    requires Inv(s, limits)
    ensures CodeMoves(s, t, Round(s, t, limits))
  {
    if s.status == Running && !Drained(s) {
      var top := Top(s, t, limits);
      if top.status == Running {
        ReadAllCode(top, |t.ready|, t, limits);
      }
      hide ReadAll, PipesInv;
    }
  }

  lemma DeadlineStays(now: int, limits: Limits, script: nat -> Turn, n: nat)
    ensures Rounds(Start(now, limits), script, n, limits).deadline == now + limits.timeout
    ensures Inv(Rounds(Start(now, limits), script, n, limits), limits)
  {
    RoundsKeep(Start(now, limits), script, n, limits);
    if n > 0 {
      DeadlineStays(now, limits, script, n - 1);
      hide Round, Inv;
      RoundCode(Rounds(Start(now, limits), script, n - 1, limits), script(n - 1), limits);
    }
  }

  lemma OverdueIsKill(now: int, limits: Limits, script: nat -> Turn, n: nat)
    requires CodeTold(now, limits, script, n)
    requires Rounds(Start(now, limits), script, n, limits).deadline == now + limits.timeout
    ensures Overdue(now, limits, script, n) <==>
              DeadlineKills(Rounds(Start(now, limits), script, n, limits), script(n))
  {
    hide Rounds, BreachedIn;
  }

  lemma CodeStep(now: int, limits: Limits, script: nat -> Turn, n: nat, s: State, r: State)
    requires CodeTold(now, limits, script, n) && s == Rounds(Start(now, limits), script, n, limits)
    requires r == Rounds(Start(now, limits), script, n + 1, limits)
    requires Overdue(now, limits, script, n) <==> DeadlineKills(s, script(n))
    requires !s.overBudget && r.overBudget ==> BreachedIn(now, limits, script, n)
    requires s.status == Finished ==> s.code.Some?
    requires CodeMoves(s, script(n), r)
    ensures CodeTold(now, limits, script, n + 1)
  {
    hide Rounds, Overdue, BreachedIn, DeadlineKills, Round;
    if Overdue(now, limits, script, n) {
      assert KillImplies(s, script(n)) by { KillMeans(s, script(n)); }
    }
  }

  predicate KillImplies(s: State, t: Turn) {
    s.status == Running && s.code.None? && t.polled.None? && !s.overBudget && !s.timedOut
  }

  lemma KillMeans(s: State, t: Turn)
    requires DeadlineKills(s, t)
    ensures KillImplies(s, t)
  {
  }

  lemma CodeStart(now: int, limits: Limits, script: nat -> Turn)
    ensures CodeTold(now, limits, script, 0)
  {
  }

  lemma BreachNow(now: int, limits: Limits, script: nat -> Turn, n: nat, s: State, r: State)
    requires Inv(s, limits) && s == Rounds(Start(now, limits), script, n, limits)
    requires Inv(r, limits) && r == Rounds(Start(now, limits), script, n + 1, limits)
    ensures !s.overBudget && r.overBudget ==> BreachedIn(now, limits, script, n)
    ensures s.status == Finished ==> s.code.Some?
  {
    hide IsPrefixUpTo, WindowInv, Rounds;
  }

  lemma NextCodeTold(now: int, limits: Limits, script: nat -> Turn, n: nat)
    requires CodeTold(now, limits, script, n)
    ensures CodeTold(now, limits, script, n + 1)
  {
    var s := Rounds(Start(now, limits), script, n, limits);
    var r := Rounds(Start(now, limits), script, n + 1, limits);
    assert r == Round(s, script(n), limits);
    hide *;
    DeadlineStays(now, limits, script, n);
    DeadlineStays(now, limits, script, n + 1);
    RoundCode(s, script(n), limits);
    OverdueIsKill(now, limits, script, n);
    BreachNow(now, limits, script, n, s, r);
    CodeStep(now, limits, script, n, s, r);
  }

  /** The exit code of a run is the process's: what the first poll that saw an exit said, unless the
      deadline or the budget had the process killed; then it is what the poll after that said. */
  lemma {:induction false} ExitCodeTold(now: int, limits: Limits, script: nat -> Turn, n: nat)
    ensures CodeTold(now, limits, script, n)
  {
    hide CodeTold;
    if n == 0 {
      CodeStart(now, limits, script);
    } else {
      ExitCodeTold(now, limits, script, n - 1);
      NextCodeTold(now, limits, script, n - 1);
    }
  }

  // ---------------------------------------------------------------- the streams

  /** What came on a stream, and whether its end was reached. */
  datatype Flow = Flow(bytes: seq<Byte>, ended: bool)

  /** A flow after the first `n` ready descriptors of a round. */
  function Fed(f: Flow, ready: seq<Ready>, n: nat, stream: Stream): Flow
    requires n <= |ready|
  {
    if n == 0 then f
    else
      var g, r := Fed(f, ready, n - 1, stream), ready[n - 1];
      if g.ended || r.stream != stream || r.arrival.Blocked? then g
      else if r.arrival.chunk == [] then g.(ended := true)
      else g.(bytes := g.bytes + r.arrival.chunk)
  }

  /** What the script delivers on a stream in the first `n` rounds: its chunks, up to the end of the stream. */
  function Delivered(script: nat -> Turn, n: nat, stream: Stream): Flow {
    if n == 0 then Flow([], false)
    else Fed(Delivered(script, n - 1, stream), script(n - 1).ready, |script(n - 1).ready|, stream)
  }

  function BytesOf(p: Pipes, stream: Stream): seq<Byte> { if stream == Out then p.readOut else p.readErr }

  /** The pipe of a running loop has read the flow, and is open until its end. */
  predicate Follows(p: Pipes, stream: Stream, f: Flow) {
    BytesOf(p, stream) == f.bytes && (stream in p.open <==> !f.ended)
  }

  lemma {:induction false} FedEnded(f: Flow, ready: seq<Ready>, n: nat, stream: Stream)
    requires n <= |ready| && f.ended
    ensures Fed(f, ready, n, stream) == f
  {
    if n > 0 {
      FedEnded(f, ready, n - 1, stream);
    }
  }

  lemma ReadOneFollows(s: State, t: Turn, n: nat, limits: Limits, stream: Stream, f: Flow)
    requires n < |t.ready| && Follows(s.pipes, stream, Fed(f, t.ready, n, stream))
    ensures Follows(ReadOne(s, t.ready[n], t, limits).pipes, stream, Fed(f, t.ready, n + 1, stream))
  {
    hide Kept, Fed;
    FedStep(f, t.ready, n, stream);
  }

  lemma FedStep(f: Flow, ready: seq<Ready>, n: nat, stream: Stream)
    requires n < |ready|
    ensures Fed(f, ready, n + 1, stream) ==
            var g, r := Fed(f, ready, n, stream), ready[n];
            if g.ended || r.stream != stream || r.arrival.Blocked? then g
            else if r.arrival.chunk == [] then g.(ended := true)
            else g.(bytes := g.bytes + r.arrival.chunk)
  {
  }

  lemma {:induction false} ReadAllFollows(s: State, t: Turn, n: nat, limits: Limits, stream: Stream, f: Flow)
    requires n <= |t.ready| && Follows(s.pipes, stream, f) && ReadAll(s, n, t, limits).status == Running
    ensures Follows(ReadAll(s, n, t, limits).pipes, stream, Fed(f, t.ready, n, stream))
  {
    if n > 0 {
      var before := ReadAll(s, n - 1, t, limits);
      hide ReadOne, Follows;
      ReadAllFollows(s, t, n - 1, limits, stream, f);
      ReadOneFollows(before, t, n - 1, limits, stream, f);
    }
  }

  /** One round reads what is ready; and after the end of both streams there is nothing to read. */
  lemma RoundFollows(s: State, t: Turn, limits: Limits, stream: Stream, f: Flow)
    requires s.status == Running && Follows(s.pipes, stream, f)
    ensures var r, g := Round(s, t, limits), Fed(f, t.ready, |t.ready|, stream);
            && (r.status == Running ==> Follows(r.pipes, stream, g))
            && (r.status == Finished ==> BytesOf(r.pipes, stream) == g.bytes)
  {
    if f.ended {
      FedEnded(f, t.ready, |t.ready|, stream);
    }
    var top := Top(s, t, limits);
    assert top.pipes == s.pipes;
    if !Drained(s) && top.status == Running && top.pipes.open != {} {
      if ReadAll(top, |t.ready|, t, limits).status == Running {
        ReadAllFollows(top, t, |t.ready|, limits, stream, f);
      }
      ReadAllCode(top, |t.ready|, t, limits);
      hide Top, ReadAll, Fed;
    } else {
      assert s.pipes.open == {} || top.status == NotTerminated;
      hide Fed;
    }
  }

  /** The rounds of a loop that was still running before its last one. */
  ghost predicate RanFor(now: int, limits: Limits, script: nat -> Turn, n: nat) {
    n == 0 || Rounds(Start(now, limits), script, n - 1, limits).status == Running
  }

  lemma {:induction false} RunningBefore(now: int, limits: Limits, script: nat -> Turn, n: nat)
    requires Rounds(Start(now, limits), script, n, limits).status == Running
    ensures RanFor(now, limits, script, n)
  {
    hide Top, ReadAll, Check, Drained;
  }

  /** What a run has read of a stream is what the script delivered on it, chunk by chunk, up to the end
      of the stream or of the run. */
  lemma {:induction false} StreamTold(now: int, limits: Limits, script: nat -> Turn, n: nat, stream: Stream)
    requires RanFor(now, limits, script, n)
    ensures var s, f := Rounds(Start(now, limits), script, n, limits), Delivered(script, n, stream);
            && (s.status == Running ==> Follows(s.pipes, stream, f))
            && (s.status == Finished ==> BytesOf(s.pipes, stream) == f.bytes)
  {
    if n > 0 {
      var before := Rounds(Start(now, limits), script, n - 1, limits);
      RunningBefore(now, limits, script, n - 1);
      StreamTold(now, limits, script, n - 1, stream);
      hide Round, Fed, Follows, BytesOf;
      RoundFollows(before, script(n - 1), limits, stream, Delivered(script, n - 1, stream));
    }
  }
}
