/** The loop that reads the two pipes of a command under a deadline and an output budget. */
module CaptureLoop {
  import opened Options

  type Byte = bv8

  datatype Stream = Out | Err

  /** The limits of a run. The run timeout, the poll interval and the drain grace are in ticks; a tick
      is any time that no round of the loop falls short of, such as the resolution of the clock. */
  datatype Limits = Limits(timeout: nat, capture: nat, budget: nat, poll: nat, grace: nat)

  /** A ready descriptor: the read would block, or it yields bytes (none at the end of the stream). */
  datatype Arrival = Blocked | Got(chunk: seq<Byte>)

  datatype Ready = Ready(stream: Stream, arrival: Arrival, delay: nat)

  /** What one round of the loop meets: how long each part takes, what `poll` says at the top and
      after each kind of termination, and what is ready to read. */
  datatype Turn = Turn(
    topDelay: nat, polled: Option<int>, killDelay: nat, afterTimeout: Option<int>,
    ready: seq<Ready>, afterBreach: Option<int>, checkDelay: nat, cleanupDelay: nat)

  datatype Status = Running | Finished | NotTerminated

  /** The pipes still open, what is kept of each and how many bytes came in all; and, for the
      record, all the bytes read from each. */
  datatype Pipes = Pipes(
    open: set<Stream>, out: seq<Byte>, err: seq<Byte>, emitted: nat, readOut: seq<Byte>, readErr: seq<Byte>)

  /** The other variables of the loop; `windows` counts the drain windows opened. */
  datatype State = State(
    clock: int, pipes: Pipes, deadline: int, drain: Option<int>, forced: bool, timedOut: bool,
    overBudget: bool, code: Option<int>, status: Status, windows: nat)

  function Start(now: int, limits: Limits): State {
    State(now, Pipes({Out, Err}, [], [], 0, [], []), now + limits.timeout, None, false, false, false, None, Running, 0)
  }

  /** Opens a drain window that ends the grace after `from`. */
  function OpenWindow(s: State, from: int, limits: Limits): State {
    s.(drain := Some(from + limits.grace), windows := s.windows + 1)
  }

  function Kept(capture: seq<Byte>, chunk: seq<Byte>, limit: nat): seq<Byte> {
    if limit + 1 - |capture| > 0 then capture + chunk[..Min(|chunk|, limit + 1 - |capture|)] else capture
  }

  function Min(a: int, b: int): int { if a <= b then a else b }

  // ---------------------------------------------------------------- one round

  /** Polling, the run deadline, and the window after an exit that was noticed. */
  function Top(s: State, t: Turn, limits: Limits): State {
    var now := s.clock + 1 + t.topDelay;
    var seen := s.(clock := now, code := if s.code.None? then t.polled else s.code);
    if seen.code.None? && !s.overBudget && !s.timedOut && now >= s.deadline then
      var killed := seen.(timedOut := true, clock := now + t.killDelay, code := t.afterTimeout);
      if t.afterTimeout.None? then killed.(status := NotTerminated) else OpenWindow(killed, now + t.killDelay, limits)
    else if seen.code.Some? && s.pipes.open != {} && s.drain.None? then OpenWindow(seen, now, limits)
    else seen
  }

  function Take(p: Pipes, stream: Stream, chunk: seq<Byte>, limit: nat): Pipes {
    if stream == Out then
      p.(out := Kept(p.out, chunk, limit), readOut := p.readOut + chunk, emitted := p.emitted + |chunk|)
    else
      p.(err := Kept(p.err, chunk, limit), readErr := p.readErr + chunk, emitted := p.emitted + |chunk|)
  }

  /** The budget is breached for the first time: the process group is killed, and the pipes get a
      new window. */
  function Breach(s: State, t: Turn, limits: Limits): State {
    var killed := s.(overBudget := true, code := t.afterBreach);
    if t.afterBreach.None? then killed.(status := NotTerminated) else OpenWindow(killed, s.clock, limits)
  }

  function ReadOne(s: State, r: Ready, t: Turn, limits: Limits): State {
    var later := s.(clock := s.clock + r.delay);
    if r.stream !in s.pipes.open || r.arrival.Blocked? then later
    else if r.arrival.chunk == [] then later.(pipes := s.pipes.(open := s.pipes.open - {r.stream}))
    else
      var taken := later.(pipes := Take(s.pipes, r.stream, r.arrival.chunk, limits.capture));
      if taken.pipes.emitted > limits.budget && !s.overBudget then Breach(taken, t, limits) else taken
  }

  function ReadAll(s: State, n: nat, t: Turn, limits: Limits): State
    requires n <= |t.ready|
  {
    if n == 0 then s
    else
      var before := ReadAll(s, n - 1, t, limits);
      if before.status == Running then ReadOne(before, t.ready[n - 1], t, limits) else before
  }

  /** The end of a drain window: give up after a kill or a second window, clean up descendants
      after the first. */
  function Check(s: State, t: Turn, limits: Limits): State {
    var now := s.clock + t.checkDelay;
    var later := s.(clock := now);
    if s.pipes.open == {} || s.drain.None? || now < s.drain.value then later
    else if s.overBudget || s.timedOut || s.forced then later.(pipes := s.pipes.(open := {}), status := Finished)
    else OpenWindow(later.(forced := true, clock := now + t.cleanupDelay), now + t.cleanupDelay, limits)
  }

  function Round(s: State, t: Turn, limits: Limits): State {
    if s.status != Running then s
    else if s.pipes.open == {} && s.code.Some? then s.(status := Finished)
    else
      var top := Top(s, t, limits);
      if top.status != Running then top
      else if top.pipes.open == {} then
        if top.code.Some? then top.(status := Finished) else top.(clock := top.clock + limits.poll)
      else
        var read := ReadAll(top, |t.ready|, t, limits);
        if read.status != Running then read else Check(read, t, limits)
  }

  function Rounds(s: State, script: nat -> Turn, n: nat, limits: Limits): State {
    if n == 0 then s else Round(Rounds(s, script, n - 1, limits), script(n - 1), limits)
  }

  // ---------------------------------------------------------------- what every round keeps

  predicate IsPrefixUpTo(capture: seq<Byte>, read: seq<Byte>, limit: nat) {
    capture == read[..Min(|read|, limit + 1)]
  }

  function Count(b: bool): nat { if b then 1 else 0 }

  predicate PipesInv(p: Pipes, limit: nat) {
    && IsPrefixUpTo(p.out, p.readOut, limit)
    && IsPrefixUpTo(p.err, p.readErr, limit)
    && p.emitted == |p.readOut| + |p.readErr|
  }

  predicate Inv(s: State, limits: Limits) {
    && PipesInv(s.pipes, limits.capture)
    && (s.overBudget <==> s.pipes.emitted > limits.budget)
    && (s.status != NotTerminated ==> WindowInv(s))
    && (s.status == Finished ==> s.pipes.open == {} && s.code.Some?)
  }

  predicate WindowInv(s: State) {
    && (s.drain.Some? ==> s.code.Some?)
    && (s.timedOut || s.overBudget || s.forced ==> s.drain.Some?)
    && !(s.forced && s.timedOut)
    && (s.drain.None? <==> s.windows == 0)
    && (!s.overBudget ==> s.windows == Count(s.drain.Some?) + Count(s.forced))
    && (s.overBudget ==> Count(s.forced) * 2 + 1 <= s.windows <= Count(s.forced) + 2)
  }

  lemma KeptExtends(capture: seq<Byte>, read: seq<Byte>, chunk: seq<Byte>, limit: nat)
    requires IsPrefixUpTo(capture, read, limit)
    ensures IsPrefixUpTo(Kept(capture, chunk, limit), read + chunk, limit)
  {
    if |read| < limit + 1 {
      assert capture == read;
    }
  }

  lemma TakeKeeps(p: Pipes, stream: Stream, chunk: seq<Byte>, limit: nat)
    requires PipesInv(p, limit)
    ensures PipesInv(Take(p, stream, chunk, limit), limit)
    ensures Take(p, stream, chunk, limit).emitted == p.emitted + |chunk|
  {
    KeptExtends(p.out, p.readOut, chunk, limit);
    KeptExtends(p.err, p.readErr, chunk, limit);
  }

  lemma ReadOneKeeps(s: State, r: Ready, t: Turn, limits: Limits)
    requires Inv(s, limits) && s.status == Running
    ensures Inv(ReadOne(s, r, t, limits), limits)
    ensures ReadOne(s, r, t, limits).status != Finished
  {
    hide IsPrefixUpTo, Take;
    if r.arrival.Got? {
      TakeKeeps(s.pipes, r.stream, r.arrival.chunk, limits.capture);
    }
  }

  lemma {:induction false} ReadAllKeeps(s: State, n: nat, t: Turn, limits: Limits)
    requires Inv(s, limits) && s.status == Running && n <= |t.ready|
    ensures Inv(ReadAll(s, n, t, limits), limits)
    ensures ReadAll(s, n, t, limits).status != Finished
  {
    if n > 0 {
      ReadAllKeeps(s, n - 1, t, limits);
      var before := ReadAll(s, n - 1, t, limits);
      hide Inv, ReadOne;
      if before.status == Running {
        ReadOneKeeps(before, t.ready[n - 1], t, limits);
      }
    }
  }

  lemma TopKeeps(s: State, t: Turn, limits: Limits)
    requires Inv(s, limits) && s.status == Running
    ensures Inv(Top(s, t, limits), limits)
    ensures Top(s, t, limits).status != Finished && Top(s, t, limits).pipes == s.pipes
  {
    hide PipesInv;
  }

  lemma CheckKeeps(s: State, t: Turn, limits: Limits)
    requires Inv(s, limits) && s.status == Running
    ensures Inv(Check(s, t, limits), limits)
  {
    hide IsPrefixUpTo;
  }

  lemma RoundKeeps(s: State, t: Turn, limits: Limits)
    requires Inv(s, limits)
    ensures Inv(Round(s, t, limits), limits)
  {
    if s.status == Running && !(s.pipes.open == {} && s.code.Some?) {
      var top := Top(s, t, limits);
      TopKeeps(s, t, limits);
      if top.status == Running && top.pipes.open != {} {
        ReadAllKeeps(top, |t.ready|, t, limits);
        var read := ReadAll(top, |t.ready|, t, limits);
        hide Top, ReadAll, Check, Inv;
        if read.status == Running {
          CheckKeeps(read, t, limits);
        }
      } else {
        hide Top;
      }
    }
  }

  lemma {:induction false} RoundsKeep(s: State, script: nat -> Turn, n: nat, limits: Limits)
    requires Inv(s, limits)
    ensures Inv(Rounds(s, script, n, limits), limits)
  {
    if n > 0 {
      RoundsKeep(s, script, n - 1, limits);
      RoundKeeps(Rounds(s, script, n - 1, limits), script(n - 1), limits);
    }
  }

  // ---------------------------------------------------------------- the loop ends

  /** Drain windows that can still be opened. */
  function WindowsLeft(s: State): nat { Count(s.drain.None?) + Count(!s.forced) + Count(!s.overBudget) }

  predicate Drained(s: State) { s.pipes.open == {} && s.code.Some? }

  /** Ticks to the end of the current window, or to the run deadline when none is open. */
  function TicksLeft(s: State): nat {
    var end := if s.drain.Some? then s.drain.value else s.deadline;
    if Drained(s) then 0 else if end > s.clock then 1 + end - s.clock else 1
  }

  /** No window was opened between the two states, and time went on. */
  predicate SameWindow(s: State, next: State) {
    && next.clock >= s.clock && next.deadline == s.deadline && next.drain == s.drain
    && WindowsLeft(next) == WindowsLeft(s)
    && (s.code.Some? ==> next.code.Some?)
  }

  /** A window was opened between the two states, and the open one ends at most the grace from now. */
  predicate NewWindow(s: State, next: State, limits: Limits) {
    WindowsLeft(next) < WindowsLeft(s) && next.drain.Some? && next.drain.value <= next.clock + limits.grace
  }

  predicate Onward(s: State, next: State, limits: Limits) { NewWindow(s, next, limits) || SameWindow(s, next) }

  lemma TopProgress(s: State, t: Turn, limits: Limits)
    requires Inv(s, limits) && s.status == Running
    requires Top(s, t, limits).status == Running && !Drained(Top(s, t, limits))
    ensures var top := Top(s, t, limits);
            || NewWindow(s, top, limits)
            || (SameWindow(s, top) && s.clock < top.clock && (s.drain.None? ==> top.clock < s.deadline))
  {
    hide PipesInv;
  }

  lemma OnwardOn(s: State, mid: State, next: State, limits: Limits)
    requires Onward(s, mid, limits) && Onward(mid, next, limits)
    ensures Onward(s, next, limits)
  { }

  lemma ReadOneProgress(s: State, r: Ready, t: Turn, limits: Limits)
    requires Inv(s, limits) && s.status == Running && ReadOne(s, r, t, limits).status == Running
    ensures Onward(s, ReadOne(s, r, t, limits), limits)
  {
    hide Take, PipesInv;
  }

  lemma {:induction false} ReadAllProgress(s: State, n: nat, t: Turn, limits: Limits)
    requires Inv(s, limits) && s.status == Running && n <= |t.ready| && ReadAll(s, n, t, limits).status == Running
    ensures Onward(s, ReadAll(s, n, t, limits), limits)
  {
    if n > 0 {
      ReadAllKeeps(s, n - 1, t, limits);
      var before := ReadAll(s, n - 1, t, limits);
      hide Inv, ReadOne, Onward;
      ReadAllProgress(s, n - 1, t, limits);
      ReadOneProgress(before, t.ready[n - 1], t, limits);
      OnwardOn(s, before, ReadAll(s, n, t, limits), limits);
    } else {
      hide Inv;
    }
  }

  lemma CheckProgress(s: State, t: Turn, limits: Limits)
    requires Inv(s, limits) && s.status == Running && Check(s, t, limits).status == Running
    ensures var next := Check(s, t, limits);
            || NewWindow(s, next, limits)
            || (SameWindow(s, next) && (s.drain.None? || Drained(next) || next.clock < s.drain.value))
  {
    hide PipesInv;
  }

  /** Every round that does not end the loop opens one of at most three windows, or comes closer
      to the end of the window or deadline it is in. */
  lemma RoundProgress(s: State, t: Turn, limits: Limits)
    requires Inv(s, limits) && s.status == Running && Round(s, t, limits).status == Running
    ensures var next := Round(s, t, limits);
            || (WindowsLeft(next) < WindowsLeft(s) && TicksLeft(next) <= limits.grace + 1)
            || (WindowsLeft(next) == WindowsLeft(s) && TicksLeft(next) < TicksLeft(s))
  {
    var top := Top(s, t, limits);
    TopKeeps(s, t, limits);
    TopProgress(s, t, limits);
    if top.pipes.open != {} {
      ReadAllKeeps(top, |t.ready|, t, limits);
      ReadAllProgress(top, |t.ready|, t, limits);
      var read := ReadAll(top, |t.ready|, t, limits);
      hide Top, ReadAll, PipesInv;
      CheckProgress(read, t, limits);
    }
  }

  /** The most rounds that drain windows still to be opened can take. */
  function WindowTicks(s: State, limits: Limits): nat {
    var each := limits.grace + 2;
    (if s.drain.None? then each else 0) + (if s.forced then 0 else each) + (if s.overBudget then 0 else each)
  }

  /** How many more rounds there can be: the rest of the current window or of the time to the run
      deadline, and the grace for every window that can still be opened. */
  function RoundsLeft(s: State, limits: Limits): nat {
    if s.status == Running then 1 + WindowTicks(s, limits) + TicksLeft(s) else 0
  }

  lemma FewerRoundsLeft(s: State, t: Turn, limits: Limits)
    requires Inv(s, limits) && s.status == Running && Round(s, t, limits).status == Running
    ensures RoundsLeft(Round(s, t, limits), limits) < RoundsLeft(s, limits)
  {
    RoundProgress(s, t, limits);
    hide Round, Inv, TicksLeft;
    WindowTicksCount(s, limits);
    WindowTicksCount(Round(s, t, limits), limits);
  }

  lemma WindowTicksCount(s: State, limits: Limits)
    ensures WindowsLeft(s) == 0 ==> WindowTicks(s, limits) == 0
    ensures WindowsLeft(s) == 1 ==> WindowTicks(s, limits) == limits.grace + 2
    ensures WindowsLeft(s) == 2 ==> WindowTicks(s, limits) == 2 * (limits.grace + 2)
    ensures WindowsLeft(s) == 3 ==> WindowTicks(s, limits) == 3 * (limits.grace + 2)
  { }

  lemma {:induction false} LoopEndsAfter(s: State, script: nat -> Turn, n: nat, limits: Limits) returns (m: nat)
    requires Inv(s, limits)
    requires Inv(Rounds(s, script, n, limits), limits)
    ensures n <= m <= n + RoundsLeft(Rounds(s, script, n, limits), limits)
    ensures Rounds(s, script, m, limits).status != Running
    decreases RoundsLeft(Rounds(s, script, n, limits), limits)
  {
    var now := Rounds(s, script, n, limits);
    if now.status != Running {
      return n;
    }
    RoundKeeps(now, script(n), limits);
    assert Rounds(s, script, n + 1, limits) == Round(now, script(n), limits);
    if Round(now, script(n), limits).status != Running {
      return n + 1;
    }
    FewerRoundsLeft(now, script(n), limits);
    m := LoopEndsAfter(s, script, n + 1, limits);
  }

  /** Under every schedule the loop ends: within the rounds that fit into the run timeout and three
      drain windows, a round taking a tick at least. */
  lemma LoopEnds(now: int, limits: Limits, script: nat -> Turn) returns (m: nat)
    ensures Rounds(Start(now, limits), script, m, limits).status != Running
    ensures m <= (limits.timeout + 2) + 3 * (limits.grace + 2)
  {
    m := LoopEndsAfter(Start(now, limits), script, 0, limits);
  }

  // ---------------------------------------------------------------- what a run returns

  /** A state that `script` leads to from the start. */
  ghost predicate Reaches(now: int, limits: Limits, script: nat -> Turn, s: State) {
    exists n: nat :: s == Rounds(Start(now, limits), script, n, limits)
  }

  /** When the loop ends by itself, the exit code is known, each capture is the beginning of what
      was read from its pipe, one byte longer than the limit at most, and the budget flag says
      whether more bytes came than the budget. */
  lemma FinishedRun(now: int, limits: Limits, script: nat -> Turn, s: State)
    requires Reaches(now, limits, script, s) && s.status == Finished
    ensures s.code.Some?
    ensures IsPrefixUpTo(s.pipes.out, s.pipes.readOut, limits.capture)
    ensures IsPrefixUpTo(s.pipes.err, s.pipes.readErr, limits.capture)
    ensures s.overBudget <==> |s.pipes.readOut| + |s.pipes.readErr| > limits.budget
  {
    var n: nat :| s == Rounds(Start(now, limits), script, n, limits);
    RoundsKeep(Start(now, limits), script, n, limits);
  }

  // ---------------------------------------------------------------- drain windows

  function BytesRead(s: State): nat { |s.pipes.readOut| + |s.pipes.readErr| }

  /** The loop's state in the middle of a round, after the reads, when it gets there. */
  function AfterReads(s: State, t: Turn, limits: Limits): Option<State> {
    if s.status != Running || Drained(s) then None
    else
      var top := Top(s, t, limits);
      if top.status != Running || top.pipes.open == {} then None
      else
        var read := ReadAll(top, |t.ready|, t, limits);
        if read.status == Running then Some(read) else None
  }

  /** In this round the end of a drain window is noticed while a pipe is still open. */
  predicate WindowExpires(s: State, t: Turn, limits: Limits) {
    var read := AfterReads(s, t, limits);
    && read.Some? && read.value.pipes.open != {} && read.value.drain.Some?
    && read.value.clock + t.checkDelay >= read.value.drain.value
  }

  /** In this round the run deadline has passed and no exit was seen, so the command is killed. */
  predicate DeadlineKills(s: State, t: Turn) {
    && s.status == Running && !Drained(s)
    && !s.overBudget && !s.timedOut && s.code.None? && t.polled.None?
    && s.clock + 1 + t.topDelay >= s.deadline
  }

  ghost predicate KilledIn(start: State, script: nat -> Turn, j: nat, limits: Limits) {
    DeadlineKills(Rounds(start, script, j, limits), script(j))
  }

  /** A window expires in round `k` of the run, no more bytes than the budget were read by then, and
      the run deadline has killed nothing. */
  ghost predicate ExpiresCleanly(start: State, script: nat -> Turn, k: nat, limits: Limits) {
    var s := Rounds(start, script, k, limits);
    && WindowExpires(s, script(k), limits)
    && BytesRead(AfterReads(s, script(k), limits).value) <= limits.budget
    && forall j :: 0 <= j <= k ==> !KilledIn(start, script, j, limits)
  }

  lemma RoundTimedOut(s: State, t: Turn, limits: Limits)
    requires Inv(s, limits)
    ensures Round(s, t, limits).timedOut <==> s.timedOut || DeadlineKills(s, t)
    ensures AfterReads(s, t, limits).Some? ==>
              (AfterReads(s, t, limits).value.timedOut <==> s.timedOut || DeadlineKills(s, t))
  {
    if s.status == Running && !Drained(s) {
      ReadAllFlags(Top(s, t, limits), |t.ready|, t, limits);
    }
  }

  lemma {:induction false} ReadAllFlags(s: State, n: nat, t: Turn, limits: Limits)
    requires n <= |t.ready|
    ensures ReadAll(s, n, t, limits).timedOut == s.timedOut && ReadAll(s, n, t, limits).forced == s.forced
  {
    if n > 0 {
      ReadAllFlags(s, n - 1, t, limits);
    }
  }

  lemma {:induction false} TimedOutWhenKilled(start: State, script: nat -> Turn, n: nat, limits: Limits)
    requires Inv(start, limits) && !start.timedOut
    ensures Rounds(start, script, n, limits).timedOut <==>
              exists j :: 0 <= j < n && KilledIn(start, script, j, limits)
  {
    hide Inv, DeadlineKills, AfterReads, Round;
    if n > 0 {
      TimedOutWhenKilled(start, script, n - 1, limits);
      RoundsKeep(start, script, n - 1, limits);
      RoundTimedOut(Rounds(start, script, n - 1, limits), script(n - 1), limits);
      assert KilledIn(start, script, n - 1, limits) <==>
               DeadlineKills(Rounds(start, script, n - 1, limits), script(n - 1));
    }
  }

  /** Descendants are cleaned up in a round exactly when a window expires in it for the first time,
      before any breach or timeout. */
  lemma RoundForced(s: State, t: Turn, limits: Limits)
    requires Inv(s, limits)
    ensures Round(s, t, limits).forced <==>
              s.forced || (WindowExpires(s, t, limits) && !AfterReads(s, t, limits).value.overBudget
                           && !AfterReads(s, t, limits).value.timedOut)
    ensures AfterReads(s, t, limits).Some? ==> Inv(AfterReads(s, t, limits).value, limits)
  {
    if s.status == Running && !Drained(s) {
      var top := Top(s, t, limits);
      TopKeeps(s, t, limits);
      ReadAllFlags(top, |t.ready|, t, limits);
      if top.status == Running {
        ReadAllKeeps(top, |t.ready|, t, limits);
      }
    }
  }

  lemma ForcedNow(start: State, script: nat -> Turn, n: nat, limits: Limits)
    requires Inv(start, limits) && !start.timedOut && Inv(Rounds(start, script, n, limits), limits)
    ensures var s := Rounds(start, script, n, limits);
            Round(s, script(n), limits).forced <==> s.forced || ExpiresCleanly(start, script, n, limits)
  {
    hide Round, DeadlineKills, ReadAll, Top, Drained;
    var s := Rounds(start, script, n, limits);
    RoundForced(s, script(n), limits);
    RoundTimedOut(s, script(n), limits);
    TimedOutWhenKilled(start, script, n, limits);
    assert KilledIn(start, script, n, limits) <==> DeadlineKills(s, script(n));
    assert (exists j :: 0 <= j < n && KilledIn(start, script, j, limits)) || DeadlineKills(s, script(n)) <==>
             exists j :: 0 <= j <= n && KilledIn(start, script, j, limits);
  }

  lemma {:induction false} ForcedWhenExpired(start: State, script: nat -> Turn, n: nat, limits: Limits)
    requires Inv(start, limits) && !start.timedOut && !start.forced
    ensures Rounds(start, script, n, limits).forced <==>
              exists k :: 0 <= k < n && ExpiresCleanly(start, script, k, limits)
  {
    hide Inv, ExpiresCleanly, Round;
    if n > 0 {
      ForcedWhenExpired(start, script, n - 1, limits);
      RoundsKeep(start, script, n - 1, limits);
      ForcedNow(start, script, n - 1, limits);
    }
  }

  /** A run opens three drain windows exactly when one of them expires with a pipe still open,
      within the budget and without the deadline having killed the command, and the bytes read
      exceed the budget later; otherwise it opens at most two. */
  lemma DrainWindows(now: int, limits: Limits, script: nat -> Turn, n: nat)
    ensures var s := Rounds(Start(now, limits), script, n, limits);
            s.status != NotTerminated ==>
              && s.windows <= 3
              && (s.windows == 3 <==>
                    && BytesRead(s) > limits.budget
                    && exists k :: 0 <= k < n && ExpiresCleanly(Start(now, limits), script, k, limits))
  {
    RoundsKeep(Start(now, limits), script, n, limits);
    ForcedWhenExpired(Start(now, limits), script, n, limits);
  }

  function Quietly(code: Option<int>): Turn { Turn(500, code, 0, None, [], Some(0), 0, 0) }

  function Burst(bytes: seq<Byte>): Turn {
    Turn(0, None, 0, None, [Ready(Out, Got(bytes), 0)], Some(0), 0, 0)
  }

  /** A command that exits at once, leaves a descendant holding its pipes for two rounds, and then
      has one byte too many written: three windows. */
  function ThreeWindowScript(n: nat): Turn {
    if n == 2 then Burst([1, 1]) else Quietly(Some(0))
  }

  lemma ThreeWindowsHappen()
    ensures var limits := Limits(100000, 10, 1, 50, 500);
            var s := Rounds(Start(0, limits), ThreeWindowScript, 4, limits);
            s.status == Finished && s.windows == 3 && s.forced && s.overBudget && !s.timedOut
  {
    var limits := Limits(100000, 10, 1, 50, 500);
    var s0 := Start(0, limits);
    QuietRound(s0, limits);
    var s1 := s0.(clock := 501, code := Some(0), drain := Some(1001), windows := 1);
    assert Rounds(s0, ThreeWindowScript, 1, limits) == s1 by { assert Rounds(s0, ThreeWindowScript, 0, limits) == s0; }
    QuietRound(s1, limits);
    var s2 := s1.(clock := 1002, forced := true, drain := Some(1502), windows := 2);
    assert Rounds(s0, ThreeWindowScript, 2, limits) == s2;
    var burst := Burst([1, 1]);
    var top := s2.(clock := 1003);
    assert Top(s2, burst, limits) == top;
    assert ReadAll(top, 0, burst, limits) == top;
    var read := ReadOne(top, burst.ready[0], burst, limits);
    assert ReadAll(top, 1, burst, limits) == read;
    var s3 := Round(s2, burst, limits);
    assert s3.clock == 1003 && s3.overBudget && s3.windows == 3;
    assert s3.drain == Some(1503) && s3.pipes.open == {Out, Err};
    assert Rounds(s0, ThreeWindowScript, 3, limits) == s3;
    QuietRound(s3, limits);
  }

  /** A round in which nothing is read. */
  lemma QuietRound(s: State, limits: Limits)
    requires s.status == Running && s.pipes.open == {Out, Err}
    ensures var turn := Quietly(Some(0));
            var top := Top(s, turn, limits);
            Round(s, turn, limits) == if top.status == Running then Check(top, turn, limits) else top
  { }
}
