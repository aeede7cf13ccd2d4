/** One visit to `observer_ownership` seen both ways: as the log of the imperative routine among
    arbitrary others, and as the moves of one task in the machine of all tasks. */
module OwnershipRefinement {
  import opened KeyOrder
  import opened Ownership
  import opened OwnershipScope

  // ---------------------------------------------------------------- one task's own moves

  predicate By(m: Move, i: nat) { !m.Enter? && m.i == i }

  /** What a move asks of the task itself; the lock tables ask more. */
  predicate Ready(t: Task, m: Move) {
    match m
    case Enter(_, _) => false
    case TakeLocal(_) => WaitsLocal(t)
    case TakeOs(_) => WaitsOs(t)
    case Leave(_) => !t.leaving
    case DropOs(_) => t.leaving && 0 < t.os <= |t.keys|
    case DropLocal(_) => t.leaving && t.os == 0 && 0 < t.local <= |t.keys|
  }

  function Moved(t: Task, m: Move): Task
    requires Ready(t, m)
  {
    match m
    case TakeLocal(_) => t.(local := t.local + 1)
    case TakeOs(_) => t.(os := t.os + 1)
    case Leave(_) => t.(leaving := true)
    case DropOs(_) => t.(os := t.os - 1)
    case DropLocal(_) => t.(local := t.local - 1)
  }

  predicate Legal(t: Task, moves: seq<Move>)
    decreases |moves|
  {
    moves != [] ==> Ready(t, moves[0]) && Legal(Moved(t, moves[0]), moves[1..])
  }

  function After(t: Task, moves: seq<Move>): Task
    requires Legal(t, moves)
    decreases |moves|
  {
    if moves == [] then t else After(Moved(t, moves[0]), moves[1..])
  }

  function MovesBy(i: nat, moves: seq<Move>): seq<Move> {
    if moves == [] then [] else (if By(moves[0], i) then [moves[0]] else []) + MovesBy(i, moves[1..])
  }

  /** The moves of one task in a run of the whole machine are a run of that task on its own. */
  lemma {:induction false} RunProjects(w: World, moves: seq<Move>, end: World, i: nat)
    requires Run(w, moves, end) && i < |w.tasks|
    ensures i < |end.tasks| && Legal(w.tasks[i], MovesBy(i, moves))
    ensures After(w.tasks[i], MovesBy(i, moves)) == end.tasks[i]
    decreases |moves|
  {
    if moves != [] {
      var next := Apply(w, moves[0]);
      StepProjects(w, moves[0], i);
      hide Apply, Enabled, Ready, Moved;
      RunProjects(next, moves[1..], end, i);
      var rest := MovesBy(i, moves[1..]);
      if By(moves[0], i) {
        assert MovesBy(i, moves)[1..] == rest;
      } else {
        assert MovesBy(i, moves) == rest;
      }
    }
  }

  lemma StepProjects(w: World, m: Move, i: nat)
    requires Enabled(w, m) && i < |w.tasks|
    ensures i < |Apply(w, m).tasks|
    ensures By(m, i) ==> Ready(w.tasks[i], m) && Apply(w, m).tasks[i] == Moved(w.tasks[i], m)
    ensures !By(m, i) ==> Apply(w, m).tasks[i] == w.tasks[i]
  { }

  // ---------------------------------------------------------------- moves as events

  /** What a move leaves in the log of a task whose enclosing scopes hold `held`. Leaving shows only
      when it ends the protected body. */
  function EventsOf(t: Task, m: Move, held: set<Key>): seq<Event>
    requires Ready(t, m)
  {
    match m
    case TakeLocal(_) => [TookLocal(t.keys[t.local])]
    case TakeOs(_) => [TookFile(t.keys[t.os])]
    case Leave(_) => if Inside(t) then Body(t.keys, held) else []
    case DropOs(_) => [GaveFile(t.keys[t.os - 1])]
    case DropLocal(_) => [GaveLocal(t.keys[t.local - 1])]
  }

  function Body(keys: seq<Key>, held: set<Key>): seq<Event> { [Ran(held + KeysOf(keys), held + KeysOf(keys))] }

  function Trace(t: Task, moves: seq<Move>, held: set<Key>): seq<Event>
    requires Legal(t, moves)
    decreases |moves|
  {
    if moves == [] then []
    else EventsOf(t, moves[0], held) + Trace(Moved(t, moves[0]), moves[1..], held)
  }

  /** How far a visit gets: it takes the first `locals` locks, then the first `files` lock files. */
  predicate Reach(keys: seq<Key>, locals: nat, files: nat) {
    files <= locals <= |keys| && (files > 0 ==> locals == |keys|)
  }

  predicate Shaped(t: Task) { Reach(t.keys, t.local, t.os) }

  predicate CanReach(t: Task, locals: nat, files: nat) {
    Shaped(t) && Reach(t.keys, locals, files) && (!t.leaving ==> t.local <= locals && t.os <= files)
  }

  /** What is left to log of a visit that gets that far. */
  function Remaining(t: Task, locals: nat, files: nat, held: set<Key>): seq<Event>
    requires CanReach(t, locals, files)
  {
    if t.leaving then FilesBack(t.keys[..t.os]) + LocalsBack(t.keys[..t.local])
    else
      Locals(t.keys[t.local..locals]) + Files(t.keys[t.os..files]) + Rest(t.keys, locals, files, held)
  }

  /** The body, if the visit gets to it, and the releases. */
  function Rest(keys: seq<Key>, locals: nat, files: nat, held: set<Key>): seq<Event>
    requires Reach(keys, locals, files)
  {
    (if files == |keys| then Body(keys, held) else []) + FilesBack(keys[..files]) + LocalsBack(keys[..locals])
  }

  /** The move that a visit that gets that far makes next. */
  function Next(t: Task, locals: nat, files: nat, i: nat): Move
    requires CanReach(t, locals, files)
  {
    if t.leaving then if t.os > 0 then DropOs(i) else DropLocal(i)
    else if t.local < locals then TakeLocal(i)
    else if t.os < files then TakeOs(i)
    else Leave(i)
  }

  lemma NextReady(t: Task, locals: nat, files: nat, i: nat)
    requires CanReach(t, locals, files) && !Finished(t)
    ensures var m := Next(t, locals, files, i); Ready(t, m) && CanReach(Moved(t, m), locals, files)
  { }

  lemma TakingLogs(t: Task, locals: nat, files: nat, i: nat, held: set<Key>)
    requires CanReach(t, locals, files) && !t.leaving && (t.local < locals || t.os < files)
    requires var m := Next(t, locals, files, i); Ready(t, m) && CanReach(Moved(t, m), locals, files)
    ensures var m := Next(t, locals, files, i);
            Remaining(t, locals, files, held) == EventsOf(t, m, held) + Remaining(Moved(t, m), locals, files, held)
  {
    hide Body, Rest, Locals, Files, FilesBack, LocalsBack;
    NoneYet(t.keys);
    var rest := Rest(t.keys, locals, files, held);
    if t.local < locals {
      assert t.keys[t.local..locals][1..] == t.keys[t.local + 1..locals];
      FirstTaken(t.keys[t.local..locals]);
      Prepend(TookLocal(t.keys[t.local]), Locals(t.keys[t.local + 1..locals]), Files(t.keys[t.os..files]), rest);
    } else {
      assert t.keys[locals..locals] == t.keys[..0];
      assert t.keys[t.os..files][1..] == t.keys[t.os + 1..files];
      FirstTaken(t.keys[t.os..files]);
      Prepend(TookFile(t.keys[t.os]), [], Files(t.keys[t.os + 1..files]), rest);
    }
  }

  lemma LeavingLogs(t: Task, i: nat, held: set<Key>)
    requires Shaped(t) && !t.leaving
    ensures Remaining(t, t.local, t.os, held) ==
            EventsOf(t, Leave(i), held) + Remaining(t.(leaving := true), t.local, t.os, held)
  {
    hide Body, Locals, Files, FilesBack, LocalsBack;
    NoneYet(t.keys);
    assert t.keys[t.local..t.local] == t.keys[..0] && t.keys[t.os..t.os] == t.keys[..0];
    if Inside(t) {
      Regroup([], [], Body(t.keys, held), FilesBack(t.keys[..t.os]), LocalsBack(t.keys[..t.local]));
    }
  }

  lemma DroppingLogs(t: Task, locals: nat, files: nat, i: nat, held: set<Key>)
    requires CanReach(t, locals, files) && t.leaving && !Finished(t)
    requires var m := Next(t, locals, files, i); Ready(t, m) && CanReach(Moved(t, m), locals, files)
    ensures var m := Next(t, locals, files, i);
            Remaining(t, locals, files, held) == EventsOf(t, m, held) + Remaining(Moved(t, m), locals, files, held)
  {
    hide FilesBack, LocalsBack;
    NoneYet(t.keys);
    if t.os > 0 {
      OneMore(t.keys, t.os - 1);
    } else {
      OneMore(t.keys, t.local - 1);
    }
  }

  /** The next move logs the first of the events that remain. */
  lemma NextLogs(t: Task, locals: nat, files: nat, i: nat, held: set<Key>)
    requires CanReach(t, locals, files) && !Finished(t)
    ensures var m := Next(t, locals, files, i);
            && Ready(t, m) && CanReach(Moved(t, m), locals, files)
            && Remaining(t, locals, files, held) == EventsOf(t, m, held) + Remaining(Moved(t, m), locals, files, held)
  {
    NextReady(t, locals, files, i);
    hide Remaining, EventsOf;
    if t.leaving {
      DroppingLogs(t, locals, files, i, held);
    } else if t.local < locals || t.os < files {
      TakingLogs(t, locals, files, i, held);
    } else {
      LeavingLogs(t, i, held);
    }
  }

  lemma Prepend(e: Event, a: seq<Event>, b: seq<Event>, c: seq<Event>)
    ensures ([e] + a) + b + c == [e] + (a + b + c)
    ensures a == [] ==> a + ([e] + b) + c == [e] + (a + b + c)
  { }

  lemma FirstTaken(keys: seq<Key>)
    requires keys != []
    ensures Locals(keys) == [TookLocal(keys[0])] + Locals(keys[1..])
    ensures Files(keys) == [TookFile(keys[0])] + Files(keys[1..])
  { }

  lemma NothingRemains(t: Task, locals: nat, files: nat, held: set<Key>)
    requires CanReach(t, locals, files) && Finished(t)
    ensures Remaining(t, locals, files, held) == []
  { }

  /** Moves still to come of a visit. */
  function Todo(t: Task, locals: nat, files: nat): nat
    requires CanReach(t, locals, files)
  {
    if t.leaving then t.local + t.os else 1 + 2 * (locals + files) - t.local - t.os
  }

  lemma TodoShrinks(t: Task, locals: nat, files: nat, i: nat)
    requires CanReach(t, locals, files) && !Finished(t)
    ensures var m := Next(t, locals, files, i);
            && Ready(t, m) && CanReach(Moved(t, m), locals, files) && By(m, i)
            && Todo(Moved(t, m), locals, files) < Todo(t, locals, files)
  {
    NextReady(t, locals, files, i);
  }

  /** Every visit is traced by moves of the task. */
  lemma {:induction false} VisitHasMoves(t: Task, locals: nat, files: nat, i: nat, held: set<Key>)
    returns (moves: seq<Move>)
    requires CanReach(t, locals, files)
    ensures Legal(t, moves) && Finished(After(t, moves)) && forall m :: m in moves ==> By(m, i)
    ensures Trace(t, moves, held) == Remaining(t, locals, files, held)
    decreases Todo(t, locals, files)
  {
    if Finished(t) {
      NothingRemains(t, locals, files, held);
      return [];
    }
    var m := Next(t, locals, files, i);
    NextLogs(t, locals, files, i, held);
    TodoShrinks(t, locals, files, i);
    hide Remaining, EventsOf, Moved, Ready, Next, CanReach, Todo, Finished;
    var rest := VisitHasMoves(Moved(t, m), locals, files, i, held);
    moves := [m] + rest;
    assert moves[1..] == rest;
  }

  /** A move of the task either is the next one of the visit, or, when the task has not left yet,
      decides how far the visit gets. */
  lemma MoveLogs(t: Task, m: Move, locals: nat, files: nat, held: set<Key>)
    requires Shaped(t) && Ready(t, m) && CanReach(Moved(t, m), locals, files)
    requires m.Leave? ==> locals == t.local && files == t.os
    ensures CanReach(t, locals, files)
    ensures Remaining(t, locals, files, held) == EventsOf(t, m, held) + Remaining(Moved(t, m), locals, files, held)
  {
    assert m == Next(t, locals, files, m.i);
    NextLogs(t, locals, files, m.i, held);
  }

  /** Every complete run of the task's moves is a visit that gets somewhere. */
  lemma {:induction false} MovesMakeVisit(t: Task, moves: seq<Move>, held: set<Key>) returns (locals: nat, files: nat)
    requires Shaped(t) && Legal(t, moves) && Finished(After(t, moves))
    ensures CanReach(t, locals, files)
    ensures Trace(t, moves, held) == Remaining(t, locals, files, held)
    decreases |moves|
  {
    if moves == [] {
      locals, files := t.local, t.os;
      NothingRemains(t, locals, files, held);
    } else {
      assert Shaped(Moved(t, moves[0]));
      locals, files := MovesMakeVisit(Moved(t, moves[0]), moves[1..], held);
      if moves[0].Leave? {
        locals, files := t.local, t.os;
      }
      MoveLogs(t, moves[0], locals, files, held);
    }
  }

  // ---------------------------------------------------------------- the two views agree

  function Entering(loop: Loop, requested: set<Key>, held: set<Key>): Task {
    Task(loop, Sorted(requested - held), 0, 0, false)
  }

  ghost predicate IsRun(t: Task, held: set<Key>, log: seq<Event>) {
    exists moves :: Legal(t, moves) && Finished(After(t, moves)) && Trace(t, moves, held) == log
  }

  /** The log that the contract of the imperative routine allows for a visit that gets that far. */
  function VisitLog(requested: set<Key>, held: set<Key>, locals: nat, files: nat): seq<Event>
    requires Reach(Sorted(requested - held), locals, files)
  {
    var missing := Sorted(requested - held);
    Visit(missing[..locals], missing[..files],
          if files == |missing| then [Ran(held + requested, held + requested)] else [])
  }

  lemma Regroup(a: seq<Event>, b: seq<Event>, c: seq<Event>, d: seq<Event>, e: seq<Event>)
    ensures a + b + c + d + e == a + b + (c + d + e)
  { }

  lemma VisitIsRemaining(loop: Loop, requested: set<Key>, held: set<Key>, locals: nat, files: nat)
    requires Reach(Sorted(requested - held), locals, files)
    ensures VisitLog(requested, held, locals, files) == Remaining(Entering(loop, requested, held), locals, files, held)
  {
    EverythingHeld(requested, held);
    hide Locals, Files, FilesBack, LocalsBack, KeysOf, Sorted, Ascending;
    var missing := Sorted(requested - held);
    assert missing[0..locals] == missing[..locals] && missing[0..files] == missing[..files];
    var body := if files == |missing| then [Ran(held + requested, held + requested)] else [];
    Regroup(Locals(missing[..locals]), Files(missing[..files]), body,
            FilesBack(missing[..files]), LocalsBack(missing[..locals]));
  }

  /** A log is one that the routine can leave exactly when it is the trace of a complete run of a
      task's own moves, from entering to having finished. */
  lemma LogsAreRuns(loop: Loop, requested: set<Key>, held: set<Key>, log: seq<Event>)
    ensures IsRun(Entering(loop, requested, held), held, log) <==>
              exists locals: nat, files: nat ::
                Reach(Sorted(requested - held), locals, files) && log == VisitLog(requested, held, locals, files)
  {
    var t := Entering(loop, requested, held);
    hide Remaining, VisitLog, Legal, After, Trace;
    if IsRun(t, held, log) {
      var moves :| Legal(t, moves) && Finished(After(t, moves)) && Trace(t, moves, held) == log;
      var locals, files := MovesMakeVisit(t, moves, held);
      VisitIsRemaining(loop, requested, held, locals, files);
    }
    if locals: nat, files: nat :|
      Reach(Sorted(requested - held), locals, files) && log == VisitLog(requested, held, locals, files)
    {
      VisitIsRemaining(loop, requested, held, locals, files);
      var moves := VisitHasMoves(t, locals, files, 0, held);
    }
  }

  /** What `ObserverOwnership` adds to the log is a complete run of a task that enters with the missing
      keys: the moves that the deadlock theorems are about. */
  method OwnershipAsRun(tables: LockTables, me: TaskId, loop: Loop, requested: set<Key>, held: set<Key>)
    returns (entered: bool, ghost added: seq<Event>)
    requires OwnedBy(tables.localOwner, me) == held && OwnedBy(tables.osOwner, me) == held
    modifies tables
    ensures OwnedBy(tables.localOwner, me) == held && OwnedBy(tables.osOwner, me) == held
    ensures tables.log == old(tables.log) + added && IsRun(Entering(loop, requested, held), held, added)
  {
    hide Visit, IsRun, Sorted, OwnedBy;
    var locals, files;
    entered, locals, files := tables.ObserverOwnership(me, requested, held);
    added := VisitLog(requested, held, locals, files);
    LogsAreRuns(loop, requested, held, added);
  }
}
