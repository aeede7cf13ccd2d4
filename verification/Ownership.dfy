/** Ownership leases as a state machine: many tasks, one lock table per event loop and one for
    the whole machine. A move is what one task does between two suspensions. */
module Ownership {
  import opened KeyOrder

  type Loop = nat

  /** A task inside `observer_ownership`. It takes `keys` in order, first as in-process locks, then
      as lock files, so it holds `keys[..local]` and `keys[..os]`; a task that `leaving` marks is
      in the clean-up part and gives them back from the end. */
  datatype Task = Task(loop: Loop, keys: seq<Key>, local: nat, os: nat, leaving: bool)

  datatype World = World(tasks: seq<Task>, localOwner: map<(Loop, Key), nat>, osOwner: map<Key, nat>)

  const EMPTY := World([], map[], map[])

  predicate Inside(t: Task) { !t.leaving && t.local == |t.keys| && t.os == |t.keys| }

  predicate Finished(t: Task) { t.leaving && t.local == 0 && t.os == 0 }

  predicate WaitsLocal(t: Task) { !t.leaving && t.local < |t.keys| }

  predicate WaitsOs(t: Task) { !t.leaving && t.local == |t.keys| && t.os < |t.keys| }

  /** `Leave` is the end of the protected body, or an exception or cancellation at any point. */
  datatype Move =
    | Enter(loop: Loop, ghost requested: set<Key>)
    | TakeLocal(i: nat)
    | TakeOs(i: nat)
    | Leave(i: nat)
    | DropOs(i: nat)
    | DropLocal(i: nat)

  ghost predicate Enabled(w: World, m: Move) {
    match m
    case Enter(_, _) => true
    case TakeLocal(i) => i < |w.tasks| && WaitsLocal(w.tasks[i]) && NextLocal(w.tasks[i]) !in w.localOwner
    case TakeOs(i) => i < |w.tasks| && WaitsOs(w.tasks[i]) && w.tasks[i].keys[w.tasks[i].os] !in w.osOwner
    case Leave(i) => i < |w.tasks| && !w.tasks[i].leaving
    case DropOs(i) => i < |w.tasks| && w.tasks[i].leaving && 0 < w.tasks[i].os <= |w.tasks[i].keys|
    case DropLocal(i) =>
      i < |w.tasks| && w.tasks[i].leaving && w.tasks[i].os == 0 && 0 < w.tasks[i].local <= |w.tasks[i].keys|
  }

  function NextLocal(t: Task): (Loop, Key)
    requires t.local < |t.keys|
  { (t.loop, t.keys[t.local]) }

  ghost function Apply(w: World, m: Move): World
    requires Enabled(w, m)
  {
    match m
    case Enter(loop, requested) => w.(tasks := w.tasks + [Task(loop, Sorted(requested), 0, 0, false)])
    case TakeLocal(i) =>
      var t := w.tasks[i];
      w.(tasks := w.tasks[i := t.(local := t.local + 1)], localOwner := w.localOwner[NextLocal(t) := i])
    case TakeOs(i) =>
      var t := w.tasks[i];
      w.(tasks := w.tasks[i := t.(os := t.os + 1)], osOwner := w.osOwner[t.keys[t.os] := i])
    case Leave(i) => w.(tasks := w.tasks[i := w.tasks[i].(leaving := true)])
    case DropOs(i) =>
      var t := w.tasks[i];
      w.(tasks := w.tasks[i := t.(os := t.os - 1)], osOwner := w.osOwner - {t.keys[t.os - 1]})
    case DropLocal(i) =>
      var t := w.tasks[i];
      w.(tasks := w.tasks[i := t.(local := t.local - 1)], localOwner := w.localOwner - {(t.loop, t.keys[t.local - 1])})
  }

  // ---------------------------------------------------------------- what every run keeps

  ghost predicate Shape(t: Task) {
    && t.os <= t.local <= |t.keys|
    && (t.os > 0 ==> t.local == |t.keys|)
    && Ascending(t.keys)
  }

  ghost predicate AllShaped(w: World) { forall i :: 0 <= i < |w.tasks| ==> Shape(w.tasks[i]) }

  /** What a task holds: the locks of its loop up to `local`, the lock files up to `os`. */
  function LocalHeld(t: Task): set<(Loop, Key)> {
    set a | 0 <= a < |t.keys| && a < t.local :: (t.loop, t.keys[a])
  }

  function OsHeld(t: Task): set<Key> {
    set a | 0 <= a < |t.keys| && a < t.os :: t.keys[a]
  }

  function AllLocalHeld(w: World): (held: seq<set<(Loop, Key)>>)
    ensures |held| == |w.tasks|
  {
    seq(|w.tasks|, i requires 0 <= i < |w.tasks| => LocalHeld(w.tasks[i]))
  }

  function AllOsHeld(w: World): (held: seq<set<Key>>)
    ensures |held| == |w.tasks|
  {
    seq(|w.tasks|, i requires 0 <= i < |w.tasks| => OsHeld(w.tasks[i]))
  }

  /** A lock table names exactly one holder for every lock that somebody holds. */
  ghost predicate TableSays<K(!new)>(owner: map<K, nat>, held: seq<set<K>>) {
    && (forall k :: k in owner ==> owner[k] < |held| && k in held[owner[k]])
    && (forall i, k :: 0 <= i < |held| && k in held[i] ==> k in owner && owner[k] == i)
  }

  lemma TakeKeeps<K(!new)>(owner: map<K, nat>, held: seq<set<K>>, i: nat, k: K)
    requires TableSays(owner, held) && i < |held| && k !in owner
    ensures TableSays(owner[k := i], held[i := held[i] + {k}])
  { }

  lemma DropKeeps<K(!new)>(owner: map<K, nat>, held: seq<set<K>>, i: nat, k: K)
    requires TableSays(owner, held) && i < |held| && k in held[i]
    ensures TableSays(owner - {k}, held[i := held[i] - {k}])
  {
    var after := held[i := held[i] - {k}];
    forall x | x in owner && x != k ensures x in after[owner[x]] {
      assert x in held[owner[x]];
    }
    forall j, x | 0 <= j < |after| && x in after[j] ensures x != k && x in owner && owner[x] == j {
      assert x in held[j];
      assert owner[k] == i;
    }
  }

  lemma HoldersDiffer<K(!new)>(owner: map<K, nat>, held: seq<set<K>>, i: nat, j: nat)
    requires TableSays(owner, held) && i < |held| && j < |held| && i != j
    ensures held[i] !! held[j]
  {
    assert forall k :: k in held[i] ==> owner[k] == i;
  }

  lemma ArrivalKeeps<K(!new)>(owner: map<K, nat>, held: seq<set<K>>)
    requires TableSays(owner, held)
    ensures TableSays(owner, held + [{}])
  { }

  /** The lock tables say exactly what the tasks hold. */
  ghost predicate Inv(w: World) {
    AllShaped(w) && TableSays(w.localOwner, AllLocalHeld(w)) && TableSays(w.osOwner, AllOsHeld(w))
  }

  /** Taking the next key adds it to what is held; giving back the last one removes it. */
  lemma HeldNext(t: Task)
    requires Ascending(t.keys)
    ensures t.local < |t.keys| ==> LocalHeld(t.(local := t.local + 1)) == LocalHeld(t) + {NextLocal(t)}
    ensures t.local < |t.keys| ==> NextLocal(t) !in LocalHeld(t)
    ensures t.os < |t.keys| ==> OsHeld(t.(os := t.os + 1)) == OsHeld(t) + {t.keys[t.os]}
    ensures t.os < |t.keys| ==> t.keys[t.os] !in OsHeld(t)
  {
    forall a, b | 0 <= a < b < |t.keys| ensures t.keys[a] != t.keys[b] {
      LessTotal(t.keys[a], t.keys[b]);
    }
  }

  lemma LocalTableKept(w: World, m: Move)
    requires Inv(w) && Enabled(w, m)
    ensures TableSays(Apply(w, m).localOwner, AllLocalHeld(Apply(w, m)))
  {
    hide TableSays, LocalHeld, OsHeld, Ascending;
    var held, after := AllLocalHeld(w), AllLocalHeld(Apply(w, m));
    match m {
      case Enter(_, _) =>
        NothingHeld(Apply(w, m).tasks[|w.tasks|]);
        ArrivalKeeps(w.localOwner, held);
        assert after == held + [{}];
      case TakeLocal(i) =>
        var t := w.tasks[i];
        HeldNext(t);
        TakeKeeps(w.localOwner, held, i, NextLocal(t));
        assert after == held[i := held[i] + {NextLocal(t)}];
      case DropLocal(i) =>
        var t := w.tasks[i].(local := w.tasks[i].local - 1);
        HeldNext(t);
        assert w.tasks[i] == t.(local := t.local + 1);
        assert held[i] - {NextLocal(t)} == LocalHeld(t);
        DropKeeps(w.localOwner, held, i, NextLocal(t));
        assert after == held[i := held[i] - {NextLocal(t)}];
      case _ =>
        SameLocals(w.tasks[m.i], Apply(w, m).tasks[m.i]);
        assert after == held;
    }
  }

  lemma OsTableKept(w: World, m: Move)
    requires Inv(w) && Enabled(w, m)
    ensures TableSays(Apply(w, m).osOwner, AllOsHeld(Apply(w, m)))
  {
    hide TableSays, LocalHeld, OsHeld, Ascending;
    var held, after := AllOsHeld(w), AllOsHeld(Apply(w, m));
    match m {
      case Enter(_, _) =>
        NothingHeld(Apply(w, m).tasks[|w.tasks|]);
        ArrivalKeeps(w.osOwner, held);
        assert after == held + [{}];
      case TakeOs(i) =>
        var t := w.tasks[i];
        HeldNext(t);
        TakeKeeps(w.osOwner, held, i, t.keys[t.os]);
        assert after == held[i := held[i] + {t.keys[t.os]}];
      case DropOs(i) =>
        var t := w.tasks[i].(os := w.tasks[i].os - 1);
        HeldNext(t);
        assert w.tasks[i] == t.(os := t.os + 1);
        assert held[i] - {t.keys[t.os]} == OsHeld(t);
        DropKeeps(w.osOwner, held, i, t.keys[t.os]);
        assert after == held[i := held[i] - {t.keys[t.os]}];
      case _ =>
        SameLocals(w.tasks[m.i], Apply(w, m).tasks[m.i]);
        assert after == held;
    }
  }

  lemma NothingHeld(t: Task)
    ensures t.local == 0 ==> LocalHeld(t) == {}
    ensures t.os == 0 ==> OsHeld(t) == {}
  { }

  lemma SameLocals(s: Task, t: Task)
    requires s.keys == t.keys && s.loop == t.loop
    ensures s.local == t.local ==> LocalHeld(s) == LocalHeld(t)
    ensures s.os == t.os ==> OsHeld(s) == OsHeld(t)
  { }

  lemma InvKept(w: World, m: Move)
    requires Inv(w) && Enabled(w, m)
    ensures Inv(Apply(w, m))
  {
    LocalTableKept(w, m);
    OsTableKept(w, m);
  }

  ghost predicate Run(w: World, moves: seq<Move>, end: World)
    decreases |moves|
  {
    if moves == [] then end == w
    else Enabled(w, moves[0]) && Run(Apply(w, moves[0]), moves[1..], end)
  }

  lemma {:induction false} RunKeeps(w: World, moves: seq<Move>, end: World)
    requires Inv(w) && Run(w, moves, end)
    ensures Inv(end)
    decreases |moves|
  {
    if moves != [] {
      InvKept(w, moves[0]);
      RunKeeps(Apply(w, moves[0]), moves[1..], end);
    }
  }

  ghost predicate Reachable(w: World) { exists moves :: Run(EMPTY, moves, w) }

  lemma ReachableInv(w: World)
    requires Reachable(w)
    ensures Inv(w)
  {
    var moves :| Run(EMPTY, moves, w);
    RunKeeps(EMPTY, moves, w);
  }

  /** No lock file is ever held by two tasks, nor an in-process lock by two tasks of one loop;
      so two tasks inside their protected bodies have no key in common. */
  lemma NoKeyHeldTwice(w: World, i: nat, j: nat)
    requires Reachable(w) && i < |w.tasks| && j < |w.tasks| && i != j
    ensures OsHeld(w.tasks[i]) !! OsHeld(w.tasks[j])
    ensures LocalHeld(w.tasks[i]) !! LocalHeld(w.tasks[j])
    ensures Inside(w.tasks[i]) && Inside(w.tasks[j]) ==>
              forall k :: k in w.tasks[i].keys ==> k !in w.tasks[j].keys
  {
    ReachableInv(w);
    var locals, files := AllLocalHeld(w), AllOsHeld(w);
    HoldersDiffer(w.localOwner, locals, i, j);
    HoldersDiffer(w.osOwner, files, i, j);
    if Inside(w.tasks[i]) && Inside(w.tasks[j]) {
      assert forall k :: k in w.tasks[i].keys ==> k in OsHeld(w.tasks[i]);
      assert forall k :: k in w.tasks[j].keys ==> k in OsHeld(w.tasks[j]);
    }
  }

  // ---------------------------------------------------------------- no deadlock

  predicate Unfinished(w: World, i: nat) { i < |w.tasks| && !Finished(w.tasks[i]) }

  /** What an unfinished task does next when nothing fails. */
  function NextMove(t: Task, i: nat): Move {
    if WaitsLocal(t) then TakeLocal(i)
    else if WaitsOs(t) then TakeOs(i)
    else if !t.leaving then Leave(i)
    else if t.os > 0 then DropOs(i)
    else DropLocal(i)
  }

  ghost predicate CanStep(w: World, i: nat) { Unfinished(w, i) && Enabled(w, NextMove(w.tasks[i], i)) }

  /** The key that a waiting task waits for. */
  function Wanted(t: Task): Key
    requires WaitsLocal(t) || WaitsOs(t)
  {
    if WaitsLocal(t) then t.keys[t.local] else t.keys[t.os]
  }

  predicate Waits(w: World, i: nat) { i < |w.tasks| && (WaitsLocal(w.tasks[i]) || WaitsOs(w.tasks[i])) }

  /** Among waiting tasks, one wants a key that is not below any other wanted key. */
  lemma {:induction false} HighestWant(w: World, s: set<nat>) returns (top: nat)
    requires s != {} && forall i: nat :: i in s ==> Waits(w, i)
    ensures top in s && Waits(w, top)
    ensures forall i: nat :: i in s ==> Waits(w, i) && !Less(Wanted(w.tasks[top]), Wanted(w.tasks[i]))
  {
    var x :| x in s;
    var rest := s - {x};
    LessTotal(Wanted(w.tasks[x]), Wanted(w.tasks[x]));
    if rest == {} {
      assert s == {x};
      return x;
    }
    var high := HighestWant(w, rest);
    LessTotal(Wanted(w.tasks[x]), Wanted(w.tasks[high]));
    if Less(Wanted(w.tasks[high]), Wanted(w.tasks[x])) {
      forall i: nat | i in rest ensures !Less(Wanted(w.tasks[x]), Wanted(w.tasks[i])) {
        if Less(Wanted(w.tasks[x]), Wanted(w.tasks[i])) {
          LessTransitive(Wanted(w.tasks[high]), Wanted(w.tasks[x]), Wanted(w.tasks[i]));
        }
      }
      assert forall i: nat :: i in s ==> i == x || i in rest;
      return x;
    }
    assert forall i: nat :: i in s ==> i == x || i in rest;
    return high;
  }

  /** Keys are taken in ascending order, so what a task holds is below what it waits for. */
  lemma HeldBelowWanted(t: Task, k: Key)
    requires Shape(t)
    ensures WaitsOs(t) && k in OsHeld(t) ==> Less(k, Wanted(t))
    ensures WaitsLocal(t) && (t.loop, k) in LocalHeld(t) ==> Less(k, Wanted(t))
  { }

  /** Whoever waits for the highest wanted lock file can take it, or its holder can move on. */
  lemma OsWaitersProgress(w: World, s: set<nat>) returns (who: nat)
    requires Inv(w) && s != {}
    requires forall i: nat :: i in s <==> i < |w.tasks| && WaitsOs(w.tasks[i])
    ensures CanStep(w, who)
  {
    var top := HighestWant(w, s);
    var k := Wanted(w.tasks[top]);
    if k !in w.osOwner {
      return top;
    }
    who := w.osOwner[k];
    var t := w.tasks[who];
    assert AllOsHeld(w)[who] == OsHeld(t);
    HeldBelowWanted(t, k);
    assert WaitsOs(t) ==> who in s;
  }

  /** The same for in-process locks, once no task waits for a lock file. */
  lemma LocalWaitersProgress(w: World, s: set<nat>) returns (who: nat)
    requires Inv(w) && s != {}
    requires forall i: nat :: i in s <==> i < |w.tasks| && WaitsLocal(w.tasks[i])
    requires forall i :: 0 <= i < |w.tasks| ==> !WaitsOs(w.tasks[i])
    ensures CanStep(w, who)
  {
    var top := HighestWant(w, s);
    var t := w.tasks[top];
    if NextLocal(t) !in w.localOwner {
      return top;
    }
    who := w.localOwner[NextLocal(t)];
    var owner := w.tasks[who];
    assert AllLocalHeld(w)[who] == LocalHeld(owner);
    HeldBelowWanted(owner, Wanted(t));
    assert WaitsLocal(owner) ==> who in s;
  }

  /** In every reachable state with an unfinished task, some unfinished task can move on without
      any failure or cancellation. */
  lemma NoDeadlock(w: World)
    requires Reachable(w) && exists i: nat :: Unfinished(w, i)
    ensures exists i: nat :: CanStep(w, i)
  {
    ReachableInv(w);
    SomeoneSteps(w);
  }

  lemma SomeoneSteps(w: World)
    requires Inv(w) && exists i: nat :: Unfinished(w, i)
    ensures exists i: nat :: CanStep(w, i)
  {
    var i: nat :| Unfinished(w, i);
    var forFiles := set j: nat | j < |w.tasks| && WaitsOs(w.tasks[j]);
    var forLocals := set j: nat | j < |w.tasks| && WaitsLocal(w.tasks[j]);
    if forFiles != {} {
      var who := OsWaitersProgress(w, forFiles);
    } else if forLocals != {} {
      assert forall j :: 0 <= j < |w.tasks| && WaitsOs(w.tasks[j]) ==> j in forFiles;
      var who := LocalWaitersProgress(w, forLocals);
    } else {
      assert !WaitsOs(w.tasks[i]) by { assert WaitsOs(w.tasks[i]) ==> i in forFiles; }
      assert !WaitsLocal(w.tasks[i]) by { assert WaitsLocal(w.tasks[i]) ==> i in forLocals; }
      assert CanStep(w, i);
    }
  }

  // ---------------------------------------------------------------- everyone finishes

  /** How many moves a task has left at most. */
  function Work(t: Task): int { if t.leaving then t.local + t.os else 4 * |t.keys| + 1 - t.local - t.os }

  function TotalWork(tasks: seq<Task>): int {
    if tasks == [] then 0 else Work(tasks[0]) + TotalWork(tasks[1..])
  }

  lemma {:induction false} WorkAfterUpdate(tasks: seq<Task>, i: nat, t: Task)
    requires i < |tasks|
    ensures TotalWork(tasks[i := t]) == TotalWork(tasks) - Work(tasks[i]) + Work(t)
  {
    if i == 0 {
      assert tasks[i := t][1..] == tasks[1..];
    } else {
      assert tasks[i := t][1..] == tasks[1..][i - 1 := t];
      WorkAfterUpdate(tasks[1..], i - 1, t);
    }
  }

  lemma {:induction false} WorkNatural(tasks: seq<Task>)
    requires forall i :: 0 <= i < |tasks| ==> Shape(tasks[i])
    ensures TotalWork(tasks) >= 0
    ensures TotalWork(tasks) == 0 ==> forall i :: 0 <= i < |tasks| ==> Finished(tasks[i])
  {
    if tasks != [] {
      WorkNatural(tasks[1..]);
      assert forall i :: 1 <= i < |tasks| ==> tasks[i] == tasks[1..][i - 1];
    }
  }

  /** Every move but a new arrival, failures included, leaves less work. */
  lemma WorkDecreases(w: World, m: Move)
    requires Inv(w) && Enabled(w, m) && !m.Enter?
    ensures TotalWork(Apply(w, m).tasks) < TotalWork(w.tasks)
  {
    assert Shape(w.tasks[m.i]);
    WorkAfterUpdate(w.tasks, m.i, Apply(w, m).tasks[m.i]);
  }

  /** Without new arrivals, no run is longer than the work left: nobody waits for ever as long as
      someone moves. */
  lemma {:induction false} RunsAreBounded(w: World, moves: seq<Move>, end: World)
    requires Inv(w) && Run(w, moves, end) && forall m :: m in moves ==> !m.Enter?
    ensures |moves| + TotalWork(end.tasks) <= TotalWork(w.tasks)
    ensures 0 <= TotalWork(end.tasks)
    decreases |moves|
  {
    if moves == [] {
      WorkNatural(w.tasks);
    } else {
      var next := Apply(w, moves[0]);
      InvKept(w, moves[0]);
      WorkDecreases(w, moves[0]);
      RunsAreBounded(next, moves[1..], end);
    }
  }

  /** A run that nobody can continue has every task finished and every lock free, whatever failed
      on the way; and from a reachable state it is reached within `TotalWork` moves. */
  lemma StuckMeansDone(w: World, moves: seq<Move>, end: World)
    requires Reachable(w) && Run(w, moves, end) && forall m :: m in moves ==> !m.Enter?
    requires forall i: nat :: !CanStep(end, i)
    ensures |moves| <= TotalWork(w.tasks)
    ensures forall i: nat :: !Unfinished(end, i)
    ensures end.localOwner == map[] && end.osOwner == map[]
  {
    ReachableInv(w);
    RunKeeps(w, moves, end);
    RunsAreBounded(w, moves, end);
    if exists i: nat :: Unfinished(end, i) {
      SomeoneSteps(end);
    }
    AllFreeWhenDone(end);
  }

  lemma OwnersAreUnfinished(w: World)
    requires Inv(w)
    ensures forall lock :: lock in w.localOwner ==> Unfinished(w, w.localOwner[lock])
    ensures forall k :: k in w.osOwner ==> Unfinished(w, w.osOwner[k])
  { }

  lemma AllFreeWhenDone(w: World)
    requires Inv(w) && forall i: nat :: !Unfinished(w, i)
    ensures w.localOwner == map[] && w.osOwner == map[]
  {
    OwnersAreUnfinished(w);
    assert w.localOwner.Keys == {} && w.osOwner.Keys == {};
  }
}
