/** One task going through `observer_ownership`, while the rest of the system does as it likes
    with every lock that the task does not hold. */
module OwnershipScope {
  import opened KeyOrder

  type TaskId = nat

  /** What the task finds when it resumes after a suspension: the locks of the others, and whether
      it was cancelled or the operating system refused it. */
  datatype Turn = Turn(localOwner: map<Key, TaskId>, osOwner: map<Key, TaskId>, failed: bool)

  datatype Event =
    | TookLocal(key: Key)
    | TookFile(key: Key)
    | Ran(locals: set<Key>, files: set<Key>)
    | GaveFile(key: Key)
    | GaveLocal(key: Key)

  function OwnedBy(owner: map<Key, TaskId>, me: TaskId): set<Key> { set k | k in owner && owner[k] == me }

  /** The others' table, where it does not touch what the task holds or claim to speak for it. */
  function Around(owner: map<Key, TaskId>, theirs: map<Key, TaskId>, me: TaskId): (after: map<Key, TaskId>)
    ensures OwnedBy(after, me) == OwnedBy(owner, me)
  {
    map k | k in theirs.Keys + OwnedBy(owner, me) && (k in OwnedBy(owner, me) || theirs[k] != me)
      :: if k in OwnedBy(owner, me) then me else theirs[k]
  }

  /** `_ownership_keys`: the keys of the observers and the extra ones. */
  function OwnershipKeys(observers: seq<set<Key>>, extra: set<Key>): set<Key> {
    extra + set i, k | 0 <= i < |observers| && k in observers[i] :: k
  }

  /** A scope asks for a key exactly when an observer, or the caller, names it. */
  lemma KeysAreNamed(observers: seq<set<Key>>, extra: set<Key>, k: Key)
    ensures k in OwnershipKeys(observers, extra) <==>
              k in extra || exists i :: 0 <= i < |observers| && k in observers[i]
  { }

  /** In this turn the task gets the lock: it is not cut off, and nobody else has it. */
  predicate GrantsLocal(t: Turn, key: Key, me: TaskId) {
    !t.failed && (key in t.localOwner ==> t.localOwner[key] == me)
  }

  predicate GrantsFile(t: Turn, key: Key, me: TaskId) {
    !t.failed && (key in t.osOwner ==> t.osOwner[key] == me)
  }

  /** The turns from `from` on grant the first `n` keys, and not the next one if there is one. */
  ghost predicate GotLocals(script: nat -> Turn, from: nat, keys: seq<Key>, n: nat, me: TaskId)
    requires n <= |keys|
  {
    forall j: nat :: j < n ==> GrantsLocal(script(from + j), keys[j], me)
  }

  ghost predicate LocalsUpTo(script: nat -> Turn, from: nat, keys: seq<Key>, n: nat, me: TaskId)
    requires n <= |keys|
  {
    && GotLocals(script, from, keys, n, me)
    && (n < |keys| ==> !GrantsLocal(script(from + n), keys[n], me))
  }

  ghost predicate GotFiles(script: nat -> Turn, from: nat, keys: seq<Key>, n: nat, me: TaskId)
    requires n <= |keys|
  {
    forall j: nat :: j < n ==> GrantsFile(script(from + j), keys[j], me)
  }

  ghost predicate FilesUpTo(script: nat -> Turn, from: nat, keys: seq<Key>, n: nat, me: TaskId)
    requires n <= |keys|
  {
    && GotFiles(script, from, keys, n, me)
    && (n < |keys| ==> !GrantsFile(script(from + n), keys[n], me))
  }

  lemma GotNone(script: nat -> Turn, from: nat, keys: seq<Key>, me: TaskId)
    ensures GotLocals(script, from, keys, 0, me) && GotFiles(script, from, keys, 0, me)
  { }

  lemma GotLocalsMore(script: nat -> Turn, from: nat, keys: seq<Key>, n: nat, me: TaskId)
    requires n < |keys| && GotLocals(script, from, keys, n, me)
    ensures GrantsLocal(script(from + n), keys[n], me) ==> GotLocals(script, from, keys, n + 1, me)
  { }

  lemma GotFilesMore(script: nat -> Turn, from: nat, keys: seq<Key>, n: nat, me: TaskId)
    requires n < |keys| && GotFiles(script, from, keys, n, me)
    ensures GrantsFile(script(from + n), keys[n], me) ==> GotFiles(script, from, keys, n + 1, me)
  { }

  function KeysOf(keys: seq<Key>): set<Key> { set k | k in keys }

  function Locals(keys: seq<Key>): seq<Event> { seq(|keys|, i requires 0 <= i < |keys| => TookLocal(keys[i])) }

  function Files(keys: seq<Key>): seq<Event> { seq(|keys|, i requires 0 <= i < |keys| => TookFile(keys[i])) }

  /** Releases in the opposite order. */
  function FilesBack(keys: seq<Key>): seq<Event> {
    seq(|keys|, i requires 0 <= i < |keys| => GaveFile(keys[|keys| - 1 - i]))
  }

  function LocalsBack(keys: seq<Key>): seq<Event> {
    seq(|keys|, i requires 0 <= i < |keys| => GaveLocal(keys[|keys| - 1 - i]))
  }

  /** Everything one visit does: locks taken in order, lock files taken in order, the body, and
      then both given back in the opposite order. */
  function Visit(locals: seq<Key>, files: seq<Key>, body: seq<Event>): seq<Event> {
    Locals(locals) + Files(files) + body + FilesBack(files) + LocalsBack(locals)
  }

  lemma OneMore(keys: seq<Key>, n: nat)
    requires n < |keys|
    ensures KeysOf(keys[..n + 1]) == KeysOf(keys[..n]) + {keys[n]}
    ensures Locals(keys[..n + 1]) == Locals(keys[..n]) + [TookLocal(keys[n])]
    ensures Files(keys[..n + 1]) == Files(keys[..n]) + [TookFile(keys[n])]
    ensures FilesBack(keys[..n + 1]) == [GaveFile(keys[n])] + FilesBack(keys[..n])
    ensures LocalsBack(keys[..n + 1]) == [GaveLocal(keys[n])] + LocalsBack(keys[..n])
  {
    assert keys[..n + 1] == keys[..n] + [keys[n]];
  }

  lemma NoneYet(keys: seq<Key>)
    ensures KeysOf(keys[..0]) == {} && Locals(keys[..0]) == [] && Files(keys[..0]) == []
    ensures FilesBack(keys[..0]) == [] && LocalsBack(keys[..0]) == []
  { }

  class LockTables {
    /** The in-process locks of this task's event loop, and the lock files of the machine. */
    var localOwner: map<Key, TaskId>
    var osOwner: map<Key, TaskId>
    var clock: nat
    const script: nat -> Turn
    ghost var log: seq<Event>

    constructor (script: nat -> Turn)
      ensures this.script == script && localOwner == map[] && osOwner == map[] && log == []
    {
      this.script := script;
      localOwner, osOwner, clock, log := map[], map[], 0, [];
    }

    /** The others run. They can change anything but the locks of this task. */
    method Await(me: TaskId) returns (failed: bool)
      modifies this
      ensures OwnedBy(localOwner, me) == old(OwnedBy(localOwner, me))
      ensures OwnedBy(osOwner, me) == old(OwnedBy(osOwner, me))
      ensures log == old(log) && clock == old(clock) + 1 && failed == script(old(clock)).failed
      ensures localOwner == Around(old(localOwner), script(old(clock)).localOwner, me)
      ensures osOwner == Around(old(osOwner), script(old(clock)).osOwner, me)
    {
      var turn := script(clock);
      localOwner := Around(localOwner, turn.localOwner, me);
      osOwner := Around(osOwner, turn.osOwner, me);
      clock := clock + 1;
      return turn.failed;
    }

    /** `await lock.acquire()`: it returns with the lock, or is cancelled while waiting. */
    method AcquireLocal(me: TaskId, key: Key) returns (ok: bool)
      modifies this
      ensures OwnedBy(localOwner, me) == old(OwnedBy(localOwner, me)) + if ok then {key} else {}
      ensures OwnedBy(osOwner, me) == old(OwnedBy(osOwner, me))
      ensures ok ==> key !in old(OwnedBy(localOwner, me))
      ensures log == old(log) + if ok then [TookLocal(key)] else []
      ensures clock == old(clock) + 1
      ensures ok <==> key !in old(OwnedBy(localOwner, me)) && GrantsLocal(script(old(clock)), key, me)
    {
      var failed := Await(me);
      if failed || key in localOwner {
        return false;
      }
      localOwner := localOwner[key := me];
      log := log + [TookLocal(key)];
      return true;
    }

    /** `_acquire_os_lock`: polls the lock file until it gets it, or fails on the way. */
    method AcquireFile(me: TaskId, key: Key) returns (ok: bool)
      modifies this
      ensures OwnedBy(osOwner, me) == old(OwnedBy(osOwner, me)) + if ok then {key} else {}
      ensures OwnedBy(localOwner, me) == old(OwnedBy(localOwner, me))
      ensures ok ==> key !in old(OwnedBy(osOwner, me))
      ensures log == old(log) + if ok then [TookFile(key)] else []
      ensures clock == old(clock) + 1
      ensures ok <==> key !in old(OwnedBy(osOwner, me)) && GrantsFile(script(old(clock)), key, me)
    {
      var failed := Await(me);
      if failed || key in osOwner {
        return false;
      }
      osOwner := osOwner[key := me];
      log := log + [TookFile(key)];
      return true;
    }

    /** The first acquisition loop: the in-process locks, up to the first failure. */
    method AcquireLocals(me: TaskId, missing: seq<Key>) returns (n: nat)
      requires Ascending(missing) && OwnedBy(localOwner, me) !! KeysOf(missing)
      modifies this
      ensures n <= |missing|
      ensures OwnedBy(localOwner, me) == old(OwnedBy(localOwner, me)) + KeysOf(missing[..n])
      ensures old(OwnedBy(localOwner, me)) !! KeysOf(missing[..n])
      ensures OwnedBy(osOwner, me) == old(OwnedBy(osOwner, me))
      ensures log == old(log) + Locals(missing[..n])
      ensures LocalsUpTo(script, old(clock), missing, n, me) && (n == |missing| ==> clock == old(clock) + n)
    {
      hide OwnedBy, KeysOf, Locals, GrantsLocal, Ascending, GotLocals;
      GotNone(script, clock, missing, me);
      NoneYet(missing);
      n := 0;
      while n < |missing|
        invariant n <= |missing|
        invariant OwnedBy(localOwner, me) == old(OwnedBy(localOwner, me)) + KeysOf(missing[..n])
        invariant old(OwnedBy(localOwner, me)) !! KeysOf(missing[..n])
        invariant OwnedBy(osOwner, me) == old(OwnedBy(osOwner, me))
        invariant log == old(log) + Locals(missing[..n]) && clock == old(clock) + n
        invariant GotLocals(script, old(clock), missing, n, me)
      {
        NotTaken(missing, old(OwnedBy(localOwner, me)), n);
        GotLocalsMore(script, old(clock), missing, n, me);
        var ok := AcquireLocal(me, missing[n]);
        if !ok {
          return;
        }
        OneMore(missing, n);
        n := n + 1;
      }
    }

    /** The second acquisition loop: the lock files, up to the first failure. */
    method AcquireFiles(me: TaskId, missing: seq<Key>) returns (n: nat)
      requires Ascending(missing) && OwnedBy(osOwner, me) !! KeysOf(missing)
      modifies this
      ensures n <= |missing|
      ensures OwnedBy(osOwner, me) == old(OwnedBy(osOwner, me)) + KeysOf(missing[..n])
      ensures old(OwnedBy(osOwner, me)) !! KeysOf(missing[..n])
      ensures OwnedBy(localOwner, me) == old(OwnedBy(localOwner, me))
      ensures log == old(log) + Files(missing[..n])
      ensures FilesUpTo(script, old(clock), missing, n, me) && (n == |missing| ==> clock == old(clock) + n)
    {
      hide OwnedBy, KeysOf, Files, GrantsFile, Ascending, GotFiles;
      GotNone(script, clock, missing, me);
      NoneYet(missing);
      n := 0;
      while n < |missing|
        invariant n <= |missing|
        invariant OwnedBy(osOwner, me) == old(OwnedBy(osOwner, me)) + KeysOf(missing[..n])
        invariant old(OwnedBy(osOwner, me)) !! KeysOf(missing[..n])
        invariant OwnedBy(localOwner, me) == old(OwnedBy(localOwner, me))
        invariant log == old(log) + Files(missing[..n]) && clock == old(clock) + n
        invariant GotFiles(script, old(clock), missing, n, me)
      {
        NotTaken(missing, old(OwnedBy(osOwner, me)), n);
        GotFilesMore(script, old(clock), missing, n, me);
        var ok := AcquireFile(me, missing[n]);
        if !ok {
          return;
        }
        OneMore(missing, n);
        n := n + 1;
      }
    }

    /** `for fd in reversed(file_descriptors)`. */
    method ReleaseFiles(me: TaskId, taken: seq<Key>, ghost before: set<Key>)
      requires OwnedBy(osOwner, me) == before + KeysOf(taken) && before !! KeysOf(taken) && Ascending(taken)
      modifies this
      ensures OwnedBy(osOwner, me) == before
      ensures OwnedBy(localOwner, me) == old(OwnedBy(localOwner, me))
      ensures log == old(log) + FilesBack(taken)
    {
      hide Ascending, FilesBack;
      var n := |taken|;
      assert taken[..n] == taken;
      ghost var done: seq<Event> := [];
      while n > 0
        invariant 0 <= n <= |taken|
        invariant OwnedBy(osOwner, me) == before + KeysOf(taken[..n])
        invariant OwnedBy(localOwner, me) == old(OwnedBy(localOwner, me))
        invariant log == old(log) + done && done + FilesBack(taken[..n]) == FilesBack(taken)
      {
        OneMore(taken, n - 1);
        NotEarlier(taken, n - 1);
        osOwner := osOwner - {taken[n - 1]};
        log := log + [GaveFile(taken[n - 1])];
        done := done + [GaveFile(taken[n - 1])];
        n := n - 1;
      }
      NoneYet(taken);
    }

    /** `for lock in reversed(local)`. */
    method ReleaseLocals(me: TaskId, taken: seq<Key>, ghost before: set<Key>)
      requires OwnedBy(localOwner, me) == before + KeysOf(taken) && before !! KeysOf(taken) && Ascending(taken)
      modifies this
      ensures OwnedBy(localOwner, me) == before
      ensures OwnedBy(osOwner, me) == old(OwnedBy(osOwner, me))
      ensures log == old(log) + LocalsBack(taken)
    {
      hide Ascending, LocalsBack;
      var n := |taken|;
      assert taken[..n] == taken;
      ghost var done: seq<Event> := [];
      while n > 0
        invariant 0 <= n <= |taken|
        invariant OwnedBy(localOwner, me) == before + KeysOf(taken[..n])
        invariant OwnedBy(osOwner, me) == old(OwnedBy(osOwner, me))
        invariant log == old(log) + done && done + LocalsBack(taken[..n]) == LocalsBack(taken)
      {
        OneMore(taken, n - 1);
        NotEarlier(taken, n - 1);
        localOwner := localOwner - {taken[n - 1]};
        log := log + [GaveLocal(taken[n - 1])];
        done := done + [GaveLocal(taken[n - 1])];
        n := n - 1;
      }
      NoneYet(taken);
    }

    /** The part of a visit up to its release: both acquisition loops and, if they get through, the
        protected body. */
    method TakeAndRun(me: TaskId, missing: seq<Key>, requested: set<Key>, held: set<Key>)
      returns (entered: bool, locals: nat, files: nat)
      requires missing == Sorted(requested - held)
      requires OwnedBy(localOwner, me) == held && OwnedBy(osOwner, me) == held
      modifies this
      ensures files <= locals <= |missing| && (files > 0 ==> locals == |missing|)
      ensures entered <==> files == |missing|
      ensures OwnedBy(localOwner, me) == held + KeysOf(missing[..locals]) && held !! KeysOf(missing[..locals])
      ensures OwnedBy(osOwner, me) == held + KeysOf(missing[..files]) && held !! KeysOf(missing[..files])
      ensures log == old(log) + Locals(missing[..locals]) + Files(missing[..files])
                     + if entered then [Ran(held + requested, held + requested)] else []
      ensures LocalsUpTo(script, old(clock), missing, locals, me)
      ensures locals == |missing| ==> FilesUpTo(script, old(clock) + |missing|, missing, files, me)
    {
      MissingApart(requested, held);
      hide OwnedBy, KeysOf, Locals, Files, Ascending, Sorted, LocalsUpTo, FilesUpTo;
      files, entered := 0, false;
      locals := AcquireLocals(me, missing);
      NoneYet(missing);
      if locals == |missing| {
        files := AcquireFiles(me, missing);
        entered := files == |missing|;
      }
      if entered {
        EverythingHeld(requested, held);
        assert missing[..|missing|] == missing;
        log := log + [Ran(OwnedBy(localOwner, me), OwnedBy(osOwner, me))];
        var failed := Await(me);
      }
    }

    /** `observer_ownership`, called by a task that holds exactly the keys of its enclosing scopes.
        However far it gets, it leaves the task holding exactly those again. If it gets to the
        body, the body runs with both kinds of lock on every requested key. It gets as far as the turns
        grant it the missing keys, first the locks and then the files, and no turn is wasted. A scope
        whose keys are all held already touches no lock. */
    method ObserverOwnership(me: TaskId, requested: set<Key>, held: set<Key>)
      returns (entered: bool, locals: nat, files: nat)
      requires OwnedBy(localOwner, me) == held && OwnedBy(osOwner, me) == held
      modifies this
      ensures OwnedBy(localOwner, me) == held && OwnedBy(osOwner, me) == held
      ensures var missing := Sorted(requested - held);
              && files <= locals <= |missing| && (files > 0 ==> locals == |missing|)
              && (entered <==> files == |missing|)
              && log == old(log) + Visit(missing[..locals], missing[..files],
                                         if entered then [Ran(held + requested, held + requested)] else [])
      ensures var missing := Sorted(requested - held);
              && LocalsUpTo(script, old(clock), missing, locals, me)
              && (locals == |missing| ==> FilesUpTo(script, old(clock) + |missing|, missing, files, me))
      ensures requested <= held ==> entered && log == old(log) + [Ran(held, held)]
    {
      hide OwnedBy, KeysOf, Locals, Files, FilesBack, LocalsBack, Ascending, Sorted, LocalsUpTo, FilesUpTo;
      var missing := Sorted(requested - held);
      NothingMissing(requested, held);
      entered, locals, files := TakeAndRun(me, missing, requested, held);
      PrefixAscending(missing, locals);
      PrefixAscending(missing, files);
      ReleaseFiles(me, missing[..files], held);
      ReleaseLocals(me, missing[..locals], held);
    }

    /** The scopes that the engine and the baseline capture open around one check, over the same
        observers as their own scope, which also took the target key: whatever the others do, the
        check runs at once with everything held, and no lock is touched. */
    method NestedOwnership(me: TaskId, observers: seq<set<Key>>, target: Key, ghost outer: set<Key>, held: set<Key>)
      requires held == outer + OwnershipKeys(observers, {target})
      requires OwnedBy(localOwner, me) == held && OwnedBy(osOwner, me) == held
      modifies this
      ensures OwnedBy(localOwner, me) == held && OwnedBy(osOwner, me) == held
      ensures log == old(log) + [Ran(held, held)]
    {
      NestedScopeTakesNothing(observers, target, outer);
      var entered, locals, files := ObserverOwnership(me, OwnershipKeys(observers, {}), held);
    }
  }

  lemma NotEarlier(keys: seq<Key>, n: nat)
    requires Ascending(keys) && n < |keys|
    ensures keys[n] !in KeysOf(keys[..n])
  {
    forall i | 0 <= i < n ensures keys[i] != keys[n] {
      LessTotal(keys[i], keys[n]);
    }
  }

  lemma PrefixAscending(keys: seq<Key>, n: nat)
    requires Ascending(keys) && n <= |keys|
    ensures Ascending(keys[..n])
  { }

  lemma NothingMissing(requested: set<Key>, held: set<Key>)
    ensures requested <= held ==> Sorted(requested - held) == [] && held + requested == held
    ensures Visit([], [], [Ran(held, held)]) == [Ran(held, held)]
  {
    assert requested <= held ==> requested - held == {};
  }

  lemma NotTaken(keys: seq<Key>, own: set<Key>, n: nat)
    requires Ascending(keys) && own !! KeysOf(keys) && n < |keys|
    ensures keys[n] !in own + KeysOf(keys[..n])
  {
    NotEarlier(keys, n);
    assert keys[n] in KeysOf(keys);
    hide KeysOf;
  }

  lemma MissingApart(requested: set<Key>, held: set<Key>)
    ensures Ascending(Sorted(requested - held)) && held !! KeysOf(Sorted(requested - held))
  { }

  lemma EverythingHeld(requested: set<Key>, held: set<Key>)
    ensures held + KeysOf(Sorted(requested - held)) == held + requested
  { }

  /** The keys of the observers alone are among those that a scope with the target key holds. */
  lemma NestedScopeTakesNothing(observers: seq<set<Key>>, target: Key, outer: set<Key>)
    ensures OwnershipKeys(observers, {}) <= outer + OwnershipKeys(observers, {target})
    ensures Sorted(OwnershipKeys(observers, {}) - (outer + OwnershipKeys(observers, {target}))) == []
  { }
}
