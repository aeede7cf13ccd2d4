/** Registration of archive members in a collision table, and the extraction that follows it. */
module ArchiveTree {
  import opened Options
  import opened ArchivePaths

  type Byte = bv8

  datatype Kind = FILE | DIR

  /** One archive member: its clean path, its kind and the size its header declares. */
  datatype Member = Member(path: Path, kind: Kind, size: nat)

  datatype Refusal = DuplicateName | Collision

  /** Two members that cannot both be extracted: the same name, or a file above the other. */
  predicate Clash(m: Member, n: Member) {
    || m.path == n.path
    || (m.kind == FILE && ProperPrefix(m.path, n.path))
    || (n.kind == FILE && ProperPrefix(n.path, m.path))
  }

  predicate AllClean(ms: seq<Member>) { forall i :: 0 <= i < |ms| ==> Clean(ms[i].path) }

  predicate ClashFree(ms: seq<Member>) {
    forall i, j :: 0 <= i < j < |ms| ==> !Clash(ms[i], ms[j])
  }

  // ---------------------------------------------------------------- the collision table

  /** The table after registering these members: their joined names, each with its kind. */
  ghost predicate TableOf(seen: map<string, Kind>, ms: seq<Member>) {
    && (forall i :: 0 <= i < |ms| ==> Join(ms[i].path) in seen && seen[Join(ms[i].path)] == ms[i].kind)
    && (forall name :: name in seen ==> exists i :: 0 <= i < |ms| && Join(ms[i].path) == name)
  }

  predicate FileAt(seen: map<string, Kind>, name: string) { name in seen && seen[name] == FILE }

  ghost predicate Admissible(seen: map<string, Kind>, name: string, kind: Kind) {
    && name !in seen
    && (forall k :: 0 < k < |Split(name)| ==> !FileAt(seen, Join(Split(name)[..k])))
    && (kind == FILE ==> forall existing :: existing in seen ==> !(name + ['/'] <= existing))
  }

  /** `_register_archive_path`: refuses a name already seen, a name below a file, and a file
      above a name already seen; otherwise enters the name. The comparisons are on strings. */
  method RegisterArchivePath(name: string, kind: Kind, seen: map<string, Kind>)
    returns (refusal: Option<Refusal>, after: map<string, Kind>)
    ensures refusal == Some(DuplicateName) <==> name in seen
    ensures refusal.None? <==> Admissible(seen, name, kind)
    ensures after == if refusal.None? then seen[name := kind] else seen
  {
    if name in seen {
      return Some(DuplicateName), seen;
    }
    var parts := Split(name);
    for k := 1 to |parts|
      invariant forall j :: 0 < j < k ==> !FileAt(seen, Join(parts[..j]))
    {
      var parent := Join(parts[..k]);
      if FileAt(seen, parent) {
        return Some(Collision), seen;
      }
    }
    if kind == FILE && exists existing :: existing in seen && name + ['/'] <= existing {
      return Some(Collision), seen;
    }
    return None, seen[name := kind];
  }

  lemma JoinInjective(p: Path, q: Path)
    requires Clean(p) && Clean(q) && Join(p) == Join(q)
    ensures p == q
  {
    SplitJoin(p);
    SplitJoin(q);
  }

  predicate ClearOf(ms: seq<Member>, m: Member) { forall i :: 0 <= i < |ms| ==> !Clash(ms[i], m) }

  lemma ClearMeansAdmissible(seen: map<string, Kind>, ms: seq<Member>, m: Member)
    requires AllClean(ms) && Clean(m.path) && TableOf(seen, ms) && ClearOf(ms, m)
    ensures Admissible(seen, Join(m.path), m.kind)
  {
    SplitJoin(m.path);
    if Join(m.path) in seen {
      var i :| 0 <= i < |ms| && Join(ms[i].path) == Join(m.path);
      JoinInjective(ms[i].path, m.path);
    }
    forall k | 0 < k < |m.path| ensures !FileAt(seen, Join(m.path[..k])) {
      if FileAt(seen, Join(m.path[..k])) {
        var i :| 0 <= i < |ms| && Join(ms[i].path) == Join(m.path[..k]);
        JoinInjective(ms[i].path, m.path[..k]);
      }
    }
    forall existing | existing in seen && m.kind == FILE ensures !(Join(m.path) + ['/'] <= existing) {
      var i :| 0 <= i < |ms| && Join(ms[i].path) == existing;
      StringPrefixIsPathPrefix(m.path, ms[i].path);
    }
  }

  lemma AdmissibleMeansClear(seen: map<string, Kind>, ms: seq<Member>, m: Member, i: nat)
    requires AllClean(ms) && Clean(m.path) && TableOf(seen, ms) && i < |ms|
    requires Admissible(seen, Join(m.path), m.kind)
    ensures !Clash(ms[i], m)
  {
    SplitJoin(m.path);
    assert Join(ms[i].path) in seen;
    StringPrefixIsPathPrefix(m.path, ms[i].path);
    if ProperPrefix(ms[i].path, m.path) {
      assert m.path[..|ms[i].path|] == ms[i].path;
      assert !FileAt(seen, Join(m.path[..|ms[i].path|]));
    }
  }

  /** The string tests of one registration decide exactly the clashes with what was registered. */
  lemma RegistrationTests(seen: map<string, Kind>, ms: seq<Member>, m: Member)
    requires AllClean(ms) && Clean(m.path) && TableOf(seen, ms)
    ensures Admissible(seen, Join(m.path), m.kind) <==> ClearOf(ms, m)
  {
    hide Admissible, Clash, TableOf, AllClean;
    if ClearOf(ms, m) {
      ClearMeansAdmissible(seen, ms, m);
    } else if Admissible(seen, Join(m.path), m.kind) {
      var i :| 0 <= i < |ms| && Clash(ms[i], m);
      AdmissibleMeansClear(seen, ms, m, i);
    }
  }

  lemma TableGrows(seen: map<string, Kind>, ms: seq<Member>, m: Member)
    requires TableOf(seen, ms) && Join(m.path) !in seen
    ensures TableOf(seen[Join(m.path) := m.kind], ms + [m])
  {
    var now, all := seen[Join(m.path) := m.kind], ms + [m];
    forall name | name in now ensures exists i :: 0 <= i < |all| && Join(all[i].path) == name {
      if name == Join(m.path) {
        assert Join(all[|ms|].path) == name;
      } else {
        var i :| 0 <= i < |ms| && Join(ms[i].path) == name;
        assert all[i] == ms[i];
      }
    }
  }

  lemma ClashFreeGrows(ms: seq<Member>, m: Member)
    ensures ClashFree(ms + [m]) <==> ClashFree(ms) && ClearOf(ms, m)
  {
    hide Clash;
    var all := ms + [m];
    assert forall i :: 0 <= i < |ms| ==> all[i] == ms[i];
    assert all[|ms|] == m;
  }

  /** The registration loop of both extractors. It accepts exactly the member lists in which no
      two names are equal and no file lies above another member. */
  method RegisterAll(ms: seq<Member>) returns (ok: bool, seen: map<string, Kind>)
    requires AllClean(ms)
    ensures ok <==> ClashFree(ms)
    ensures ok ==> TableOf(seen, ms)
  {
    hide Clash, TableOf, Admissible, Clean;
    seen := map[];
    assert TableOf(seen, []) by { EmptyTable(); }
    assert ms[..0] == [];
    for n := 0 to |ms|
      invariant ClashFree(ms[..n]) && TableOf(seen, ms[..n])
    {
      assert ms[..n + 1] == ms[..n] + [ms[n]];
      RegistrationTests(seen, ms[..n], ms[n]);
      ClashFreeGrows(ms[..n], ms[n]);
      var refusal, after := RegisterArchivePath(Join(ms[n].path), ms[n].kind, seen);
      if refusal.Some? {
        assert !ClashFree(ms[..n + 1]);
        return false, seen;
      }
      TableGrows(seen, ms[..n], ms[n]);
      seen := after;
    }
    assert ms[..|ms|] == ms;
    return true, seen;
  }

  lemma EmptyTable()
    ensures TableOf(map[], [])
  { }

  /** A list is free of clashes when nothing occurs twice and nothing clashes with another. */
  ghost predicate PairwiseFree(ms: multiset<Member>) {
    && (forall m :: m in ms ==> ms[m] == 1)
    && (forall m, n :: m in ms && n in ms && m != n ==> !Clash(m, n))
  }

  lemma PairwiseGrows(ms: multiset<Member>, m: Member)
    ensures PairwiseFree(ms + multiset{m}) <==> PairwiseFree(ms) && forall n :: n in ms ==> !Clash(n, m)
  {
    var all := ms + multiset{m};
    assert Clash(m, m);
    assert forall n :: Clash(n, m) == Clash(m, n);
    hide Clash;
    assert forall n :: n in all <==> n in ms || n == m;
    assert forall n :: n in ms && n != m ==> all[n] == ms[n];
    if PairwiseFree(all) {
      assert all[m] == 1;
      assert m !in ms;
    }
  }

  lemma {:induction false} ClashFreeAsPairs(ms: seq<Member>)
    ensures ClashFree(ms) <==> PairwiseFree(multiset(ms))
  {
    if ms != [] {
      var front, last := ms[..|ms| - 1], ms[|ms| - 1];
      assert ms == front + [last];
      hide Clash, PairwiseFree, ClashFree;
      ClashFreeAsPairs(front);
      ClashFreeGrows(front, last);
      PairwiseGrows(multiset(front), last);
      assert multiset(ms) == multiset(front) + multiset{last};
    }
  }

  /** Acceptance does not depend on the order of the members in the archive. */
  lemma OrderIrrelevant(a: seq<Member>, b: seq<Member>)
    requires multiset(a) == multiset(b)
    ensures ClashFree(a) <==> ClashFree(b)
  {
    ClashFreeAsPairs(a);
    ClashFreeAsPairs(b);
  }

  // ---------------------------------------------------------------- copying one member

  /** What a member decompresses to, and how many bytes each successive read hands out. */
  datatype Source = Source(data: seq<Byte>, cut: nat -> nat)

  const READ_SIZE: nat := 65536

  function Min(a: nat, b: nat): nat { if a <= b then a else b }

  /** A read of `want > 0` bytes: at least one and at most `want`, and none only at the end. */
  function Read(source: Source, at: nat, turn: nat, want: nat): (chunk: seq<Byte>)
    requires at <= |source.data| && want > 0
    ensures at + |chunk| <= |source.data| && |chunk| <= want
    ensures chunk == source.data[at..at + |chunk|]
    ensures chunk == [] <==> at == |source.data|
  {
    var most := Min(want, |source.data| - at);
    var n := if source.cut(turn) == 0 then Min(1, most) else Min(source.cut(turn), most);
    source.data[at..at + n]
  }

  /** `_copy_limited`: succeeds exactly when the member has its declared size, and then the
      target holds all of it; the target never receives more than the declared size. */
  method CopyLimited(source: Source, expected: nat) returns (ok: bool, target: seq<Byte>)
    ensures ok <==> |source.data| == expected
    ensures ok ==> target == source.data
    ensures target <= source.data && |target| <= expected
  {
    target := [];
    var remaining, turn := expected, 0;
    while remaining != 0
      invariant remaining >= 0 && |target| + remaining == expected
      invariant target <= source.data
    {
      var chunk := Read(source, |target|, turn, Min(READ_SIZE, remaining));
      if chunk == [] {
        return false, target;
      }
      target := target + chunk;
      remaining := remaining - |chunk|;
      turn := turn + 1;
    }
    var extra := Read(source, |target|, turn, 1);
    return extra == [], target;
  }

  // ---------------------------------------------------------------- extraction

  datatype Node = Folder | Content(bytes: seq<Byte>)

  /** The staging tree: what every path in it holds, its root apart. */
  type Tree = map<Path, Node>

  predicate Above(p: Path, q: Path) { p != [] && (p == q || ProperPrefix(p, q)) }

  predicate BlockedAt(tree: Tree, p: Path) { p in tree && tree[p].Content? }

  /** `mkdir(parents=True, exist_ok=True)`: fails when a component on the way is a file. */
  method MakeDirs(tree: Tree, path: Path) returns (ok: bool, after: Tree)
    ensures ok <==> forall k :: 0 < k <= |path| ==> !BlockedAt(tree, path[..k])
    ensures ok ==> forall p :: p in after <==> p in tree || Above(p, path)
    ensures ok ==> forall p :: p in after ==> after[p] == if Above(p, path) then Folder else tree[p]
  {
    after := tree;
    for k := 1 to |path| + 1
      invariant forall j :: 0 < j < k ==> !BlockedAt(tree, path[..j])
      invariant forall p :: p in after <==> p in tree || Above(p, path[..k - 1])
      invariant forall p :: p in after ==> after[p] == if Above(p, path[..k - 1]) then Folder else tree[p]
    {
      AboveSteps(path, k);
      if BlockedAt(after, path[..k]) {
        assert BlockedAt(tree, path[..k]);
        return false, after;
      }
      after := after[path[..k] := Folder];
    }
    assert path[..|path|] == path;
    return true, after;
  }

  lemma AboveSteps(path: Path, k: nat)
    requires 0 < k <= |path|
    ensures forall p :: Above(p, path[..k]) <==> Above(p, path[..k - 1]) || p == path[..k]
    ensures !Above(path[..k], path[..k - 1])
  { }

  function NodeFor(m: Member, source: Source): Node { if m.kind == DIR then Folder else Content(source.data) }

  /** Everything above the member is a directory, and the member holds its own content. */
  ghost predicate Placed(tree: Tree, m: Member, source: Source) {
    forall p :: Above(p, m.path) ==> p in tree && tree[p] == if p == m.path then NodeFor(m, source) else Folder
  }

  ghost predicate Covered(p: Path, ms: seq<Member>, done: set<nat>) {
    exists i :: i in done && i < |ms| && Above(p, ms[i].path)
  }

  /** The tree holds exactly the members of `done` and the directories above them. */
  ghost predicate Unpacked(tree: Tree, ms: seq<Member>, sources: seq<Source>, done: set<nat>)
    requires |sources| == |ms|
  {
    && (forall p :: p in tree ==> Covered(p, ms, done))
    && (forall i :: i in done ==> i < |ms| && Placed(tree, ms[i], sources[i]))
  }

  /** Nothing already unpacked stands in the way of the next member. */
  lemma NothingInTheWay(tree: Tree, ms: seq<Member>, sources: seq<Source>, done: set<nat>, n: nat)
    requires |sources| == |ms| && ClashFree(ms) && n < |ms| && n !in done
    requires Unpacked(tree, ms, sources, done)
    ensures forall p :: Above(p, ms[n].path) ==> !BlockedAt(tree, p)
    ensures ms[n].kind == FILE ==> ms[n].path !in tree
  { }

  /** Making the directories of member `n` and then, for a file, creating it, unpacks it. */
  lemma MemberAdded(tree: Tree, after: Tree, ms: seq<Member>, sources: seq<Source>, done: set<nat>, n: nat)
    requires |sources| == |ms| && ClashFree(ms) && n < |ms| && n !in done
    requires Unpacked(tree, ms, sources, done) && Clean(ms[n].path)
    requires forall p :: p in after <==> p in tree || Above(p, ms[n].path)
    requires forall p :: p in after ==>
               after[p] == if p == ms[n].path then NodeFor(ms[n], sources[n])
                           else if Above(p, ms[n].path) then Folder
                           else tree[p]
    ensures Unpacked(after, ms, sources, done + {n})
  { }

  lemma PrefixesAreAbove(path: Path)
    ensures forall k :: 0 < k <= |path| ==> Above(path[..k], path)
    ensures forall k :: 0 < k < |path| ==> path[..|path| - 1][..k] == path[..k]
  { }

  /** The members dealt with once the directories below index `dirs` and the files below index
      `files` are: all of them when both indices are at the end. */
  ghost function Done(ms: seq<Member>, dirs: nat, files: nat): set<nat> {
    set j: nat | j < |ms| && (if ms[j].kind == DIR then j < dirs else j < files)
  }

  /** One member of the extraction phase: directories with their parents; files after their
      parent directories, created exclusively and filled from the source. */
  method UnpackMember(tree: Tree, ms: seq<Member>, sources: seq<Source>, n: nat, ghost done: set<nat>)
    returns (ok: bool, after: Tree)
    requires |sources| == |ms| && ClashFree(ms) && n < |ms| && n !in done && Clean(ms[n].path)
    requires Unpacked(tree, ms, sources, done)
    ensures ok <==> (ms[n].kind == FILE ==> |sources[n].data| == ms[n].size)
    ensures ok ==> Unpacked(after, ms, sources, done + {n})
  {
    var path := ms[n].path;
    hide ClashFree, Unpacked, Clash;
    NothingInTheWay(tree, ms, sources, done, n);
    AboveSteps(path, |path|);
    PrefixesAreAbove(path);
    assert path[..|path|] == path;
    if ms[n].kind == DIR {
      ok, after := MakeDirs(tree, path);
      MemberAdded(tree, after, ms, sources, done, n);
    } else {
      ok, after := MakeDirs(tree, path[..|path| - 1]);
      assert ok && path !in after;
      var data;
      ok, data := CopyLimited(sources[n], ms[n].size);
      after := after[path := Content(data)];
      if ok {
        MemberAdded(tree, after, ms, sources, done, n);
      }
    }
  }

  method UnpackDirectories(ms: seq<Member>, sources: seq<Source>) returns (tree: Tree)
    requires |sources| == |ms| && AllClean(ms) && ClashFree(ms)
    ensures Unpacked(tree, ms, sources, Done(ms, |ms|, 0))
  {
    hide Unpacked, ClashFree;
    tree := map[];
    EmptyTree(ms, sources);
    for i := 0 to |ms|
      invariant Unpacked(tree, ms, sources, Done(ms, i, 0))
    {
      if ms[i].kind == DIR {
        var ok;
        ok, tree := UnpackMember(tree, ms, sources, i, Done(ms, i, 0));
        assert Done(ms, i + 1, 0) == Done(ms, i, 0) + {i};
      } else {
        assert Done(ms, i + 1, 0) == Done(ms, i, 0);
      }
    }
  }

  method UnpackFiles(ms: seq<Member>, sources: seq<Source>, start: Tree) returns (ok: bool, tree: Tree)
    requires |sources| == |ms| && AllClean(ms) && ClashFree(ms)
    requires Unpacked(start, ms, sources, Done(ms, |ms|, 0))
    ensures ok <==> AsDeclared(ms, sources)
    ensures ok ==> Unpacked(tree, ms, sources, Done(ms, |ms|, |ms|))
  {
    hide Unpacked, ClashFree;
    tree := start;
    for i := 0 to |ms|
      invariant forall j :: 0 <= j < i && ms[j].kind == FILE ==> |sources[j].data| == ms[j].size
      invariant Unpacked(tree, ms, sources, Done(ms, |ms|, i))
    {
      if ms[i].kind == FILE {
        ok, tree := UnpackMember(tree, ms, sources, i, Done(ms, |ms|, i));
        if !ok {
          return;
        }
        assert Done(ms, |ms|, i + 1) == Done(ms, |ms|, i) + {i};
      } else {
        assert Done(ms, |ms|, i + 1) == Done(ms, |ms|, i);
      }
    }
    ok := true;
  }

  ghost predicate AsDeclared(ms: seq<Member>, sources: seq<Source>)
    requires |sources| == |ms|
  {
    forall i :: 0 <= i < |ms| && ms[i].kind == FILE ==> |sources[i].data| == ms[i].size
  }

  /** Registration followed by extraction into an empty tree. Whatever the order of the members,
      extraction goes through exactly when registration accepts them and every file has its
      declared size; the tree then holds every member and nothing else but their parents. */
  method ExtractArchive(ms: seq<Member>, sources: seq<Source>) returns (ok: bool, tree: Tree)
    requires |sources| == |ms| && AllClean(ms)
    ensures ok <==> ClashFree(ms) && AsDeclared(ms, sources)
    ensures ok ==> Unpacked(tree, ms, sources, Done(ms, |ms|, |ms|))
  {
    var seen;
    ok, seen := RegisterAll(ms);
    tree := map[];
    if ok {
      tree := UnpackDirectories(ms, sources);
      ok, tree := UnpackFiles(ms, sources, tree);
    }
  }

  lemma EmptyTree(ms: seq<Member>, sources: seq<Source>)
    requires |sources| == |ms|
    ensures Unpacked(map[], ms, sources, Done(ms, 0, 0))
  { }
}
