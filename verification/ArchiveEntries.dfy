/** Extraction from the names as they stand in the archive to the tree on disk. */
module ArchiveEntries {
  import opened ArchivePaths
  import opened ArchiveTree

  /** An archive entry: its raw name, whether its header calls it a directory, its declared size. */
  datatype Entry = Entry(raw: string, isDir: bool, size: nat)

  /** The raw name can be cleaned, and a trailing slash does not contradict the header. */
  predicate EntryOk(e: Entry, maxDepth: nat) {
    var r := ArchiveName(e.raw, maxDepth);
    r.CleanName? && (r.trailingSlash ==> e.isDir)
  }

  predicate EntriesOk(es: seq<Entry>, maxDepth: nat) { forall i :: 0 <= i < |es| ==> EntryOk(es[i], maxDepth) }

  function NameOf(e: Entry, maxDepth: nat): string
    requires EntryOk(e, maxDepth)
  {
    ArchiveName(e.raw, maxDepth).name
  }

  function MemberOf(e: Entry, maxDepth: nat): Member
    requires EntryOk(e, maxDepth)
  {
    Member(Split(NameOf(e, maxDepth)), if e.isDir then DIR else FILE, e.size)
  }

  /** A path that stays below the root: no empty, dot or double-dot component, within the depth. */
  predicate Confined(p: Path, maxDepth: nat) { Clean(p) && "." !in p && ".." !in p && |p| <= maxDepth }

  /** An entry with a plain name is unpacked under just that name. */
  lemma PlainEntryKept(p: Path, e: Entry, maxDepth: nat)
    requires Confined(p, maxDepth) && !BadChars(Join(p))
    requires e.raw == Join(p) || (e.isDir && e.raw == Join(p) + ['/'])
    ensures EntryOk(e, maxDepth) && MemberOf(e, maxDepth) == Member(p, if e.isDir then DIR else FILE, e.size)
  {
    PlainNameKept(p, maxDepth);
    SplitJoin(p);
  }

  function Members(es: seq<Entry>, maxDepth: nat): (ms: seq<Member>)
    requires EntriesOk(es, maxDepth)
    ensures |ms| == |es| && forall i :: 0 <= i < |es| ==> ms[i] == MemberOf(es[i], maxDepth)
  {
    seq(|es|, i requires 0 <= i < |es| => MemberOf(es[i], maxDepth))
  }

  /** Cleaned names that can live in one tree: all different, and none below a file. */
  predicate Compatible(es: seq<Entry>, maxDepth: nat)
    requires EntriesOk(es, maxDepth)
  {
    forall i, j :: 0 <= i < |es| && 0 <= j < |es| && i != j ==> CanCoexist(es[i], es[j], maxDepth)
  }

  predicate CanCoexist(d: Entry, e: Entry, maxDepth: nat)
    requires EntryOk(d, maxDepth) && EntryOk(e, maxDepth)
  {
    && NameOf(d, maxDepth) != NameOf(e, maxDepth)
    && (!d.isDir ==> !(NameOf(d, maxDepth) + ['/'] <= NameOf(e, maxDepth)))
  }

  lemma CoexistMeansNoClash(d: Entry, e: Entry, maxDepth: nat)
    requires EntryOk(d, maxDepth) && EntryOk(e, maxDepth)
    ensures CanCoexist(d, e, maxDepth) && CanCoexist(e, d, maxDepth) <==>
              !Clash(MemberOf(d, maxDepth), MemberOf(e, maxDepth))
  {
    AcceptedNameIsClean(d.raw, maxDepth);
    AcceptedNameIsClean(e.raw, maxDepth);
    var p, q := Split(NameOf(d, maxDepth)), Split(NameOf(e, maxDepth));
    hide Split, Join, ArchiveName, Clean;
    StringPrefixIsPathPrefix(p, q);
    StringPrefixIsPathPrefix(q, p);
  }

  lemma CompatibleMeansClashFree(es: seq<Entry>, maxDepth: nat)
    requires EntriesOk(es, maxDepth)
    ensures Compatible(es, maxDepth) <==> ClashFree(Members(es, maxDepth))
  {
    hide Clash, CanCoexist, MemberOf;
    var ms := Members(es, maxDepth);
    forall i, j | 0 <= i < |es| && 0 <= j < |es|
      ensures CanCoexist(es[i], es[j], maxDepth) && CanCoexist(es[j], es[i], maxDepth) <==> !Clash(ms[i], ms[j])
    {
      CoexistMeansNoClash(es[i], es[j], maxDepth);
    }
    if ClashFree(ms) {
      forall i, j | 0 <= i < |es| && 0 <= j < |es| && i != j ensures CanCoexist(es[i], es[j], maxDepth) {
        assert i < j ==> !Clash(ms[i], ms[j]);
        assert j < i ==> !Clash(ms[j], ms[i]);
      }
    }
  }

  lemma MembersConfined(es: seq<Entry>, maxDepth: nat)
    requires EntriesOk(es, maxDepth)
    ensures AllClean(Members(es, maxDepth))
    ensures forall i :: 0 <= i < |es| ==> Confined(Members(es, maxDepth)[i].path, maxDepth)
  {
    forall i | 0 <= i < |es| ensures Confined(Members(es, maxDepth)[i].path, maxDepth) {
      AcceptedNameIsClean(es[i].raw, maxDepth);
    }
  }

  lemma AboveConfined(p: Path, q: Path, maxDepth: nat)
    requires Above(p, q) && Confined(q, maxDepth)
    ensures Confined(p, maxDepth)
  {
    if p != q {
      assert forall i :: 0 <= i < |p| ==> p[i] == q[i];
    }
  }

  /** The entry loop of both extractors and the extraction after it. From the raw names on, an archive
      is extracted exactly when every name can be cleaned without contradicting its header, the
      cleaned names can live in one tree, and every file has its declared size. What is on disk then
      is every entry under its cleaned name and the directories above, none outside the root. */
  method ExtractEntries(es: seq<Entry>, sources: seq<Source>, maxDepth: nat) returns (ok: bool, tree: Tree)
    requires |sources| == |es|
    ensures ok <==>
              && EntriesOk(es, maxDepth) && Compatible(es, maxDepth)
              && forall i :: 0 <= i < |es| && !es[i].isDir ==> |sources[i].data| == es[i].size
    ensures ok ==> var ms := Members(es, maxDepth); Unpacked(tree, ms, sources, Done(ms, |ms|, |ms|))
    ensures ok ==> forall p :: p in tree ==> Confined(p, maxDepth)
  {
    tree := map[];
    var ms: seq<Member> := [];
    for i := 0 to |es|
      invariant EntriesOk(es[..i], maxDepth)
      invariant |ms| == i && forall j :: 0 <= j < i ==> ms[j] == MemberOf(es[j], maxDepth)
    {
      if !EntryOk(es[i], maxDepth) {
        return false, tree;
      }
      ms := ms + [MemberOf(es[i], maxDepth)];
      assert es[..i + 1] == es[..i] + [es[i]];
    }
    assert es[..|es|] == es;
    assert ms == Members(es, maxDepth);
    MembersConfined(es, maxDepth);
    CompatibleMeansClashFree(es, maxDepth);
    hide Compatible, ClashFree, EntryOk, Unpacked, Confined;
    ok, tree := ExtractArchive(ms, sources);
    if ok {
      TreeConfined(tree, ms, sources, maxDepth);
    }
  }

  lemma TreeConfined(tree: Tree, ms: seq<Member>, sources: seq<Source>, maxDepth: nat)
    requires |sources| == |ms| && forall i :: 0 <= i < |ms| ==> Confined(ms[i].path, maxDepth)
    requires Unpacked(tree, ms, sources, Done(ms, |ms|, |ms|))
    ensures forall p :: p in tree ==> Confined(p, maxDepth)
  {
    hide Confined, Above;
    forall p | p in tree ensures Confined(p, maxDepth) {
      assert Covered(p, ms, Done(ms, |ms|, |ms|));
      var i :| i in Done(ms, |ms|, |ms|) && i < |ms| && Above(p, ms[i].path);
      AboveConfined(p, ms[i].path, maxDepth);
    }
  }
}
