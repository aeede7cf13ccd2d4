/** Archive member names: their clean form, and what string prefixes of clean names mean. */
module ArchivePaths {
  import opened Options

  type Path = seq<string>

  datatype NameError = InvalidName | AbsolutePath | Traversal | EmptyPath | TooDeep

  datatype NameResult = CleanName(name: string, trailingSlash: bool) | BadName(error: NameError)

  /** `split("/")`: always at least one component. */
  function Split(s: string): (parts: seq<string>)
    ensures |parts| > 0
  {
    if s == [] then [[]]
    else
      var rest := Split(s[1..]);
      if s[0] == '/' then [[]] + rest else [[s[0]] + rest[0]] + rest[1..]
  }

  function Join(parts: seq<string>): string {
    if parts == [] then [] else if |parts| == 1 then parts[0] else parts[0] + ['/'] + Join(parts[1..])
  }

  predicate SlashFree(parts: seq<string>) { forall i :: 0 <= i < |parts| ==> '/' !in parts[i] }

  predicate Component(c: string) { c != [] && '/' !in c }

  /** A clean path: at least one component, each non-empty and free of slashes. */
  predicate Clean(p: Path) { p != [] && forall i :: 0 <= i < |p| ==> Component(p[i]) }

  predicate ProperPrefix(p: Path, q: Path) { |p| < |q| && q[..|p|] == p }

  predicate Noise(part: string) { part == "" || part == "." }

  /** The components the path library keeps: no empty ones and no single dots. */
  function Kept(parts: seq<string>): seq<string> {
    if parts == [] then [] else (if Noise(parts[0]) then [] else [parts[0]]) + Kept(parts[1..])
  }

  function ArchiveName(raw: string, maxDepth: nat): NameResult {
    if raw == "" || '\0' in raw || '\\' in raw then BadName(InvalidName)
    else if raw[0] == '/' then BadName(AbsolutePath)
    else
      var parts := Kept(Split(raw));
      if ".." in parts then BadName(Traversal)
      else if parts == [] then BadName(EmptyPath)
      else if |parts| > maxDepth then BadName(TooDeep)
      else CleanName(Join(parts), raw[|raw| - 1] == '/')
  }

  lemma {:induction false} SplitComponents(s: string)
    ensures forall i :: 0 <= i < |Split(s)| ==> '/' !in Split(s)[i]
  {
    if s != [] {
      SplitComponents(s[1..]);
    }
  }

  lemma {:induction false} KeptComponents(parts: seq<string>)
    requires forall i :: 0 <= i < |parts| ==> '/' !in parts[i]
    ensures forall i :: 0 <= i < |Kept(parts)| ==> Component(Kept(parts)[i]) && Kept(parts)[i] != "."
  {
    if parts != [] {
      KeptComponents(parts[1..]);
    }
  }

  lemma {:induction false} SplitHead(c: string, rest: string)
    requires '/' !in c
    ensures Split(c) == [c]
    ensures Split(c + ['/'] + rest) == [c] + Split(rest)
  {
    var s := c + ['/'] + rest;
    if c == [] {
      assert s[1..] == rest;
    } else {
      SplitHead(c[1..], rest);
      assert s[1..] == c[1..] + ['/'] + rest;
      assert c == [c[0]] + c[1..];
    }
  }

  /** Splitting what was joined gives back the parts. */
  lemma {:induction false} SplitJoin(p: seq<string>)
    requires p != [] && SlashFree(p)
    ensures Split(Join(p)) == p
  {
    SplitHead(p[0], if |p| > 1 then Join(p[1..]) else []);
    if |p| > 1 {
      SplitJoin(p[1..]);
    }
  }

  lemma {:induction false} KeptClean(p: seq<string>)
    requires forall i :: 0 <= i < |p| ==> p[i] != "" && p[i] != "."
    ensures Kept(p) == p
  {
    if p != [] {
      KeptClean(p[1..]);
    }
  }

  /** An accepted name is clean: relative, no dot components, no deeper than the limit. */
  lemma AcceptedNameIsClean(raw: string, maxDepth: nat)
    requires ArchiveName(raw, maxDepth).CleanName?
    ensures var name := ArchiveName(raw, maxDepth).name;
            && Clean(Split(name)) && Join(Split(name)) == name && |Split(name)| <= maxDepth
            && "." !in Split(name) && ".." !in Split(name)
  {
    var parts := Kept(Split(raw));
    SplitComponents(raw);
    KeptComponents(Split(raw));
    SplitJoin(parts);
  }

  /** Cleaning is a projection: an accepted name is its own clean form. */
  lemma CleaningIsStable(raw: string, maxDepth: nat)
    requires ArchiveName(raw, maxDepth).CleanName?
    ensures var name := ArchiveName(raw, maxDepth).name;
            ArchiveName(name, maxDepth) == CleanName(name, false)
  {
    var name := ArchiveName(raw, maxDepth).name;
    var parts := Kept(Split(raw));
    AcceptedNameIsClean(raw, maxDepth);
    SplitComponents(raw);
    KeptComponents(Split(raw));
    SplitJoin(parts);
    KeptClean(parts);
    KeptFrom(Split(raw), raw);
    JoinChars(parts, raw);
    JoinEnds(parts);
  }

  predicate CharsFrom(s: string, t: string) { forall i :: 0 <= i < |s| ==> s[i] in t }

  lemma {:induction false} SplitFrom(s: string)
    ensures forall i :: 0 <= i < |Split(s)| ==> CharsFrom(Split(s)[i], s)
  {
    if s != [] {
      SplitFrom(s[1..]);
    }
  }

  lemma KeptFrom(parts: seq<string>, raw: string)
    requires parts == Split(raw)
    ensures forall i :: 0 <= i < |Kept(parts)| ==> CharsFrom(Kept(parts)[i], raw)
  {
    SplitFrom(raw);
    KeptSubset(parts);
  }

  lemma {:induction false} KeptSubset(parts: seq<string>)
    ensures forall i :: 0 <= i < |Kept(parts)| ==> Kept(parts)[i] in parts
  {
    if parts != [] {
      KeptSubset(parts[1..]);
    }
  }

  lemma {:induction false} JoinChars(p: Path, raw: string)
    requires forall i :: 0 <= i < |p| ==> CharsFrom(p[i], raw)
    ensures forall i :: 0 <= i < |Join(p)| ==> Join(p)[i] in raw || Join(p)[i] == '/'
  {
    if |p| > 1 {
      JoinChars(p[1..], raw);
    }
  }

  lemma {:induction false} JoinEnds(p: Path)
    requires Clean(p)
    ensures Join(p) != [] && Join(p)[0] != '/' && Join(p)[|Join(p)| - 1] != '/'
  {
    if |p| > 1 {
      JoinEnds(p[1..]);
    }
  }

  // ---------------------------------------------------------------- names as they are written

  /** Every name is its parts, joined. */
  lemma {:induction false} JoinSplit(s: string)
    ensures Join(Split(s)) == s
  {
    if s != [] {
      JoinSplit(s[1..]);
      assert s == [s[0]] + s[1..];
      var rest := Split(s[1..]);
      if s[0] == '/' {
        assert ([[]] + rest)[1..] == rest;
      } else {
        assert ([[s[0]] + rest[0]] + rest[1..])[1..] == rest[1..];
      }
    }
  }

  lemma KeptFirst(part: string, rest: seq<string>)
    ensures Kept([part] + rest) == (if Noise(part) then [] else [part]) + Kept(rest)
  {
    assert ([part] + rest)[1..] == rest;
  }

  lemma {:induction false} KeptAppend(a: seq<string>, b: seq<string>)
    ensures Kept(a + b) == Kept(a) + Kept(b)
  {
    if a == [] {
      assert a + b == b;
    } else {
      KeptAppend(a[1..], b);
      KeptFirst(a[0], a[1..]);
      KeptFirst(a[0], a[1..] + b);
      assert a == [a[0]] + a[1..] && a + b == [a[0]] + (a[1..] + b);
      hide Noise, Kept;
    }
  }

  lemma KeptNoise(noise: string)
    requires Noise(noise)
    ensures Kept([noise]) == []
  {
  }

  /** A character other than the slash is in a name exactly when it is in some part. */
  lemma {:induction false} JoinHas(parts: seq<string>, c: char)
    requires c != '/'
    ensures c in Join(parts) <==> exists i :: 0 <= i < |parts| && c in parts[i]
  {
    if |parts| > 1 {
      JoinHas(parts[1..], c);
      assert c in Join(parts) <==> c in parts[0] || c in Join(parts[1..]);
      if c in Join(parts[1..]) {
        var i :| 0 <= i < |parts[1..]| && c in parts[1..][i];
        assert c in parts[i + 1];
      }
      if i :| 0 <= i < |parts| && c in parts[i] {
        assert i > 0 ==> parts[1..][i - 1] == parts[i];
      }
    }
  }

  /** A name starts with a slash exactly when its first part is empty and not the only one. */
  lemma JoinStarts(parts: seq<string>)
    requires parts != [] && SlashFree(parts)
    ensures Join(parts) == "" <==> parts == [""]
    ensures Join(parts) != "" ==> (Join(parts)[0] == '/' <==> |parts| > 1 && parts[0] == "")
  {
    assert |parts| == 1 ==> parts == [parts[0]];
  }

  lemma {:induction false} JoinStops(parts: seq<string>)
    requires parts != [] && SlashFree(parts) && Join(parts) != ""
    ensures Join(parts)[|Join(parts)| - 1] == '/' <==> |parts| > 1 && parts[|parts| - 1] == ""
  {
    if |parts| > 1 && parts != [parts[0], ""] {
      JoinStarts(parts[1..]);
      if Join(parts[1..]) != "" {
        JoinStops(parts[1..]);
      }
    }
  }

  predicate BadChars(raw: string) { '\0' in raw || '\\' in raw }

  /** The same name, or refused for the same reason. */
  predicate SameVerdict(r: NameResult, q: NameResult) {
    match r
    case BadName(_) => q == r
    case CleanName(name, _) => q.CleanName? && q.name == name
  }

  /** What a name comes to, told by its parts. */
  lemma NameOfParts(parts: seq<string>, maxDepth: nat)
    requires parts != [] && SlashFree(parts)
    ensures var raw, kept := Join(parts), Kept(parts);
            ArchiveName(raw, maxDepth) ==
            if parts == [""] || BadChars(raw) then BadName(InvalidName)
            else if |parts| > 1 && parts[0] == "" then BadName(AbsolutePath)
            else if ".." in kept then BadName(Traversal)
            else if kept == [] then BadName(EmptyPath)
            else if |kept| > maxDepth then BadName(TooDeep)
            else CleanName(Join(kept), |parts| > 1 && parts[|parts| - 1] == "")
  {
    SplitJoin(parts);
    JoinStarts(parts);
    if Join(parts) != "" {
      JoinStops(parts);
    }
    hide Split, Join, Kept;
  }

  /** A clean name without dot components keeps all its components, whatever they are. */
  lemma PlainNameKept(p: Path, maxDepth: nat)
    requires Clean(p) && "." !in p && ".." !in p && |p| <= maxDepth && !BadChars(Join(p))
    ensures ArchiveName(Join(p), maxDepth) == CleanName(Join(p), false)
    ensures ArchiveName(Join(p) + ['/'], maxDepth) == CleanName(Join(p), true)
  {
    hide Split, ArchiveName, Kept, Join, BadChars;
    assert p[0] != "" && p[|p| - 1] != "";
    KeptClean(p);
    NameOfParts(p, maxDepth);
    SlashAtEnd(p);
    NameOfParts(p + [""], maxDepth);
  }

  lemma SlashAtEnd(p: Path)
    requires Clean(p) && "." !in p
    ensures Join(p + [""]) == Join(p) + ['/'] && Kept(p + [""]) == p && SlashFree(p + [""])
    ensures BadChars(Join(p) + ['/']) == BadChars(Join(p))
  {
    hide Split, Kept;
    KeptClean(p);
    KeptAppend(p, [""]);
    KeptNoise("");
    JoinAppend(p, [""]);
    assert p + [] == p;
    assert Join([""]) == "" && (Join(p) + ['/']) + "" == Join(p) + ['/'];
    hide Join;
  }

  lemma KeptWithout(a: seq<string>, noise: string, b: seq<string>)
    requires Noise(noise)
    ensures Kept(a + [noise] + b) == Kept(a + b)
  {
    KeptAppend(a, b);
    KeptAppend(a + [noise], b);
    KeptAppend(a, [noise]);
    KeptNoise(noise);
    hide Kept;
    assert Kept(a) + [] == Kept(a);
  }

  /** Empty and single-dot parts put anywhere into a name, but for an empty one at its front, and a dot at
      the front of a name only if it is not absolute, change neither the name nor the verdict. */
  lemma NoiseIgnored(a: seq<string>, noise: string, b: seq<string>, maxDepth: nat)
    requires SlashFree(a) && SlashFree(b) && Noise(noise) && a + b != [] && Join(a + b) != ""
    requires a == [] ==> noise == "." && Join(b)[0] != '/'
    ensures SameVerdict(ArchiveName(Join(a + [noise] + b), maxDepth), ArchiveName(Join(a + b), maxDepth))
  {
    hide Split, Join, Kept, ArchiveName, BadChars, Noise;
    NoiseShape(a, noise, b);
    KeptWithout(a, noise, b);
    NameOfParts(a + b, maxDepth);
    NameOfParts(a + [noise] + b, maxDepth);
  }

  lemma NoiseShape(a: seq<string>, noise: string, b: seq<string>)
    requires SlashFree(a) && SlashFree(b) && Noise(noise) && a + b != [] && Join(a + b) != ""
    requires a == [] ==> noise == "." && Join(b)[0] != '/'
    ensures var parts, parts' := a + b, a + [noise] + b;
            && SlashFree(parts) && SlashFree(parts') && |parts'| > 1 && parts != [""]
            && (parts'[0] == "" <==> |parts| > 1 && parts[0] == "")
            && BadChars(Join(parts')) == BadChars(Join(parts))
  {
    NoiseHidesNothing(a, noise, b, '\0');
    NoiseHidesNothing(a, noise, b, '\\');
    JoinStarts(a + b);
    assert a == [] ==> a + b == b;
    hide Join;
  }

  lemma NoiseHidesNothing(a: seq<string>, noise: string, b: seq<string>, c: char)
    requires Noise(noise) && c != '/' && c != '.'
    ensures c in Join(a + [noise] + b) <==> c in Join(a + b)
  {
    JoinHas(a + b, c);
    JoinHas(a + [noise] + b, c);
    hide Join;
    if i :| 0 <= i < |a + b| && c in (a + b)[i] {
      assert c in (a + [noise] + b)[if i < |a| then i else i + 1];
    }
    if i :| 0 <= i < |a + [noise] + b| && c in (a + [noise] + b)[i] {
      assert i != |a|;
      assert c in (a + b)[if i < |a| then i else i - 1];
    }
  }

  /** How many parts are more than noise. */
  function RealParts(parts: seq<string>): nat { |set i | 0 <= i < |parts| && !Noise(parts[i])| }

  lemma {:induction false} KeptCount(parts: seq<string>)
    ensures |Kept(parts)| == RealParts(parts)
    ensures forall c :: c in Kept(parts) <==> c in parts && !Noise(c)
  {
    if parts != [] {
      var n := |parts| - 1;
      var front := parts[..n];
      KeptCount(front);
      KeptAppend(front, [parts[n]]);
      assert parts == front + [parts[n]];
      var meant, before := set i | 0 <= i < |parts| && !Noise(parts[i]), set i | 0 <= i < n && !Noise(front[i]);
      assert meant == if Noise(parts[n]) then before else before + {n};
    }
  }

  /** What each refusal is for, told by the parts of the name, and what the flag of an accepted one says. */
  lemma RefusalCauses(parts: seq<string>, maxDepth: nat)
    requires parts != [] && SlashFree(parts)
    ensures var raw, r := Join(parts), ArchiveName(Join(parts), maxDepth);
            var readable := parts != [""] && !BadChars(raw);
            var relative := readable && !(|parts| > 1 && parts[0] == "");
            var inside := relative && ".." !in parts;
            && (r == BadName(InvalidName) <==> !readable)
            && (r == BadName(AbsolutePath) <==> readable && !relative)
            && (r == BadName(Traversal) <==> relative && !inside)
            && (r == BadName(EmptyPath) <==> inside && forall i :: 0 <= i < |parts| ==> Noise(parts[i]))
            && (r == BadName(TooDeep) <==> inside && RealParts(parts) > maxDepth && RealParts(parts) > 0)
            && (r.CleanName? ==> (r.trailingSlash <==> |parts| > 1 && parts[|parts| - 1] == ""))
  {
    KeptCount(parts);
    NameOfParts(parts, maxDepth);
    hide Split, Join, RealParts, ArchiveName, Kept;
    if Kept(parts) == [] {
      forall i | 0 <= i < |parts| ensures Noise(parts[i]) {
        assert parts[i] in parts;
      }
    } else {
      assert Kept(parts)[0] in Kept(parts);
    }
  }

  // ---------------------------------------------------------------- prefixes

  lemma {:induction false} JoinAppend(p: Path, q: Path)
    requires p != [] && q != []
    ensures Join(p + q) == Join(p) + ['/'] + Join(q)
  {
    assert (p + q)[1..] == p[1..] + q;
    if |p| > 1 {
      JoinAppend(p[1..], q);
    }
  }

  /** For clean names, starting with `name + "/"` means lying below `name`: the comparison of
      strings never confuses `a/b` with a sibling such as `a/bc`. */
  lemma {:induction false} StringPrefixIsPathPrefix(p: Path, q: Path)
    requires Clean(p) && Clean(q)
    ensures Join(p) + ['/'] <= Join(q) <==> ProperPrefix(p, q)
  {
    if ProperPrefix(p, q) {
      assert q == p + q[|p|..];
      JoinAppend(p, q[|p|..]);
    }
    if Join(p) + ['/'] <= Join(q) {
      var tail := Join(q)[|Join(p)| + 1..];
      assert Join(q) == Join(p) + ['/'] + tail;
      SplitJoin(q);
      SplitAfter(p, tail);
    }
  }

  lemma JoinFront(p: Path, tail: string)
    requires |p| > 1
    ensures Join(p) + ['/'] + tail == p[0] + ['/'] + (Join(p[1..]) + ['/'] + tail)
  {
  }

  /** Splitting a clean name followed by a slash starts with the components of the name. */
  lemma {:induction false} SplitAfter(p: Path, tail: string)
    requires Clean(p)
    ensures Split(Join(p) + ['/'] + tail) == p + Split(tail)
  {
    hide Split;
    if |p| == 1 {
      SplitHead(p[0], tail);
      assert p == [p[0]];
    } else {
      JoinFront(p, tail);
      hide Join;
      SplitHead(p[0], Join(p[1..]) + ['/'] + tail);
      SplitAfter(p[1..], tail);
      assert p == [p[0]] + p[1..];
    }
  }
}
