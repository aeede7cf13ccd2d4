/** The scanner against the grammar, the worklist against the tree, and the two against each other. */
module JsonIntakeProofs {
  import opened Options
  import opened JsonIntake
  import opened JsonGrammar

  // ---------------------------------------------------------------- the scanner is exact

  /** Between tokens, with this stack of open containers. */
  predicate At(s: Scan, stack: seq<Frame>) {
    Resting(s) && s.stack == stack
  }

  /** The scan passed and left this stack, or it was rejected: decided by `ok`. */
  predicate Outcome(s: Scan, ok: bool, stack: seq<Frame>) {
    if ok then At(s, stack) else s.Rejected?
  }

  lemma ScanString(l: Limits, s: Scan, ps: seq<Piece>)
    requires Resting(s) && PiecesOk(ps)
    ensures Outcome(ScanAll(l, s, RenderString(ps)), TokenBytes(ps) <= 6 * l.text, MarkContent(s.stack))
  {
    var s1 := ScanStep(l, s, '"');
    assert s1 == Scanning(MarkContent(s.stack), true, false, 0);
    assert RenderString(ps) == ['"'] + (RenderPieces(ps) + ['"']);
    ScanConcat(l, s, ['"'], RenderPieces(ps) + ['"']);
    ScanChar(l, s, '"');
    ScanConcat(l, s1, RenderPieces(ps), ['"']);
    ScanPieces(l, s1, ps);
    ScanChar(l, AddBytes(l, s1, TokenBytes(ps)), '"');
  }

  function Commas(count: nat, first: bool): nat { if first && count > 0 then count - 1 else count }

  /** The innermost open container, with `k` commas seen so far. */
  predicate Inside(s: Scan, open: char, k: nat) {
    Resting(s) && s.stack != [] && Top(s.stack) == Frame(open, k, true)
  }

  /** A comma is counted unless it would exceed the bound; the first item has none. */
  lemma ScanSeparator(l: Limits, s: Scan, open: char, k: nat, first: bool)
    requires Inside(s, open, k)
    ensures var r := ScanAll(l, s, Separator(first));
            if first then r == s
            else if k + 1 < Bound(l, open)
            then Inside(r, open, k + 1) && r.stack == SetTop(s.stack, Frame(open, k + 1, true))
            else r.Rejected?
  { }

  /** Two pieces of text one after the other. */
  lemma ScanTwo(
    l: Limits, s: Scan, head: string, tail: string, ok1: bool, stack1: seq<Frame>, ok2: bool, stack2: seq<Frame>)
    requires Outcome(ScanAll(l, s, head), ok1, stack1)
    requires ok1 ==> Outcome(ScanAll(l, ScanAll(l, s, head), tail), ok2, stack2)
    ensures Outcome(ScanAll(l, s, head + tail), ok1 && ok2, stack2)
  {
    ScanConcat(l, s, head, tail);
    if !ok1 {
      StayRejected(l, ScanAll(l, s, head), tail);
    }
  }

  /** The state after a separator, in the terms the next item needs. */
  lemma SeparatorShape(l: Limits, s: Scan, s1: Scan, open: char, k: nat, first: bool)
    requires Inside(s, open, k) && k < Bound(l, open) && s1 == ScanAll(l, s, Separator(first))
    ensures var k' := if first then k else k + 1;
            && (s1.Scanning? <==> k' < Bound(l, open))
            && (s1.Scanning? ==>
                  && Inside(s1, open, k') && s1.stack == SetTop(s.stack, Frame(open, k', true))
                  && MarkContent(s1.stack) == s1.stack && |s1.stack| == |s.stack|)
  {
    ScanSeparator(l, s, open, k, first);
    if s1.Scanning? {
      InsideMarked(s1, open, if first then k else k + 1);
      InsideMarked(s, open, k);
    }
  }

  lemma InsideMarked(s: Scan, open: char, k: nat)
    requires Inside(s, open, k)
    ensures MarkContent(s.stack) == s.stack && SetTop(s.stack, Frame(open, k, true)) == s.stack
  {
  }

  /** Updating the innermost frame again hides the earlier update. */
  lemma SetTopTwice(stack: seq<Frame>, f: Frame, g: Frame)
    requires stack != []
    ensures |SetTop(stack, f)| == |stack| && Top(SetTop(stack, f)) == f
    ensures SetTop(SetTop(stack, f), g) == SetTop(stack, g)
  {
  }

  lemma StayRejected(l: Limits, s: Scan, text: string)
    requires s.Rejected?
    ensures ScanAll(l, s, text).Rejected?
  { }

  /** Scanning a rendered document passes exactly when the document is within the bounds, and
      then leaves the enclosing stack as it was, its innermost container known to be non-empty. */
  lemma {:induction false} ScanDoc(l: Limits, s: Scan, d: Doc)
    requires Positive(l) && Resting(s) && DocOk(d)
    ensures Outcome(ScanAll(l, s, Render(d)), Within(l, d, |s.stack|), MarkContent(s.stack))
    decreases d, 1
  {
    hide ScanStep, MarkContent, RenderItems, RenderMembers, ItemsWithin, MembersWithin, CountItems, CountMembers;
    match d
    case Atom(text) => ScanAtom(l, s, text);
    case Str(ps) => ScanString(l, s, ps);
    case Arr(lead, items) =>
      ScanOpen(l, s, '[', lead);
      var s2 := ScanAll(l, s, ['['] + lead);
      if s2.Scanning? {
        ScanItems(l, s2, items, 0, true);
      }
      var body := RenderItems(items, true);
      ScanClose(l, s, s2, '[', ']', lead, body, Commas(CountItems(items), true),
                ItemsWithin(l, items, |s.stack| + 1) && Commas(CountItems(items), true) < l.items);
    case Obj(lead, members) =>
      ScanOpen(l, s, '{', lead);
      var s2 := ScanAll(l, s, ['{'] + lead);
      if s2.Scanning? {
        ScanMembers(l, s2, members, 0, true);
      }
      var body := RenderMembers(members, true);
      ScanClose(l, s, s2, '{', '}', lead, body, Commas(CountMembers(members), true),
                MembersWithin(l, members, |s.stack| + 1) && Commas(CountMembers(members), true) < l.members);
  }

  lemma ScanOpen(l: Limits, s: Scan, open: char, lead: string)
    requires Resting(s) && (open == '[' || open == '{') && BlankText(lead)
    ensures Outcome(ScanAll(l, s, [open] + lead), |s.stack| < l.depth, s.stack + [Frame(open, 0, true)])
  {
    ScanConcat(l, s, [open], lead);
    ScanChar(l, s, open);
    ScanBlanks(l, ScanStep(l, s, open), lead);
  }

  lemma ScanClose(
    l: Limits, s: Scan, s2: Scan, open: char, close: char, lead: string, body: string, commas: nat, ok: bool)
    requires Positive(l) && Resting(s) && Closes(open, close)
    requires s2 == ScanAll(l, s, [open] + lead)
    requires Outcome(s2, |s.stack| < l.depth, s.stack + [Frame(open, 0, true)])
    requires s2.Scanning? ==> Outcome(ScanAll(l, s2, body), ok, s.stack + [Frame(open, commas, true)])
    requires ok ==> commas < Bound(l, open)
    ensures Outcome(ScanAll(l, s, [open] + lead + body + [close]), |s.stack| < l.depth && ok, MarkContent(s.stack))
  {
    hide ScanStep, MarkContent;
    ScanTwo(l, s, [open] + lead, body, |s.stack| < l.depth, s.stack + [Frame(open, 0, true)],
            ok, s.stack + [Frame(open, commas, true)]);
    var s3 := ScanAll(l, s, [open] + lead + body);
    if |s.stack| < l.depth && ok {
      CloseOne(l, s3, s.stack, open, close, commas);
    }
    ScanTwo(l, s, [open] + lead + body, [close], |s.stack| < l.depth && ok, s.stack + [Frame(open, commas, true)],
            true, MarkContent(s.stack));
  }

  /** A closing bracket never exceeds the bound that the commas already kept. */
  lemma CloseOne(l: Limits, s: Scan, outer: seq<Frame>, open: char, close: char, commas: nat)
    requires At(s, outer + [Frame(open, commas, true)]) && Closes(open, close) && commas < Bound(l, open)
    ensures At(ScanAll(l, s, [close]), MarkContent(outer))
  { }

  lemma {:induction false} ScanItems(l: Limits, s: Scan, es: Items, k: nat, first: bool)
    requires Positive(l) && Inside(s, '[', k) && k < l.items && ItemsOk(es)
    ensures var n := k + Commas(CountItems(es), first);
            Outcome(ScanAll(l, s, RenderItems(es, first)), ItemsWithin(l, es, |s.stack|) && n < l.items,
                    SetTop(s.stack, Frame('[', n, true)))
    decreases es, 0
  {
    hide ScanStep, MarkContent, SetTop, Separator;
    match es
    case NoItems =>
      InsideMarked(s, '[', k);
    case Item(before, value, after, rest) =>
      var s1 := ScanAll(l, s, Separator(first));
      var k' := if first then k else k + 1;
      SeparatorShape(l, s, s1, '[', k, first);
      if s1.Scanning? {
        ScanDoc(l, s1, value);
      }
      ScanPadded(l, s, s1, Separator(first), before, value, after);
      var head := Separator(first) + before + Render(value) + after;
      var ok := s1.Scanning? && Within(l, value, |s.stack|);
      var n := k' + CountItems(rest);
      var s4 := ScanAll(l, s, head);
      if ok {
        ScanItems(l, s4, rest, k', false);
        SetTopTwice(s.stack, Frame('[', k', true), Frame('[', n, true));
      }
      ScanTwo(l, s, head, RenderItems(rest, false), ok, SetTop(s.stack, Frame('[', k', true)),
              ItemsWithin(l, rest, |s.stack|) && n < l.items, SetTop(s.stack, Frame('[', n, true)));
  }

  /** Blanks around a value change nothing. */
  lemma ScanPadded(l: Limits, s: Scan, s1: Scan, prefix: string, before: string, value: Doc, after: string)
    requires s1 == ScanAll(l, s, prefix) && BlankText(before) && BlankText(after)
    requires s1.Rejected? || (Resting(s1) && s1.stack != [] && MarkContent(s1.stack) == s1.stack
             && Outcome(ScanAll(l, s1, Render(value)), Within(l, value, |s1.stack|), s1.stack))
    ensures var r := ScanAll(l, s, prefix + before + Render(value) + after);
            Outcome(r, s1.Scanning? && Within(l, value, |s1.stack|), if s1.Scanning? then s1.stack else [])
  {
    ScanConcat(l, s, prefix + before + Render(value), after);
    ScanConcat(l, s, prefix + before, Render(value));
    ScanConcat(l, s, prefix, before);
    ScanBlanks(l, s1, before);
    if s1.Rejected? {
      StayRejected(l, s1, Render(value));
    }
    ScanBlanks(l, ScanAll(l, s1, Render(value)), after);
  }

  lemma {:induction false} ScanMembers(l: Limits, s: Scan, ms: Members, k: nat, first: bool)
    requires Positive(l) && Inside(s, '{', k) && k < l.members && MembersOk(ms)
    ensures var n := k + Commas(CountMembers(ms), first);
            Outcome(ScanAll(l, s, RenderMembers(ms, first)), MembersWithin(l, ms, |s.stack|) && n < l.members,
                    SetTop(s.stack, Frame('{', n, true)))
    decreases ms, 0
  {
    hide ScanStep, MarkContent, SetTop, Separator;
    match ms
    case NoMembers =>
      InsideMarked(s, '{', k);
    case Member(before, key, mid, gap, value, after, rest) =>
      var k' := if first then k else k + 1;
      ScanOneMember(l, s, before, key, mid, gap, value, after, k, first);
      hide RenderString;
      var head := Separator(first) + before + RenderString(key) + mid + [':'] + gap + Render(value) + after;
      var ok := k' < l.members && TokenBytes(key) <= 6 * l.text && Within(l, value, |s.stack|);
      var n := k' + CountMembers(rest);
      var s4 := ScanAll(l, s, head);
      if ok {
        SetTopTwice(s.stack, Frame('{', k', true), Frame('{', n, true));
        ScanMembers(l, s4, rest, k', false);
      }
      ScanTwo(l, s, head, RenderMembers(rest, false), ok, SetTop(s.stack, Frame('{', k', true)),
              MembersWithin(l, rest, |s.stack|) && n < l.members, SetTop(s.stack, Frame('{', n, true)));
  }

  lemma ScanOneMember(
    l: Limits, s: Scan, before: string, key: seq<Piece>, mid: string, gap: string, value: Doc, after: string,
    k: nat, first: bool)
    requires Positive(l) && Inside(s, '{', k) && k < l.members
    requires BlankText(before) && PiecesOk(key) && BlankText(mid) && BlankText(gap) && DocOk(value) && BlankText(after)
    ensures var k' := if first then k else k + 1;
            var text := Separator(first) + before + RenderString(key) + mid + [':'] + gap + Render(value) + after;
            Outcome(ScanAll(l, s, text),
                    k' < l.members && TokenBytes(key) <= 6 * l.text && Within(l, value, |s.stack|),
                    SetTop(s.stack, Frame('{', k', true)))
    decreases value, 2
  {
    hide ScanStep, MarkContent, SetTop, Separator, RenderString;
    var s0 := ScanAll(l, s, Separator(first));
    SeparatorShape(l, s, s0, '{', k, first);
    ScanKey(l, s, s0, Separator(first), before, key, mid);
    var prefix := Separator(first) + before + RenderString(key) + mid + [':'];
    var s1 := ScanAll(l, s, prefix);
    if s1.Scanning? {
      ScanDoc(l, s1, value);
    }
    ScanPadded(l, s, s1, prefix, gap, value, after);
  }

  lemma ScanKey(l: Limits, s: Scan, s0: Scan, sep: string, before: string, key: seq<Piece>, mid: string)
    requires s0 == ScanAll(l, s, sep) && BlankText(before) && BlankText(mid) && PiecesOk(key)
    requires s0.Rejected? || (Resting(s0) && s0.stack != [] && MarkContent(s0.stack) == s0.stack)
    ensures Outcome(ScanAll(l, s, sep + before + RenderString(key) + mid + [':']),
                    s0.Scanning? && TokenBytes(key) <= 6 * l.text, if s0.Scanning? then s0.stack else [])
  {
    ScanConcat(l, s, sep + before + RenderString(key) + mid, [':']);
    ScanConcat(l, s, sep + before + RenderString(key), mid);
    ScanConcat(l, s, sep + before, RenderString(key));
    ScanConcat(l, s, sep, before);
    ScanBlanks(l, s0, before);
    if s0.Rejected? {
      StayRejected(l, s0, RenderString(key));
    } else {
      ScanString(l, s0, key);
    }
    var s2 := ScanAll(l, s0, RenderString(key));
    ScanBlanks(l, s2, mid);
    ScanChar(l, s2, ':');
  }

  /** For every JSON document and every way of writing it, the scanner accepts exactly when
      nesting, item and member counts and raw string tokens are within the bounds. */
  lemma PreparseIsExact(l: Limits, before: string, d: Doc, after: string)
    requires Positive(l) && DocOk(d) && BlankText(before) && BlankText(after)
    ensures Verdict(ScanAll(l, START, before + Render(d) + after)) == None <==> Within(l, d, 0)
  {
    ScanConcat(l, START, before + Render(d), after);
    ScanConcat(l, START, before, Render(d));
    ScanBlanks(l, START, before);
    ScanDoc(l, START, d);
    ScanBlanks(l, ScanAll(l, START, Render(d)), after);
  }

  // ---------------------------------------------------------------- the parsed value

  /** A parsed value: strings are code points, dictionaries keep their members in order. */
  datatype Value = VAtom(text: string) | VStr(points: seq<nat>) | VList(items: seq<Value>) | VDict(members: seq<Pair>)

  datatype Pair = Pair(key: seq<nat>, value: Value)

  function HexValue(c: char): nat
    requires HexDigit(c)
  {
    if c <= '9' then c as int - '0' as int
    else if c <= 'F' then c as int - 'A' as int + 10
    else c as int - 'a' as int + 10
  }

  function CodeUnit(h: string): nat
    requires PieceOk(Unicode(h))
  {
    ((HexValue(h[0]) * 16 + HexValue(h[1])) * 16 + HexValue(h[2])) * 16 + HexValue(h[3])
  }

  function EscapeValue(c: char): nat {
    match c
    case 'b' => 8
    case 'f' => 12
    case 'n' => 10
    case 'r' => 13
    case 't' => 9
    case _ => if c as int < 0x80 then c as int else 0
  }

  predicate HighSurrogate(n: nat) { 0xD800 <= n <= 0xDBFF }

  predicate LowSurrogate(n: nat) { 0xDC00 <= n <= 0xDFFF }

  /** Decoding of a string token: a high surrogate escape followed by a low one is one code point. */
  function Decode(ps: seq<Piece>): seq<nat>
    requires PiecesOk(ps)
  {
    if ps == [] then []
    else
      match ps[0]
      case Plain(c) => [c as int] + Decode(ps[1..])
      case Escape(c) => [EscapeValue(c)] + Decode(ps[1..])
      case Unicode(h) =>
        var u := CodeUnit(h);
        if HighSurrogate(u) && |ps| > 1 && ps[1].Unicode? && PieceOk(ps[1]) && LowSurrogate(CodeUnit(ps[1].hex)) then
          [0x10000 + (u - 0xD800) * 0x400 + (CodeUnit(ps[1].hex) - 0xDC00)] + Decode(ps[2..])
        else [u] + Decode(ps[1..])
  }

  /** The UTF-8 length of a code point; a lone surrogate has none. */
  function PointBytes(n: nat): Option<nat> {
    if HighSurrogate(n) || LowSurrogate(n) then None
    else Some(if n < 0x80 then 1 else if n < 0x800 then 2 else if n < 0x1_0000 then 3 else 4)
  }

  function TextBytes(points: seq<nat>): Option<nat> {
    if points == [] then Some(0)
    else
      var first, rest := PointBytes(points[0]), TextBytes(points[1..]);
      if first.Some? && rest.Some? then Some(first.value + rest.value) else None
  }

  /** What parsing yields: nothing, when some object names a member twice. */
  function Load(d: Doc): Option<Value>
    requires DocOk(d)
  {
    match d
    case Atom(text) => Some(VAtom(text))
    case Str(ps) => Some(VStr(Decode(ps)))
    case Arr(_, items) => (var vs := LoadItems(items); if vs.None? then None else Some(VList(vs.value)))
    case Obj(_, members) => (var ms := LoadMembers(members, []); if ms.None? then None else Some(VDict(ms.value)))
  }

  function LoadItems(es: Items): Option<seq<Value>>
    requires ItemsOk(es)
  {
    match es
    case NoItems => Some([])
    case Item(_, value, _, rest) =>
      var v, vs := Load(value), LoadItems(rest);
      if v.None? || vs.None? then None else Some([v.value] + vs.value)
  }

  predicate HasKey(ms: seq<Pair>, key: seq<nat>) { exists i :: 0 <= i < |ms| && ms[i].key == key }

  /** The duplicate-rejecting pairs hook, members first to last. */
  function LoadMembers(ms: Members, before: seq<Pair>): Option<seq<Pair>>
    requires MembersOk(ms)
    decreases ms
  {
    match ms
    case NoMembers => Some(before)
    case Member(_, key, _, _, value, _, rest) =>
      var v := Load(value);
      if v.None? || HasKey(before, Decode(key)) then None
      else LoadMembers(rest, before + [Pair(Decode(key), v.value)])
  }

  /** The bounds of the value check, by recursion: depth counts scalars too. */
  predicate ShapeOk(l: Limits, v: Value, depth: nat) {
    && depth <= l.depth
    && match v
       case VAtom(_) => true
       case VStr(points) => TextOk(l, points)
       case VList(items) => |items| <= l.items && forall i :: 0 <= i < |items| ==> ShapeOk(l, items[i], depth + 1)
       case VDict(members) =>
         |members| <= l.members
         && forall i :: 0 <= i < |members| ==> TextOk(l, members[i].key) && ShapeOk(l, members[i].value, depth + 1)
  }

  predicate TextOk(l: Limits, points: seq<nat>) {
    TextBytes(points).Some? && TextBytes(points).value <= l.text
  }

  /** The value at a position: the n-th item or member value at each step. */
  function ValueAt(v: Value, path: seq<nat>): Option<Value>
    decreases |path|
  {
    if path == [] then Some(v)
    else if v.VList? && path[0] < |v.items| then ValueAt(v.items[path[0]], path[1..])
    else if v.VDict? && path[0] < |v.members| then ValueAt(v.members[path[0]].value, path[1..])
    else None
  }

  /** A value by itself, not looking into what it contains. */
  predicate LocallyOk(l: Limits, v: Value) {
    match v
    case VAtom(_) => true
    case VStr(points) => TextOk(l, points)
    case VList(items) => |items| <= l.items
    case VDict(members) =>
      |members| <= l.members && forall i :: 0 <= i < |members| ==> TextOk(l, members[i].key)
  }

  ghost predicate OkAt(l: Limits, v: Value, depth: nat, path: seq<nat>) {
    ValueAt(v, path).Some? ==> depth + |path| <= l.depth && LocallyOk(l, ValueAt(v, path).value)
  }

  /** A value is within the bounds exactly when at every position in it, however reached, the depth and
      the value found there by itself are. */
  lemma ShapeEverywhere(l: Limits, v: Value)
    ensures ShapeOk(l, v, 1) <==> forall path :: OkAt(l, v, 1, path)
  {
    if ShapeOk(l, v, 1) {
      forall path ensures OkAt(l, v, 1, path) {
        ShapeOkAt(l, v, 1, path);
      }
    }
    if forall path :: OkAt(l, v, 1, path) {
      OkEverywhere(l, v, 1);
    }
  }

  lemma {:induction false} ShapeOkAt(l: Limits, v: Value, depth: nat, path: seq<nat>)
    requires ShapeOk(l, v, depth)
    ensures OkAt(l, v, depth, path)
    decreases |path|
  {
    if path != [] && ValueAt(v, path).Some? {
      ShapeOkAt(l, if v.VList? then v.items[path[0]] else v.members[path[0]].value, depth + 1, path[1..]);
    }
  }

  lemma {:induction false} OkEverywhere(l: Limits, v: Value, depth: nat)
    requires forall path :: OkAt(l, v, depth, path)
    ensures ShapeOk(l, v, depth)
    decreases v
  {
    assert OkAt(l, v, depth, []);
    match v
    case VAtom(_) =>
    case VStr(_) =>
    case VList(items) =>
      forall i | 0 <= i < |items| ensures ShapeOk(l, items[i], depth + 1) {
        OkBelow(l, v, depth, i, items[i], depth + 1);
        OkEverywhere(l, items[i], depth + 1);
      }
    case VDict(members) =>
      forall i | 0 <= i < |members| ensures ShapeOk(l, members[i].value, depth + 1) {
        OkBelow(l, v, depth, i, members[i].value, depth + 1);
        OkEverywhere(l, members[i].value, depth + 1);
      }
  }

  lemma OkBelow(l: Limits, v: Value, depth: nat, i: nat, child: Value, below: nat)
    requires (forall path :: OkAt(l, v, depth, path)) && ValueAt(v, [i]) == Some(child) && below == depth + 1
    ensures forall path :: OkAt(l, child, below, path)
  {
    forall path ensures OkAt(l, child, below, path) {
      assert OkAt(l, v, depth, [i] + path);
      assert ([i] + path)[1..] == path;
    }
  }

  /** A string without escapes is as long for the value check as it is for the scanner. */
  lemma {:induction false} PlainTextAsWritten(ps: seq<Piece>)
    requires PiecesOk(ps) && forall i :: 0 <= i < |ps| ==> ps[i].Plain?
    ensures TextBytes(Decode(ps)) == Some(TokenBytes(ps))
  {
    if ps != [] {
      PlainTextAsWritten(ps[1..]);
      assert Decode(ps)[1..] == Decode(ps[1..]);
    }
  }

  // ---------------------------------------------------------------- the worklist

  datatype Pending = Pending(value: Value, depth: nat)

  predicate AllShapesOk(l: Limits, todo: seq<Pending>) {
    forall i :: 0 <= i < |todo| ==> ShapeOk(l, todo[i].value, todo[i].depth)
  }

  function Weight(v: Value): nat {
    match v
    case VAtom(_) => 1
    case VStr(_) => 1
    case VList(items) => 1 + ItemsWeight(items)
    case VDict(members) => 1 + MembersWeight(members)
  }

  function ItemsWeight(vs: seq<Value>): nat {
    if vs == [] then 0 else ItemsWeight(vs[..|vs| - 1]) + Weight(vs[|vs| - 1])
  }

  function MembersWeight(ms: seq<Pair>): nat {
    if ms == [] then 0 else MembersWeight(ms[..|ms| - 1]) + Weight(ms[|ms| - 1].value)
  }

  function TodoWeight(todo: seq<Pending>): nat {
    if todo == [] then 0 else TodoWeight(todo[..|todo| - 1]) + Weight(todo[|todo| - 1].value)
  }

  lemma TodoWeightPush(todo: seq<Pending>, p: Pending)
    ensures TodoWeight(todo + [p]) == TodoWeight(todo) + Weight(p.value)
  { }

  /** The worklist traversal of `_validate_json_shape`: pop a value, check it, push what it contains. It
      accepts exactly the values within the bounds, whatever the order of the work. */
  method ValidateShape(l: Limits, root: Value) returns (ok: bool)
    ensures ok == ShapeOk(l, root, 1)
  {
    var stack := [Pending(root, 1)];
    while stack != []
      invariant AllShapesOk(l, stack) <==> ShapeOk(l, root, 1)
      decreases TodoWeight(stack)
    {
      var p := stack[|stack| - 1];
      ghost var before := stack;
      stack := stack[..|stack| - 1];
      assert before == stack + [p];
      if p.depth > l.depth {
        return false;
      }
      match p.value
      case VAtom(_) =>
      case VStr(points) =>
        if !TextOk(l, points) {
          return false;
        }
      case VList(items) =>
        if |items| > l.items {
          return false;
        }
        stack := PushItems(l, stack, items, p.depth + 1);
      case VDict(members) =>
        if |members| > l.members {
          return false;
        }
        var keysOk;
        stack, keysOk := PushMembers(l, stack, members, p.depth + 1);
        if !keysOk {
          return false;
        }
    }
    return true;
  }

  method PushItems(l: Limits, before: seq<Pending>, items: seq<Value>, depth: nat) returns (stack: seq<Pending>)
    ensures AllShapesOk(l, stack) <==>
              AllShapesOk(l, before) && forall i :: 0 <= i < |items| ==> ShapeOk(l, items[i], depth)
    ensures TodoWeight(stack) == TodoWeight(before) + ItemsWeight(items)
  {
    stack := before;
    for n := 0 to |items|
      invariant AllShapesOk(l, stack) <==>
                  AllShapesOk(l, before) && forall i :: 0 <= i < n ==> ShapeOk(l, items[i], depth)
      invariant TodoWeight(stack) == TodoWeight(before) + ItemsWeight(items[..n])
    {
      ghost var last := stack;
      TodoWeightPush(stack, Pending(items[n], depth));
      stack := stack + [Pending(items[n], depth)];
      assert items[..n + 1][..n] == items[..n];
      PushKeeps(l, last, Pending(items[n], depth));
    }
    assert items[..|items|] == items;
  }

  lemma PushKeeps(l: Limits, todo: seq<Pending>, p: Pending)
    ensures AllShapesOk(l, todo + [p]) <==> AllShapesOk(l, todo) && ShapeOk(l, p.value, p.depth)
  {
    var all := todo + [p];
    if AllShapesOk(l, all) {
      assert all[|todo|] == p;
      forall i | 0 <= i < |todo| ensures ShapeOk(l, todo[i].value, todo[i].depth) {
        assert all[i] == todo[i];
      }
    }
  }

  method PushMembers(l: Limits, before: seq<Pending>, members: seq<Pair>, depth: nat)
    returns (stack: seq<Pending>, keysOk: bool)
    ensures keysOk <==> forall i :: 0 <= i < |members| ==> TextOk(l, members[i].key)
    ensures keysOk ==>
              (AllShapesOk(l, stack) <==>
                AllShapesOk(l, before) && forall i :: 0 <= i < |members| ==> ShapeOk(l, members[i].value, depth))
    ensures keysOk ==> TodoWeight(stack) == TodoWeight(before) + MembersWeight(members)
  {
    stack := before;
    for n := 0 to |members|
      invariant forall i :: 0 <= i < n ==> TextOk(l, members[i].key)
      invariant AllShapesOk(l, stack) <==>
                  AllShapesOk(l, before) && forall i :: 0 <= i < n ==> ShapeOk(l, members[i].value, depth)
      invariant TodoWeight(stack) == TodoWeight(before) + MembersWeight(members[..n])
    {
      if !TextOk(l, members[n].key) {
        return stack, false;
      }
      ghost var last := stack;
      TodoWeightPush(stack, Pending(members[n].value, depth));
      stack := stack + [Pending(members[n].value, depth)];
      assert members[..n + 1][..n] == members[..n];
      PushKeeps(l, last, Pending(members[n].value, depth));
    }
    assert members[..|members|] == members;
    return stack, true;
  }

  // ---------------------------------------------------------------- scanner and value check agree

  /** A string token is at most six times as long as the text it stands for. */
  lemma {:induction false} TokenAtMostSixfold(ps: seq<Piece>)
    requires PiecesOk(ps) && TextBytes(Decode(ps)).Some?
    ensures TokenBytes(ps) <= 6 * TextBytes(Decode(ps)).value
    decreases |ps|
  {
    if ps != [] {
      var rest := ps[1..];
      var points := Decode(ps);
      match ps[0]
      case Plain(c) =>
        assert points[1..] == Decode(rest);
        TokenAtMostSixfold(rest);
      case Escape(c) =>
        assert points[1..] == Decode(rest);
        TokenAtMostSixfold(rest);
      case Unicode(h) =>
        if HighSurrogate(CodeUnit(h)) && |ps| > 1 && ps[1].Unicode? && LowSurrogate(CodeUnit(ps[1].hex)) {
          assert points[1..] == Decode(ps[2..]);
          assert TokenBytes(ps) == 12 + TokenBytes(ps[2..]) by { assert rest[1..] == ps[2..]; }
          TokenAtMostSixfold(ps[2..]);
        } else {
          assert points[1..] == Decode(rest);
          TokenAtMostSixfold(rest);
        }
    }
  }

  lemma {:induction false} ShapeImpliesWithin(l: Limits, d: Doc, level: nat)
    requires DocOk(d) && Load(d).Some? && ShapeOk(l, Load(d).value, level + 1)
    ensures Within(l, d, level)
    decreases d
  {
    match d
    case Atom(_) =>
    case Str(ps) => TokenAtMostSixfold(ps);
    case Arr(_, items) => ShapeItems(l, items, level + 1);
    case Obj(_, members) => ShapeMembers(l, members, [], level + 1);
  }

  lemma {:induction false} ShapeItems(l: Limits, es: Items, level: nat)
    requires ItemsOk(es) && LoadItems(es).Some?
    requires var vs := LoadItems(es).value; forall i :: 0 <= i < |vs| ==> ShapeOk(l, vs[i], level + 1)
    ensures ItemsWithin(l, es, level) && CountItems(es) == |LoadItems(es).value|
    decreases es
  {
    if es.Item? {
      var vs, tail := LoadItems(es).value, LoadItems(es.rest).value;
      assert vs[0] == Load(es.value).value;
      ShapeImpliesWithin(l, es.value, level);
      forall i | 0 <= i < |tail| ensures ShapeOk(l, tail[i], level + 1) {
        assert tail[i] == vs[i + 1];
      }
      ShapeItems(l, es.rest, level);
    }
  }

  lemma {:induction false} ShapeMembers(l: Limits, ms: Members, before: seq<Pair>, level: nat)
    requires MembersOk(ms) && LoadMembers(ms, before).Some?
    requires var vs := LoadMembers(ms, before).value;
             forall i :: |before| <= i < |vs| ==> TextOk(l, vs[i].key) && ShapeOk(l, vs[i].value, level + 1)
    ensures MembersWithin(l, ms, level) && |LoadMembers(ms, before).value| == |before| + CountMembers(ms)
    decreases ms
  {
    if ms.Member? {
      var pair := Pair(Decode(ms.key), Load(ms.value).value);
      LoadMembersKeeps(ms.rest, before + [pair]);
      assert LoadMembers(ms, before).value[|before|] == pair;
      TokenAtMostSixfold(ms.key);
      ShapeImpliesWithin(l, ms.value, level);
      ShapeMembers(l, ms.rest, before + [pair], level);
    }
  }

  lemma {:induction false} LoadMembersKeeps(ms: Members, before: seq<Pair>)
    requires MembersOk(ms) && LoadMembers(ms, before).Some?
    ensures before <= LoadMembers(ms, before).value
    decreases ms
  {
    if ms.Member? {
      LoadMembersKeeps(ms.rest, before + [Pair(Decode(ms.key), Load(ms.value).value)]);
    }
  }

  /** The scanner never refuses a text that the value check would have accepted: when the text
      parses, duplicate-free, to a value within the bounds, the scan passes. */
  lemma PreparseNeverOverrejects(l: Limits, before: string, d: Doc, after: string)
    requires Positive(l) && DocOk(d) && BlankText(before) && BlankText(after)
    requires Load(d).Some? && ShapeOk(l, Load(d).value, 1)
    ensures Verdict(ScanAll(l, START, before + Render(d) + after)) == None
  {
    ShapeImpliesWithin(l, d, 0);
    PreparseIsExact(l, before, d, after);
  }
}
