/** The scanner on arbitrary texts, well-formed JSON or not: it accepts exactly those that fall into
    closed strings and matching brackets within the bounds. */
module JsonBalance {
  import opened Options
  import opened JsonIntake
  import opened JsonGrammar

  /** A character outside strings that is no bracket, a string with its raw body, or a pair of
      matching brackets with what stands between them. */
  datatype Part = Char(c: char) | Quote(body: string) | Box(open: char, inside: seq<Part>)

  function CloseOf(open: char): char { if open == '{' then '}' else ']' }

  /** A raw string body: no quote that is not escaped, and no escape that is cut off. */
  predicate BodyOk(body: string) {
    body == [] || (body[0] != '"' && if body[0] == '\\' then |body| > 1 && BodyOk(body[2..]) else BodyOk(body[1..]))
  }

  predicate PartOk(p: Part) {
    match p
    case Char(c) => c !in "\"{}[]"
    case Quote(body) => BodyOk(body)
    case Box(open, inside) => (open == '{' || open == '[') && forall i :: 0 <= i < |inside| ==> PartOk(inside[i])
  }

  predicate PartsOk(ps: seq<Part>) { forall i :: 0 <= i < |ps| ==> PartOk(ps[i]) }

  function RenderPart(p: Part): string {
    match p
    case Char(c) => [c]
    case Quote(body) => ['"'] + body + ['"']
    case Box(open, inside) => [open] + RenderParts(inside) + [CloseOf(open)]
  }

  function RenderParts(ps: seq<Part>): string {
    if ps == [] then [] else RenderParts(ps[..|ps| - 1]) + RenderPart(ps[|ps| - 1])
  }

  function RawBytes(body: string): nat {
    if body == [] then 0 else RawBytes(body[..|body| - 1]) + Utf8Length(body[|body| - 1])
  }

  /** Commas that stand directly among these parts. */
  function CommaCount(ps: seq<Part>): nat {
    if ps == [] then 0 else CommaCount(ps[..|ps| - 1]) + if ps[|ps| - 1] == Char(',') then 1 else 0
  }

  /** The bounds of a part that stands inside `level` brackets. */
  predicate PartWithin(l: Limits, p: Part, level: nat) {
    match p
    case Char(_) => true
    case Quote(body) => RawBytes(body) <= 6 * l.text
    case Box(open, inside) =>
      && level < l.depth && CommaCount(inside) + 1 <= Bound(l, open)
      && forall i :: 0 <= i < |inside| ==> PartWithin(l, inside[i], level + 1)
  }

  predicate PartsWithin(l: Limits, ps: seq<Part>, level: nat) {
    forall i :: 0 <= i < |ps| ==> PartWithin(l, ps[i], level)
  }

  lemma {:induction false} OnePartMore(l: Limits, ps: seq<Part>, p: Part, level: nat)
    ensures RenderParts(ps + [p]) == RenderParts(ps) + RenderPart(p)
    ensures CommaCount(ps + [p]) == CommaCount(ps) + if p == Char(',') then 1 else 0
    ensures PartsOk(ps) && PartOk(p) ==> PartsOk(ps + [p])
    ensures PartsWithin(l, ps, level) && PartWithin(l, p, level) ==> PartsWithin(l, ps + [p], level)
  {
    assert (ps + [p])[..|ps|] == ps;
  }

  lemma {:induction false} BytesMore(body: string, c: char)
    ensures RawBytes(body + [c]) == RawBytes(body) + Utf8Length(c)
  {
    assert (body + [c])[..|body|] == body;
  }

  // ---------------------------------------------------------------- from the text to its parts

  /** A string body that is being read: `escaped` when the last character is an escape still open. */
  predicate Pending(body: string, escaped: bool) {
    if escaped then body != [] && body[|body| - 1] == '\\' && BodyOk(body[..|body| - 1]) else BodyOk(body)
  }

  lemma {:induction false} BodyMore(body: string, more: string)
    requires BodyOk(body) && BodyOk(more)
    ensures BodyOk(body + more)
    decreases |body|
  {
    if body == [] {
      assert body + more == more;
    } else {
      var n := if body[0] == '\\' then 2 else 1;
      assert (body + more)[n..] == body[n..] + more;
      BodyMore(body[n..], more);
    }
  }

  lemma {:induction false} PendingMore(body: string, escaped: bool, c: char)
    requires Pending(body, escaped) && (escaped || c != '"')
    ensures Pending(body + [c], !escaped && c == '\\')
  {
    if escaped {
      var front := body[..|body| - 1];
      assert BodyOk(['\\', c]) by { assert ['\\', c][2..] == []; }
      BodyMore(front, ['\\', c]);
      assert body + [c] == front + ['\\', c];
    } else if c == '\\' {
      assert (body + [c])[..|body|] == body;
    } else {
      assert BodyOk([c]) by { assert [c][1..] == []; }
      BodyMore(body, [c]);
    }
  }

  datatype Open = Open(open: char, parts: seq<Part>)

  /** A text read so far: its parts, the brackets still open with theirs, and the string being read. */
  datatype Partial = Partial(base: seq<Part>, opens: seq<Open>, body: Option<string>)

  function RenderOpens(os: seq<Open>): string {
    if os == [] then [] else
      var o := os[|os| - 1];
      RenderOpens(os[..|os| - 1]) + [o.open] + RenderParts(o.parts)
  }

  function RenderPartial(p: Partial): string {
    RenderParts(p.base) + RenderOpens(p.opens) + if p.body.Some? then ['"'] + p.body.value else []
  }

  function AddPart(p: Partial, part: Part): Partial {
    if p.opens == [] then Partial(p.base + [part], [], None)
    else
      var n := |p.opens| - 1;
      Partial(p.base, p.opens[..n] + [Open(p.opens[n].open, p.opens[n].parts + [part])], None)
  }

  lemma {:induction false} NoBody(p: Partial)
    requires p.body.None?
    ensures RenderPartial(p) == RenderParts(p.base) + RenderOpens(p.opens)
  {
    hide RenderParts, RenderOpens;
  }

  lemma {:induction false} AddedText(p: Partial, part: Part)
    requires p.body.None?
    ensures RenderPartial(AddPart(p, part)) == RenderPartial(p) + RenderPart(part)
  {
    var p' := AddPart(p, part);
    NoBody(p);
    NoBody(p');
    assert RenderOpens([]) == "";
    hide RenderPartial, RenderParts, RenderPart, RenderOpens;
    if p.opens == [] {
      RenderMore(p.base, part);
    } else {
      var n := |p.opens| - 1;
      assert p.opens == p.opens[..n] + [p.opens[n]];
      AddedToLast(p.opens[..n], p.opens[n], part);
      Glue(RenderParts(p.base), RenderOpens(p.opens), RenderPart(part));
    }
  }

  lemma {:induction false} AddedToLast(os: seq<Open>, o: Open, part: Part)
    ensures RenderOpens(os + [Open(o.open, o.parts + [part])]) == RenderOpens(os + [o]) + RenderPart(part)
  {
    RenderMore(o.parts, part);
    OpensMore(os, Open(o.open, o.parts + [part]));
    OpensMore(os, o);
    hide RenderParts, RenderPart, RenderOpens;
    Glue(RenderOpens(os) + [o.open], RenderParts(o.parts), RenderPart(part));
  }

  lemma {:induction false} OpensMore(os: seq<Open>, o: Open)
    ensures RenderOpens(os + [o]) == RenderOpens(os) + [o.open] + RenderParts(o.parts)
  {
    assert (os + [o])[..|os|] == os;
  }

  lemma {:induction false} Glue(a: string, b: string, c: string)
    ensures a + (b + c) == (a + b) + c
  {
  }

  lemma {:induction false} RenderMore(ps: seq<Part>, p: Part)
    ensures RenderParts(ps + [p]) == RenderParts(ps) + RenderPart(p)
  {
    assert (ps + [p])[..|ps|] == ps;
  }

  /** A scanner frame and the bracket it stands for, `level` deep. */
  predicate FrameTied(l: Limits, f: Frame, o: Open, level: nat) {
    && f == Frame(o.open, CommaCount(o.parts), true) && (o.open == '{' || o.open == '[')
    && f.commas + 1 <= Bound(l, o.open) && level <= l.depth
    && PartsOk(o.parts) && PartsWithin(l, o.parts, level)
  }

  predicate StackTied(l: Limits, stack: seq<Frame>, p: Partial) {
    && |stack| == |p.opens| && PartsOk(p.base) && PartsWithin(l, p.base, 0)
    && forall i :: 0 <= i < |stack| ==> FrameTied(l, stack[i], p.opens[i], i + 1)
  }

  predicate BodyTied(l: Limits, s: Scan, p: Partial)
    requires s.Scanning?
  {
    if s.quoted
    then p.body.Some? && Pending(p.body.value, s.escaped) && s.tokenBytes == RawBytes(p.body.value) <= 6 * l.text
    else p.body.None? && !s.escaped
  }

  predicate Tied(l: Limits, s: Scan, p: Partial) { s.Scanning? && StackTied(l, s.stack, p) && BodyTied(l, s, p) }

  lemma {:induction false} TiedMarked(l: Limits, stack: seq<Frame>, p: Partial)
    requires StackTied(l, stack, p)
    ensures MarkContent(stack) == stack
  {
    if stack != [] {
      assert FrameTied(l, stack[|stack| - 1], p.opens[|stack| - 1], |stack|);
    }
  }

  /** The stack when a part has been completed: the innermost bracket counts it if it is a comma. */
  function Counted(stack: seq<Frame>, n: nat): seq<Frame> {
    if stack == [] then [] else SetTop(stack, Top(stack).(commas := Top(stack).commas + n))
  }

  function IsComma(part: Part): nat { if part == Char(',') then 1 else 0 }

  lemma {:induction false} PartAdded(l: Limits, stack: seq<Frame>, p: Partial, part: Part)
    requires StackTied(l, stack, p) && PartOk(part) && PartWithin(l, part, |stack|)
    requires stack != [] ==> Top(stack).commas + IsComma(part) + 1 <= Bound(l, Top(stack).open)
    ensures StackTied(l, Counted(stack, IsComma(part)), AddPart(p, part))
  {
    hide PartOk, PartWithin, RenderParts, RenderPart;
    if stack == [] {
      OnePartMore(l, p.base, part, 0);
    } else {
      var n := |stack| - 1;
      assert FrameTied(l, stack[n], p.opens[n], n + 1);
      OnePartMore(l, p.opens[n].parts, part, n + 1);
      hide CommaCount, PartsOk, PartsWithin;
      var stack', p' := Counted(stack, IsComma(part)), AddPart(p, part);
      forall i | 0 <= i < |stack'| ensures FrameTied(l, stack'[i], p'.opens[i], i + 1) {
        if i < n {
          assert stack'[i] == stack[i] && p'.opens[i] == p.opens[i];
        }
      }
    }
  }

  lemma {:induction false} QuoteEnds(l: Limits, s: Scan, p: Partial) returns (p': Partial)
    requires Tied(l, s, p) && s.quoted && !s.escaped
    ensures Tied(l, Scanning(s.stack, false, false, s.tokenBytes), p')
    ensures RenderPartial(p') == RenderPartial(p) + ['"']
  {
    var before, quote := p.(body := None), Quote(p.body.value);
    p' := AddPart(before, quote);
    AddedText(before, quote);
    QuoteText(p);
    BodyOnly(l, s.stack, p, None);
    QuoteFits(l, s.stack, p);
    CountedNone(s.stack);
    assert PartOk(quote) && PartWithin(l, quote, |s.stack|) && IsComma(quote) == 0;
    hide StackTied, RenderPartial, PartOk, PartWithin, Counted, IsComma, RenderPart, Bound;
    PartAdded(l, s.stack, before, quote);
  }

  lemma {:induction false} QuoteText(p: Partial)
    requires p.body.Some?
    ensures RenderPartial(p.(body := None)) + RenderPart(Quote(p.body.value)) == RenderPartial(p) + ['"']
  {
    hide RenderParts, RenderOpens;
  }

  lemma {:induction false} QuoteGoesOn(l: Limits, s: Scan, p: Partial, c: char) returns (p': Partial)
    requires Tied(l, s, p) && s.quoted && (s.escaped || c != '"') && QuotedStep(l, s, c).Scanning?
    ensures Tied(l, QuotedStep(l, s, c), p') && RenderPartial(p') == RenderPartial(p) + [c]
  {
    var body := p.body.value;
    p' := p.(body := Some(body + [c]));
    PendingMore(body, s.escaped, c);
    BytesMore(body, c);
    BodyOnly(l, s.stack, p, p'.body);
    BodyText(p, c);
    hide Pending, RawBytes, RenderPartial, StackTied, Utf8Length;
    assert c == '\\' ==> Utf8Length(c) == 1 by { BackslashBytes(); }
  }

  lemma {:induction false} BackslashBytes()
    ensures Utf8Length('\\') == 1
  {
  }

  lemma {:induction false} BodyText(p: Partial, c: char)
    requires p.body.Some?
    ensures RenderPartial(p.(body := Some(p.body.value + [c]))) == RenderPartial(p) + [c]
  {
    hide RenderParts, RenderOpens;
    var front := RenderParts(p.base) + RenderOpens(p.opens);
    Glue(['"'], p.body.value, [c]);
    Glue(front, ['"'] + p.body.value, [c]);
  }

  lemma {:induction false} BodyOnly(l: Limits, stack: seq<Frame>, p: Partial, body: Option<string>)
    requires StackTied(l, stack, p)
    ensures StackTied(l, stack, p.(body := body))
  {
  }

  lemma {:induction false} QuoteFits(l: Limits, stack: seq<Frame>, p: Partial)
    requires StackTied(l, stack, p)
    ensures stack != [] ==> Top(stack).commas + 1 <= Bound(l, Top(stack).open)
  {
    if stack != [] {
      assert FrameTied(l, stack[|stack| - 1], p.opens[|stack| - 1], |stack|);
    }
  }

  lemma {:induction false} CountedNone(stack: seq<Frame>)
    ensures Counted(stack, 0) == stack
  {
  }

  /** A character outside strings that changes no bracket; a comma is counted by the innermost one. */
  lemma {:induction false} CharTied(l: Limits, s: Scan, p: Partial, c: char) returns (p': Partial)
    requires Tied(l, s, p) && !s.quoted && c !in "\"{}[]"
    requires s.stack != [] && c == ',' ==> Top(s.stack).commas + 1 < Bound(l, Top(s.stack).open)
    ensures Tied(l, s.(stack := Counted(s.stack, IsComma(Char(c)))), p')
    ensures RenderPartial(p') == RenderPartial(p) + [c]
  {
    p' := AddPart(p, Char(c));
    AddedText(p, Char(c));
    QuoteFits(l, s.stack, p);
    hide StackTied, RenderPartial;
    PartAdded(l, s.stack, p, Char(c));
    hide Counted;
  }

  lemma {:induction false} OpenTied(l: Limits, s: Scan, p: Partial, c: char) returns (p': Partial)
    requires Positive(l) && Tied(l, s, p) && !s.quoted && (c == '{' || c == '[') && |s.stack| + 1 <= l.depth
    ensures Tied(l, s.(stack := s.stack + [Frame(c, 0, true)]), p')
    ensures RenderPartial(p') == RenderPartial(p) + [c]
  {
    p' := p.(opens := p.opens + [Open(c, [])]);
    OpensMore(p.opens, Open(c, []));
    assert RenderParts([]) == "";
    assert FrameTied(l, Frame(c, 0, true), Open(c, []), |s.stack| + 1);
    hide FrameTied, RenderParts, RenderOpens, PartsOk, PartsWithin;
    Glue(RenderParts(p.base), RenderOpens(p.opens), [c]);
    assert RenderOpens(p.opens) + [c] + "" == RenderOpens(p.opens) + [c];
  }

  lemma {:induction false} CloseTied(l: Limits, s: Scan, p: Partial, c: char) returns (p': Partial)
    requires Tied(l, s, p) && !s.quoted && s.stack != [] && Closes(Top(s.stack).open, c)
    ensures Tied(l, s.(stack := s.stack[..|s.stack| - 1]), p')
    ensures RenderPartial(p') == RenderPartial(p) + [c]
  {
    var n := |s.stack| - 1;
    var o := p.opens[n];
    var front, box := p.(opens := p.opens[..n]), Box(o.open, o.parts);
    assert FrameTied(l, s.stack[n], o, n + 1);
    p' := AddPart(front, box);
    AddedText(front, box);
    BoxText(p);
    assert StackTied(l, s.stack[..n], front);
    QuoteFits(l, s.stack[..n], front);
    CountedNone(s.stack[..n]);
    assert PartOk(box) && PartWithin(l, box, n);
    assert c == CloseOf(o.open) && IsComma(box) == 0;
    hide StackTied, FrameTied, RenderPartial, RenderPart, PartOk, PartWithin, Counted, IsComma;
    PartAdded(l, s.stack[..n], front, box);
  }

  lemma {:induction false} BoxText(p: Partial)
    requires p.opens != [] && p.body.None?
    ensures var n := |p.opens| - 1;
            var o := p.opens[n];
            RenderPartial(p.(opens := p.opens[..n])) + RenderPart(Box(o.open, o.parts))
            == RenderPartial(p) + [CloseOf(o.open)]
  {
    hide RenderParts;
    var n := |p.opens| - 1;
    var o := p.opens[n];
    assert RenderOpens(p.opens) == RenderOpens(p.opens[..n]) + [o.open] + RenderParts(o.parts);
  }

  lemma {:induction false} PlainTied(l: Limits, s: Scan, p: Partial, c: char) returns (p': Partial)
    requires Positive(l) && Tied(l, s, p) && !s.quoted && PlainStep(l, s, c).Scanning?
    ensures Tied(l, PlainStep(l, s, c), p') && RenderPartial(p') == RenderPartial(p) + [c]
  {
    TiedMarked(l, s.stack, p);
    if c == '"' {
      p' := p.(body := Some(""));
      BodyOnly(l, s.stack, p, Some(""));
      assert Pending("", false) && RawBytes("") == 0;
      hide StackTied, RenderParts, RenderOpens, MarkContent, Pending, RawBytes;
    } else if c == '{' || c == '[' {
      p' := OpenTied(l, s, p, c);
      hide Tied;
      PushMarked(s.stack, c);
    } else if c == '}' || c == ']' {
      p' := CloseTied(l, s, p, c);
      assert MarkContent(s.stack[..|s.stack| - 1]) == s.stack[..|s.stack| - 1] by {
        TiedMarked(l, s.stack[..|s.stack| - 1], p');
      }
      hide Tied;
    } else {
      p' := CharTied(l, s, p, c);
      CommaMarked(l, s, p, c);
      hide Tied;
    }
  }

  lemma {:induction false} PushMarked(stack: seq<Frame>, c: char)
    ensures MarkContent(stack + [Frame(c, 0, false)]) == stack + [Frame(c, 0, true)]
  {
  }

  lemma {:induction false} CommaMarked(l: Limits, s: Scan, p: Partial, c: char)
    requires Tied(l, s, p) && !s.quoted && c !in "\"{}[]" && PlainStep(l, s, c).Scanning?
    ensures PlainStep(l, s, c) == s.(stack := Counted(s.stack, IsComma(Char(c))))
  {
    TiedMarked(l, s.stack, p);
    CountedNone(s.stack);
    if s.stack != [] {
      assert FrameTied(l, s.stack[|s.stack| - 1], p.opens[|s.stack| - 1], |s.stack|);
    }
  }

  /** Whatever the scan has read without an error falls into parts, open brackets and an open string. */
  lemma {:induction false} ScanReads(l: Limits, text: string) returns (p: Partial)
    requires Positive(l) && ScanAll(l, START, text).Scanning?
    ensures Tied(l, ScanAll(l, START, text), p) && RenderPartial(p) == text
  {
    if text == [] {
      p := Partial([], [], None);
    } else {
      var front, c := text[..|text| - 1], text[|text| - 1];
      assert text == front + [c];
      ScanConcat(l, START, front, [c]);
      var s := ScanAll(l, START, front);
      ScanChar(l, s, c);
      var before := ScanReads(l, front);
      hide RenderPartial, Tied, PlainStep, QuotedStep;
      assert s.quoted ==> ScanStep(l, s, c) == QuotedStep(l, s, c);
      if !s.quoted {
        p := PlainTied(l, s, before, c);
      } else if !s.escaped && c == '"' {
        p := QuoteEnds(l, s, before);
        QuoteStep(l, s);
      } else {
        p := QuoteGoesOn(l, s, before, c);
      }
    }
  }

  lemma {:induction false} QuoteStep(l: Limits, s: Scan)
    requires s.Scanning? && s.quoted && !s.escaped && QuotedStep(l, s, '"').Scanning?
    ensures QuotedStep(l, s, '"') == Scanning(s.stack, false, false, s.tokenBytes)
  {
  }

  // ---------------------------------------------------------------- from the parts to the text

  predicate Marked(stack: seq<Frame>) { forall i :: 0 <= i < |stack| ==> stack[i].content }

  /** The scan is between tokens in this stack, whatever string it read last. */
  predicate RestsIn(s: Scan, stack: seq<Frame>) { Resting(s) && s.stack == stack && Marked(stack) }

  lemma {:induction false} BytesSplit(a: string, b: string)
    ensures RawBytes(a + b) == RawBytes(a) + RawBytes(b)
  {
    if b == [] {
      assert a + b == a;
    } else {
      BytesSplit(a, b[..|b| - 1]);
      assert (a + b)[..|a + b| - 1] == a + b[..|b| - 1];
    }
  }

  lemma {:induction false} ScanBody(l: Limits, s: Scan, body: string)
    requires s.Scanning? && s.quoted && !s.escaped && BodyOk(body) && s.tokenBytes + RawBytes(body) <= 6 * l.text
    ensures ScanAll(l, s, body) == s.(tokenBytes := s.tokenBytes + RawBytes(body))
    decreases |body|
  {
    if body != [] {
      var n := if body[0] == '\\' then 2 else 1;
      assert body == body[..n] + body[n..];
      BytesSplit(body[..n], body[n..]);
      ScanHead(l, s, body[..n]);
      ScanConcat(l, s, body[..n], body[n..]);
      hide ScanAll, RawBytes;
      ScanBody(l, s.(tokenBytes := s.tokenBytes + RawBytes(body[..n])), body[n..]);
    }
  }

  /** One character of a string body, or an escape and the character after it. */
  lemma {:induction false} ScanHead(l: Limits, s: Scan, head: string)
    requires s.Scanning? && s.quoted && !s.escaped && s.tokenBytes + RawBytes(head) <= 6 * l.text
    requires |head| == if head != [] && head[0] == '\\' then 2 else 1
    requires head[0] != '"'
    ensures ScanAll(l, s, head) == s.(tokenBytes := s.tokenBytes + RawBytes(head))
  {
    if |head| == 1 {
      assert head == [head[0]] && RawBytes(head[..0]) == 0;
      ScanChar(l, s, head[0]);
    } else {
      assert head[1..] == [head[1]] && head[..|head| - 1] == head[..1] == ['\\'] && head[..1][..0] == [];
      assert RawBytes(head[..1]) == RawBytes([]) + Utf8Length('\\');
      assert RawBytes(head) == RawBytes(head[..1]) + Utf8Length(head[1]);
      ScanChar(l, ScanStep(l, s, head[0]), head[1]);
    }
  }

  lemma {:induction false} ScanQuote(l: Limits, s: Scan, body: string)
    requires Resting(s) && Marked(s.stack) && BodyOk(body) && RawBytes(body) <= 6 * l.text
    ensures RestsIn(ScanAll(l, s, RenderPart(Quote(body))), s.stack)
  {
    MarkedStays(s.stack);
    var s1 := Scanning(s.stack, true, false, 0);
    assert ScanStep(l, s, '"') == s1;
    ScanChar(l, s, '"');
    ScanConcat(l, s, ['"'], body + ['"']);
    assert RenderPart(Quote(body)) == ['"'] + (body + ['"']);
    ScanConcat(l, s1, body, ['"']);
    ScanBody(l, s1, body);
    var s2 := s1.(tokenBytes := RawBytes(body));
    ScanChar(l, s2, '"');
    QuoteStep(l, s2);
    hide ScanAll, RawBytes, BodyOk, MarkContent;
  }

  lemma {:induction false} MarkedStays(stack: seq<Frame>)
    requires Marked(stack)
    ensures MarkContent(stack) == stack
  {
  }

  /** Room for `n` more commas in the innermost bracket. */
  predicate Room(l: Limits, stack: seq<Frame>, n: nat) {
    stack != [] ==> Top(stack).commas + n + 1 <= Bound(l, Top(stack).open)
  }

  lemma {:induction false} ScanCharPart(l: Limits, s: Scan, c: char)
    requires Resting(s) && Marked(s.stack) && c !in "\"{}[]" && Room(l, s.stack, IsComma(Char(c)))
    ensures RestsIn(ScanAll(l, s, [c]), Counted(s.stack, IsComma(Char(c))))
  {
    MarkedStays(s.stack);
    ScanChar(l, s, c);
    CountedNone(s.stack);
  }

  lemma {:induction false} ScanPart(l: Limits, s: Scan, p: Part)
    requires Positive(l) && Resting(s) && Marked(s.stack) && PartOk(p) && PartWithin(l, p, |s.stack|)
    requires Room(l, s.stack, IsComma(p))
    ensures RestsIn(ScanAll(l, s, RenderPart(p)), Counted(s.stack, IsComma(p)))
    decreases p
  {
    CountedNone(s.stack);
    match p
    case Char(c) =>
      ScanCharPart(l, s, c);
    case Quote(body) =>
      ScanQuote(l, s, body);
    case Box(open, inside) =>
      var s1 := s.(stack := s.stack + [Frame(open, 0, true)]);
      ScanBoxOpen(l, s, open);
      assert PartsOk(inside) && PartsWithin(l, inside, |s1.stack|);
      ScanParts(l, s1, inside);
      hide PartOk, PartWithin, PartsOk, PartsWithin, ScanAll;
      ScanBoxClose(l, s, s1, open, inside);
  }

  lemma {:induction false} ScanBoxOpen(l: Limits, s: Scan, open: char)
    requires Resting(s) && Marked(s.stack) && (open == '{' || open == '[') && |s.stack| < l.depth
    ensures var s1 := s.(stack := s.stack + [Frame(open, 0, true)]);
            ScanAll(l, s, [open]) == s1 && RestsIn(s1, s1.stack)
  {
    ScanChar(l, s, open);
    PushMarked(s.stack, open);
  }

  lemma {:induction false} ScanBoxClose(l: Limits, s: Scan, s1: Scan, open: char, inside: seq<Part>)
    requires Resting(s) && Marked(s.stack) && s1 == s.(stack := s.stack + [Frame(open, 0, true)])
    requires (open == '{' || open == '[') && CommaCount(inside) + 1 <= Bound(l, open)
    requires ScanAll(l, s, [open]) == s1
    requires RestsIn(ScanAll(l, s1, RenderParts(inside)), Counted(s1.stack, CommaCount(inside)))
    ensures RestsIn(ScanAll(l, s, RenderPart(Box(open, inside))), s.stack)
  {
    var text, close := RenderParts(inside), CloseOf(open);
    Glue([open], text, [close]);
    ScanConcat(l, s, [open], text + [close]);
    ScanConcat(l, s1, text, [close]);
    var s2, n := ScanAll(l, s1, text), CommaCount(inside);
    ScanChar(l, s2, close);
    hide ScanAll, RenderParts, CommaCount;
    CloseStep(l, s.stack, s2, open, n);
  }

  lemma {:induction false} CloseStep(l: Limits, stack: seq<Frame>, s2: Scan, open: char, n: nat)
    requires Marked(stack) && (open == '{' || open == '[') && n + 1 <= Bound(l, open)
    requires RestsIn(s2, Counted(stack + [Frame(open, 0, true)], n))
    ensures RestsIn(ScanStep(l, s2, CloseOf(open)), stack)
  {
    CountedPush(stack, open, n);
    MarkedStays(stack);
    hide Counted, MarkContent, Bound, Marked;
    assert Top(s2.stack) == Frame(open, n, true) && s2.stack[..|stack|] == stack;
    ClosesItself(open);
    hide Closes, CloseOf;
  }

  lemma {:induction false} ClosesItself(open: char)
    requires open == '{' || open == '['
    ensures Closes(open, CloseOf(open)) && (CloseOf(open) == '}' || CloseOf(open) == ']')
  {
  }

  lemma {:induction false} CountedPush(stack: seq<Frame>, open: char, n: nat)
    ensures Counted(stack + [Frame(open, 0, true)], n) == stack + [Frame(open, n, true)]
  {
  }

  lemma {:induction false} ScanParts(l: Limits, s: Scan, ps: seq<Part>)
    requires Positive(l) && Resting(s) && Marked(s.stack) && PartsOk(ps) && PartsWithin(l, ps, |s.stack|)
    requires Room(l, s.stack, CommaCount(ps))
    ensures RestsIn(ScanAll(l, s, RenderParts(ps)), Counted(s.stack, CommaCount(ps)))
    decreases ps
  {
    hide ScanAll, RenderPart, PartOk, PartWithin, IsComma, Room, Counted;
    if ps == [] {
      NothingToScan(l, s);
    } else {
      var front, p := ps[..|ps| - 1], ps[|ps| - 1];
      LastPart(l, ps, |s.stack|);
      hide RenderParts, CommaCount, PartsOk, PartsWithin, RestsIn, Marked, Resting;
      RoomLeft(l, s.stack, CommaCount(front), IsComma(p));
      ScanParts(l, s, front);
      ScanConcat(l, s, RenderParts(front), RenderPart(p));
      var s1 := ScanAll(l, s, RenderParts(front));
      CountedTwice(s.stack, CommaCount(front), IsComma(p));
      RestsMeans(s1, Counted(s.stack, CommaCount(front)));
      ScanPart(l, s1, p);
    }
  }

  lemma {:induction false} NothingToScan(l: Limits, s: Scan)
    requires Resting(s) && Marked(s.stack)
    ensures RestsIn(ScanAll(l, s, RenderParts([])), Counted(s.stack, CommaCount([])))
  {
    CountedNone(s.stack);
  }

  lemma {:induction false} LastPart(l: Limits, ps: seq<Part>, level: nat)
    requires ps != [] && PartsOk(ps) && PartsWithin(l, ps, level)
    ensures var front, p := ps[..|ps| - 1], ps[|ps| - 1];
            && PartsOk(front) && PartsWithin(l, front, level) && PartOk(p) && PartWithin(l, p, level)
            && CommaCount(ps) == CommaCount(front) + IsComma(p)
            && RenderParts(ps) == RenderParts(front) + RenderPart(p)
  {
  }

  lemma {:induction false} RestsMeans(s: Scan, stack: seq<Frame>)
    requires RestsIn(s, stack)
    ensures s.Scanning? && Resting(s) && Marked(s.stack) && s.stack == stack
  {
  }

  lemma {:induction false} RoomLeft(l: Limits, stack: seq<Frame>, n: nat, m: nat)
    requires Room(l, stack, n + m)
    ensures Room(l, stack, n) && Room(l, Counted(stack, n), m)
  {
  }

  lemma {:induction false} CountedTwice(stack: seq<Frame>, n: nat, m: nat)
    ensures Counted(Counted(stack, n), m) == Counted(stack, n + m)
    ensures |Counted(stack, n)| == |stack|
  {
  }

  // ---------------------------------------------------------------- acceptance

  /** The text falls into parts that are within the bounds. */
  ghost predicate Balanced(l: Limits, text: string) {
    exists ps :: RenderParts(ps) == text && PartsOk(ps) && PartsWithin(l, ps, 0)
  }

  /** Of all texts, JSON or not, the scanner accepts exactly those whose strings are closed and whose
      brackets outside strings match, nested no deeper than the bound, with no more commas between
      two brackets and no longer strings than the bounds allow. */
  lemma {:induction false} AcceptsExactlyBalanced(l: Limits, text: string)
    requires Positive(l)
    ensures Verdict(ScanAll(l, START, text)) == None <==> Balanced(l, text)
  {
    if Verdict(ScanAll(l, START, text)) == None {
      var p := ScanReads(l, text);
      hide ScanAll, RenderParts;
      assert RenderParts(p.base) == text && PartsOk(p.base) && PartsWithin(l, p.base, 0);
    }
    if Balanced(l, text) {
      var ps :| RenderParts(ps) == text && PartsOk(ps) && PartsWithin(l, ps, 0);
      ScanParts(l, START, ps);
      hide ScanAll, RenderParts;
    }
  }
}
