/** JSON texts as trees: every well-formed text of section 2 of RFC 8259 is a rendered document
    with its blanks, and every string token is a list of characters and escapes (section 7). */
module JsonGrammar {
  import opened Options
  import opened JsonIntake

  datatype Piece = Plain(c: char) | Escape(c: char) | Unicode(hex: string)

  datatype Doc =
    | Atom(text: string)
    | Str(pieces: seq<Piece>)
    | Arr(lead: string, items: Items)
    | Obj(lead: string, members: Members)

  datatype Items = NoItems | Item(before: string, value: Doc, after: string, rest: Items)

  datatype Members =
    | NoMembers
    | Member(before: string, key: seq<Piece>, mid: string, gap: string, value: Doc, after: string, rest: Members)

  // ---------------------------------------------------------------- well-formedness

  predicate HexDigit(c: char) { '0' <= c <= '9' || 'a' <= c <= 'f' || 'A' <= c <= 'F' }

  predicate PieceOk(p: Piece) {
    match p
    case Plain(c) => c != '"' && c != '\\'
    case Escape(c) => c in "\"\\/bfnrt"
    case Unicode(h) => |h| == 4 && HexDigit(h[0]) && HexDigit(h[1]) && HexDigit(h[2]) && HexDigit(h[3])
  }

  predicate PiecesOk(ps: seq<Piece>) { forall i :: 0 <= i < |ps| ==> PieceOk(ps[i]) }

  predicate BlankText(s: string) { forall i :: 0 <= i < |s| ==> Blank(s[i]) }

  /** A number, `true`, `false`, `null` or any other token without structure in it. */
  predicate AtomText(s: string) {
    |s| > 0 && forall i :: 0 <= i < |s| ==> !Blank(s[i]) && s[i] !in "\"{}[],"
  }

  predicate DocOk(d: Doc) {
    match d
    case Atom(text) => AtomText(text)
    case Str(ps) => PiecesOk(ps)
    case Arr(lead, items) => BlankText(lead) && ItemsOk(items)
    case Obj(lead, members) => BlankText(lead) && MembersOk(members)
  }

  predicate ItemsOk(es: Items) {
    es.Item? ==> BlankText(es.before) && DocOk(es.value) && BlankText(es.after) && ItemsOk(es.rest)
  }

  predicate MembersOk(ms: Members) {
    ms.Member? ==>
      && BlankText(ms.before) && PiecesOk(ms.key) && BlankText(ms.mid) && BlankText(ms.gap)
      && DocOk(ms.value) && BlankText(ms.after) && MembersOk(ms.rest)
  }

  // ---------------------------------------------------------------- rendering

  function RenderPiece(p: Piece): string {
    match p
    case Plain(c) => [c]
    case Escape(c) => ['\\', c]
    case Unicode(h) => ['\\', 'u'] + h
  }

  function RenderPieces(ps: seq<Piece>): string {
    if ps == [] then [] else RenderPiece(ps[0]) + RenderPieces(ps[1..])
  }

  function RenderString(ps: seq<Piece>): string { ['"'] + RenderPieces(ps) + ['"'] }

  function Render(d: Doc): string {
    match d
    case Atom(text) => text
    case Str(ps) => RenderString(ps)
    case Arr(lead, items) => ['['] + lead + RenderItems(items, true) + [']']
    case Obj(lead, members) => ['{'] + lead + RenderMembers(members, true) + ['}']
  }

  function Separator(first: bool): string { if first then [] else [','] }

  function RenderItems(es: Items, first: bool): string {
    match es
    case NoItems => []
    case Item(before, value, after, rest) =>
      Separator(first) + before + Render(value) + after + RenderItems(rest, false)
  }

  function RenderMembers(ms: Members, first: bool): string {
    match ms
    case NoMembers => []
    case Member(before, key, mid, gap, value, after, rest) =>
      Separator(first) + before + RenderString(key) + mid + [':'] + gap + Render(value) + after
      + RenderMembers(rest, false)
  }

  // ---------------------------------------------------------------- the bounds, on the tree

  function PieceBytes(p: Piece): nat {
    match p
    case Plain(c) => Utf8Length(c)
    case Escape(_) => 2
    case Unicode(_) => 6
  }

  /** The bytes of a string token as written, escapes included, quotes excluded. */
  function TokenBytes(ps: seq<Piece>): nat {
    if ps == [] then 0 else PieceBytes(ps[0]) + TokenBytes(ps[1..])
  }

  function CountItems(es: Items): nat { if es.NoItems? then 0 else 1 + CountItems(es.rest) }

  function CountMembers(ms: Members): nat { if ms.NoMembers? then 0 else 1 + CountMembers(ms.rest) }

  /** The document is within the bounds when it stands inside `level` containers. */
  predicate Within(l: Limits, d: Doc, level: nat) {
    match d
    case Atom(_) => true
    case Str(ps) => TokenBytes(ps) <= 6 * l.text
    case Arr(_, items) => level < l.depth && CountItems(items) <= l.items && ItemsWithin(l, items, level + 1)
    case Obj(_, members) =>
      level < l.depth && CountMembers(members) <= l.members && MembersWithin(l, members, level + 1)
  }

  predicate ItemsWithin(l: Limits, es: Items, level: nat) {
    es.Item? ==> Within(l, es.value, level) && ItemsWithin(l, es.rest, level)
  }

  predicate MembersWithin(l: Limits, ms: Members, level: nat) {
    ms.Member? ==> TokenBytes(ms.key) <= 6 * l.text && Within(l, ms.value, level) && MembersWithin(l, ms.rest, level)
  }

  // ---------------------------------------------------------------- scanning pieces of text

  predicate Resting(s: Scan) { s.Scanning? && !s.quoted && !s.escaped }

  lemma {:induction false} ScanBlanks(l: Limits, s: Scan, text: string)
    requires BlankText(text) && (s.Rejected? || !s.quoted)
    ensures ScanAll(l, s, text) == s
    decreases |text|
  {
    if |text| > 0 {
      ScanBlanks(l, s, text[1..]);
    }
  }

  lemma {:induction false} ScanAtomRest(l: Limits, s: Scan, text: string)
    requires Resting(s) && s.stack == MarkContent(s.stack)
    requires forall i :: 0 <= i < |text| ==> !Blank(text[i]) && text[i] !in "\"{}[],"
    ensures ScanAll(l, s, text) == s
    decreases |text|
  {
    if |text| > 0 {
      ScanAtomRest(l, s, text[1..]);
    }
  }

  lemma ScanAtom(l: Limits, s: Scan, text: string)
    requires Resting(s) && AtomText(text)
    ensures ScanAll(l, s, text) == s.(stack := MarkContent(s.stack))
  {
    assert ScanStep(l, s, text[0]) == s.(stack := MarkContent(s.stack));
    ScanAtomRest(l, s.(stack := MarkContent(s.stack)), text[1..]);
  }

  /** Inside a string token a piece adds its bytes, or ends the scan. */
  function AddBytes(l: Limits, s: Scan, n: nat): Scan
    requires s.Scanning?
  {
    if s.tokenBytes + n > l.text * 6 then Rejected(StringTooLong) else s.(tokenBytes := s.tokenBytes + n)
  }

  lemma ScanChar(l: Limits, s: Scan, c: char)
    ensures ScanAll(l, s, [c]) == ScanStep(l, s, c)
  { }

  lemma ScanHex(l: Limits, s: Scan, h: string)
    requires s.Scanning? && s.quoted && !s.escaped && s.tokenBytes <= l.text * 6
    requires forall i :: 0 <= i < |h| ==> HexDigit(h[i])
    ensures ScanAll(l, s, h) == AddBytes(l, s, |h|)
    decreases |h|
  {
    if |h| > 0 {
      var s' := ScanStep(l, s, h[0]);
      if s'.Rejected? {
        RejectedStays(l, s'.error, h[1..]);
      } else {
        ScanHex(l, s', h[1..]);
      }
    }
  }

  lemma ScanPiece(l: Limits, s: Scan, p: Piece)
    requires s.Scanning? && s.quoted && !s.escaped && s.tokenBytes <= l.text * 6 && PieceOk(p)
    ensures ScanAll(l, s, RenderPiece(p)) == AddBytes(l, s, PieceBytes(p))
  {
    match p
    case Plain(c) => ScanChar(l, s, c);
    case Escape(c) =>
      var s' := ScanStep(l, s, '\\');
      assert RenderPiece(p)[1..] == [c];
      ScanChar(l, s', c);
    case Unicode(h) =>
      var s' := ScanStep(l, s, '\\');
      assert RenderPiece(p)[1..] == ['u'] + h && (['u'] + h)[1..] == h;
      var s'' := ScanStep(l, s', 'u');
      if s'.Rejected? || s''.Rejected? {
        RejectedStays(l, StringTooLong, h);
      } else {
        ScanHex(l, s'', h);
      }
  }

  lemma {:induction false} ScanPieces(l: Limits, s: Scan, ps: seq<Piece>)
    requires s.Scanning? && s.quoted && !s.escaped && s.tokenBytes <= l.text * 6 && PiecesOk(ps)
    ensures ScanAll(l, s, RenderPieces(ps)) == AddBytes(l, s, TokenBytes(ps))
    decreases |ps|
  {
    if ps != [] {
      ScanConcat(l, s, RenderPiece(ps[0]), RenderPieces(ps[1..]));
      ScanPiece(l, s, ps[0]);
      var s' := AddBytes(l, s, PieceBytes(ps[0]));
      if s'.Rejected? {
        RejectedStays(l, s'.error, RenderPieces(ps[1..]));
      } else {
        ScanPieces(l, s', ps[1..]);
      }
    }
  }
}
