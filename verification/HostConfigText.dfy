/** Host configuration text: removing comments and trailing commas before it is parsed. */
module HostConfigText {
  /** Outside strings, or inside one that the quote character opened. */
  datatype Mode = Plain | Quoted(quote: char, escaped: bool)

  predicate IsQuote(c: char) { c == '"' || c == '\'' }

  predicate IsBreak(c: char) { c == '\r' || c == '\n' }

  function InQuote(m: Mode, c: char): Mode
    requires m.Quoted?
  {
    if m.escaped then Quoted(m.quote, false)
    else if c == '\\' then Quoted(m.quote, true)
    else if c == m.quote then Plain
    else m
  }

  /** The mode after reading one more character, comments apart. */
  function Next(m: Mode, c: char): Mode {
    if m.Quoted? then InQuote(m, c) else if IsQuote(c) then Quoted(c, false) else Plain
  }

  function ModeAfter(s: string, m: Mode): Mode
    decreases |s|
  {
    if |s| == 0 then m else Next(ModeAfter(s[..|s| - 1], m), s[|s| - 1])
  }

  // ---------------------------------------------------------------- comments

  predicate Opens(s: string, second: char) { |s| >= 2 && s[0] == '/' && s[1] == second }

  function AfterLine(s: string): (rest: string)
    ensures |rest| <= |s|
    decreases |s|
  {
    if |s| == 0 || IsBreak(s[0]) then s else AfterLine(s[1..])
  }

  /** The text without its comments. Line breaks stay, also those inside block comments. The last
      character of a block comment that is never closed counts as ordinary text. */
  function WithoutComments(s: string, m: Mode): string
    decreases |s|, 1
  {
    if |s| == 0 then []
    else if m.Quoted? then [s[0]] + WithoutComments(s[1..], InQuote(m, s[0]))
    else if IsQuote(s[0]) then [s[0]] + WithoutComments(s[1..], Quoted(s[0], false))
    else if Opens(s, '/') then WithoutComments(AfterLine(s[2..]), Plain)
    else if Opens(s, '*') then AfterBlock(s[2..])
    else [s[0]] + WithoutComments(s[1..], Plain)
  }

  function AfterBlock(s: string): string
    decreases |s|, 2
  {
    if |s| < 2 then WithoutComments(s, Plain)
    else if s[0] == '*' && s[1] == '/' then WithoutComments(s[2..], Plain)
    else if IsBreak(s[0]) then [s[0]] + AfterBlock(s[1..])
    else AfterBlock(s[1..])
  }

  /** No comment opens anywhere outside a string. */
  predicate CommentFree(s: string, m: Mode)
    decreases |s|
  {
    |s| > 0 ==>
      if m.Quoted? then CommentFree(s[1..], InQuote(m, s[0]))
      else if IsQuote(s[0]) then CommentFree(s[1..], Quoted(s[0], false))
      else !Opens(s, '/') && !Opens(s, '*') && CommentFree(s[1..], Plain)
  }

  lemma {:induction false} OutputIsCommentFree(s: string, m: Mode)
    ensures CommentFree(WithoutComments(s, m), m)
    decreases |s|, 1
  {
    if |s| == 0 {
    } else if m.Quoted? {
      OutputIsCommentFree(s[1..], InQuote(m, s[0]));
    } else if IsQuote(s[0]) {
      OutputIsCommentFree(s[1..], Quoted(s[0], false));
    } else if Opens(s, '/') {
      OutputIsCommentFree(AfterLine(s[2..]), Plain);
    } else if Opens(s, '*') {
      BlockIsCommentFree(s[2..]);
    } else {
      OutputIsCommentFree(s[1..], Plain);
      var rest := WithoutComments(s[1..], Plain);
      assert WithoutComments(s, Plain)[1..] == rest;
      if s[0] == '/' && |s| > 1 {
        assert rest[0] == s[1];
      }
    }
  }

  lemma {:induction false} BlockIsCommentFree(s: string)
    ensures CommentFree(AfterBlock(s), Plain)
    decreases |s|, 2
  {
    if |s| < 2 {
      OutputIsCommentFree(s, Plain);
    } else if s[0] == '*' && s[1] == '/' {
      OutputIsCommentFree(s[2..], Plain);
    } else {
      BlockIsCommentFree(s[1..]);
      assert IsBreak(s[0]) ==> AfterBlock(s)[1..] == AfterBlock(s[1..]);
    }
  }

  /** Removing comments changes nothing exactly when there is none. */
  lemma {:induction false} FixedWhenCommentFree(s: string, m: Mode)
    ensures WithoutComments(s, m) == s <==> CommentFree(s, m)
    decreases |s|
  {
    if |s| == 0 {
    } else if m.Quoted? {
      FixedWhenCommentFree(s[1..], InQuote(m, s[0]));
      HeadAndTail(s, WithoutComments(s[1..], InQuote(m, s[0])));
    } else if IsQuote(s[0]) {
      FixedWhenCommentFree(s[1..], Quoted(s[0], false));
      HeadAndTail(s, WithoutComments(s[1..], Quoted(s[0], false)));
    } else if Opens(s, '/') {
      NeverLonger(AfterLine(s[2..]), Plain);
    } else if Opens(s, '*') {
      BlockNeverLonger(s[2..]);
    } else {
      FixedWhenCommentFree(s[1..], Plain);
      HeadAndTail(s, WithoutComments(s[1..], Plain));
    }
  }

  lemma HeadAndTail(s: string, rest: string)
    requires |s| > 0
    ensures [s[0]] + rest == s <==> rest == s[1..]
  { }

  lemma {:induction false} NeverLonger(s: string, m: Mode)
    ensures |WithoutComments(s, m)| <= |s|
    decreases |s|, 1
  {
    if |s| == 0 {
    } else if m.Quoted? {
      NeverLonger(s[1..], InQuote(m, s[0]));
    } else if IsQuote(s[0]) {
      NeverLonger(s[1..], Quoted(s[0], false));
    } else if Opens(s, '/') {
      NeverLonger(AfterLine(s[2..]), Plain);
    } else if Opens(s, '*') {
      BlockNeverLonger(s[2..]);
    } else {
      NeverLonger(s[1..], Plain);
    }
  }

  lemma {:induction false} BlockNeverLonger(s: string)
    ensures |AfterBlock(s)| <= |s|
    decreases |s|, 2
  {
    if |s| < 2 {
      NeverLonger(s, Plain);
    } else if s[0] == '*' && s[1] == '/' {
      NeverLonger(s[2..], Plain);
    } else {
      BlockNeverLonger(s[1..]);
    }
  }

  /** Removing comments twice is removing them once, also when one is never closed. */
  lemma StrippingIsIdempotent(s: string)
    ensures WithoutComments(WithoutComments(s, Plain), Plain) == WithoutComments(s, Plain)
  {
    OutputIsCommentFree(s, Plain);
    FixedWhenCommentFree(WithoutComments(s, Plain), Plain);
  }

  /** The characters of all strings, quotes included, in order. */
  function Strings(s: string, m: Mode): string
    decreases |s|, 1
  {
    if |s| == 0 then []
    else if m.Quoted? then [s[0]] + Strings(s[1..], InQuote(m, s[0]))
    else if IsQuote(s[0]) then [s[0]] + Strings(s[1..], Quoted(s[0], false))
    else if Opens(s, '/') then Strings(AfterLine(s[2..]), Plain)
    else if Opens(s, '*') then StringsAfterBlock(s[2..])
    else Strings(s[1..], Plain)
  }

  function StringsAfterBlock(s: string): string
    decreases |s|, 2
  {
    if |s| < 2 then Strings(s, Plain)
    else if s[0] == '*' && s[1] == '/' then Strings(s[2..], Plain)
    else StringsAfterBlock(s[1..])
  }

  lemma {:induction false} StringsKept(s: string, m: Mode)
    ensures Strings(WithoutComments(s, m), m) == Strings(s, m)
    decreases |s|, 1
  {
    if |s| == 0 {
    } else if m.Quoted? {
      StringsKept(s[1..], InQuote(m, s[0]));
      assert WithoutComments(s, m)[1..] == WithoutComments(s[1..], InQuote(m, s[0]));
    } else if IsQuote(s[0]) {
      StringsKept(s[1..], Quoted(s[0], false));
      assert WithoutComments(s, m)[1..] == WithoutComments(s[1..], Quoted(s[0], false));
    } else if Opens(s, '/') {
      StringsKept(AfterLine(s[2..]), Plain);
    } else if Opens(s, '*') {
      BlockStringsKept(s[2..]);
    } else {
      StringsKept(s[1..], Plain);
      var rest := WithoutComments(s[1..], Plain);
      assert WithoutComments(s, Plain)[1..] == rest;
      if s[0] == '/' && |s| > 1 {
        assert rest[0] == s[1];
      }
    }
  }

  lemma {:induction false} BlockStringsKept(s: string)
    ensures Strings(AfterBlock(s), Plain) == StringsAfterBlock(s)
    decreases |s|, 2
  {
    if |s| < 2 {
      StringsKept(s, Plain);
    } else if s[0] == '*' && s[1] == '/' {
      StringsKept(s[2..], Plain);
    } else {
      BlockStringsKept(s[1..]);
      assert IsBreak(s[0]) ==> AfterBlock(s)[1..] == AfterBlock(s[1..]);
    }
  }

  /** The line breaks of a text, in order. */
  function Breaks(s: string): string
    decreases |s|
  {
    if |s| == 0 then [] else if IsBreak(s[0]) then [s[0]] + Breaks(s[1..]) else Breaks(s[1..])
  }

  lemma {:induction false} LineHasNoBreak(s: string)
    ensures Breaks(AfterLine(s)) == Breaks(s)
    decreases |s|
  {
    if |s| > 0 && !IsBreak(s[0]) {
      LineHasNoBreak(s[1..]);
    }
  }

  /** Every line break survives, so positions keep their line numbers. */
  lemma {:induction false} BreaksKept(s: string, m: Mode)
    ensures Breaks(WithoutComments(s, m)) == Breaks(s)
    decreases |s|, 1
  {
    if |s| == 0 {
    } else if m.Quoted? {
      BreaksKept(s[1..], InQuote(m, s[0]));
      assert WithoutComments(s, m)[1..] == WithoutComments(s[1..], InQuote(m, s[0]));
    } else if IsQuote(s[0]) {
      BreaksKept(s[1..], Quoted(s[0], false));
      assert WithoutComments(s, m)[1..] == WithoutComments(s[1..], Quoted(s[0], false));
    } else if Opens(s, '/') {
      BreaksKept(AfterLine(s[2..]), Plain);
      LineHasNoBreak(s[2..]);
      assert s[1..][1..] == s[2..];
    } else if Opens(s, '*') {
      BlockBreaksKept(s[2..]);
      assert s[1..][1..] == s[2..];
    } else {
      BreaksKept(s[1..], Plain);
      assert WithoutComments(s, m)[1..] == WithoutComments(s[1..], Plain);
    }
  }

  lemma {:induction false} BlockBreaksKept(s: string)
    ensures Breaks(AfterBlock(s)) == Breaks(s)
    decreases |s|, 2
  {
    if |s| < 2 {
      BreaksKept(s, Plain);
    } else if s[0] == '*' && s[1] == '/' {
      BreaksKept(s[2..], Plain);
      assert s[1..][1..] == s[2..];
    } else {
      BlockBreaksKept(s[1..]);
      assert IsBreak(s[0]) ==> AfterBlock(s)[1..] == AfterBlock(s[1..]);
    }
  }

  // ---------------------------------------------------------------- what goes and what stays

  lemma {:induction false} ModeFromFront(s: string, m: Mode)
    requires s != []
    ensures ModeAfter(s, m) == ModeAfter(s[1..], Next(m, s[0]))
    decreases |s|
  {
    if |s| > 1 {
      ModeFromFront(s[..|s| - 1], m);
      assert s[..|s| - 1][1..] == s[1..][..|s[1..]| - 1];
    }
  }

  /** The two texts meet outside strings in the middle of a comment opener. */
  predicate MeetInOpener(a: string, b: string, m: Mode) {
    ModeAfter(a, m).Plain? && a != [] && a[|a| - 1] == '/' && b != [] && (b[0] == '/' || b[0] == '*')
  }

  lemma HeadStays(s: string, m: Mode)
    requires s != [] && (m.Plain? && !IsQuote(s[0]) ==> !Opens(s, '/') && !Opens(s, '*'))
    ensures WithoutComments(s, m) == [s[0]] + WithoutComments(s[1..], Next(m, s[0]))
  {
  }

  /** The first character of a text without comments, when more text follows. */
  lemma HeadOfPart(a: string, b: string, m: Mode)
    requires a != [] && CommentFree(a, m) && !MeetInOpener(a, b, m)
    ensures CommentFree(a[1..], Next(m, a[0])) && !MeetInOpener(a[1..], b, Next(m, a[0]))
    ensures m.Plain? && !IsQuote(a[0]) ==> !Opens(a + b, '/') && !Opens(a + b, '*')
  {
    ModeFromFront(a, m);
    if |a| == 1 {
      assert a == [a[0]] && (a + b)[1..] == b;
      assert ModeAfter(a[1..], Next(m, a[0])) == Next(m, a[0]);
    } else {
      assert a[1..][|a[1..]| - 1] == a[|a| - 1] && (a + b)[1] == a[1];
    }
  }

  /** A text without comments stays as it is, whatever follows it. */
  lemma {:induction false} CommentFreePartStays(a: string, b: string, m: Mode)
    requires CommentFree(a, m) && !MeetInOpener(a, b, m)
    ensures WithoutComments(a + b, m) == a + WithoutComments(b, ModeAfter(a, m))
    decreases |a|
  {
    hide WithoutComments, CommentFree, MeetInOpener, Next, Opens;
    if a == [] {
      assert a + b == b;
    } else {
      var next := Next(m, a[0]);
      HeadOfPart(a, b, m);
      ModeFromFront(a, m);
      hide ModeAfter;
      assert (a + b)[1..] == a[1..] + b && a == [a[0]] + a[1..];
      CommentFreePartStays(a[1..], b, next);
      HeadStays(a + b, m);
    }
  }

  /** A line comment goes, up to the line break that ends it or the end of the text. */
  lemma LineCommentGoes(body: string, rest: string)
    requires Breaks(body) == [] && (rest == [] || IsBreak(rest[0]))
    ensures WithoutComments("//" + body + rest, Plain) == WithoutComments(rest, Plain)
  {
    AfterLineOf(body, rest);
    hide AfterLine, Breaks;
    var s := "//" + body + rest;
    assert s[2..] == body + rest && s[0] == '/' && s[1] == '/';
    assert WithoutComments(s, Plain) == WithoutComments(AfterLine(s[2..]), Plain);
    hide WithoutComments;
  }

  lemma {:induction false} AfterLineOf(body: string, rest: string)
    requires Breaks(body) == [] && (rest == [] || IsBreak(rest[0]))
    ensures AfterLine(body + rest) == rest
    decreases |body|
  {
    if body == [] {
      assert body + rest == rest;
    } else {
      assert (body + rest)[1..] == body[1..] + rest;
      AfterLineOf(body[1..], rest);
    }
  }

  predicate ClosesAt(s: string, i: nat) { i + 2 <= |s| && s[i] == '*' && s[i + 1] == '/' }

  /** Of a block comment its line breaks stay. */
  lemma BlockCommentGoes(body: string, rest: string)
    requires forall i: nat :: i < |body| ==> !ClosesAt(body + "*/", i)
    ensures WithoutComments("/*" + body + "*/" + rest, Plain) == Breaks(body) + WithoutComments(rest, Plain)
  {
    assert ("/*" + body + "*/" + rest)[2..] == body + "*/" + rest;
    BlockBodyGoes(body, rest);
  }

  lemma {:induction false} BlockBodyGoes(body: string, rest: string)
    requires forall i: nat :: i < |body| ==> !ClosesAt(body + "*/", i)
    ensures AfterBlock(body + "*/" + rest) == Breaks(body) + WithoutComments(rest, Plain)
    decreases |body|
  {
    var s := body + "*/" + rest;
    if body == [] {
      assert s[2..] == rest;
    } else {
      assert s[1..] == body[1..] + "*/" + rest;
      assert !ClosesAt(body + "*/", 0);
      assert s[0] == (body + "*/")[0] && s[1] == (body + "*/")[1];
      forall i: nat | i < |body[1..]| ensures !ClosesAt(body[1..] + "*/", i) {
        assert !ClosesAt(body + "*/", i + 1);
        assert (body + "*/")[1..] == body[1..] + "*/";
      }
      BlockBodyGoes(body[1..], rest);
    }
  }

  /** Of a block comment that is never closed its line breaks stay and its last character. */
  lemma {:induction false} OpenBlockGoes(body: string)
    requires forall i: nat :: i < |body| ==> !ClosesAt(body, i)
    ensures WithoutComments("/*" + body, Plain)
            == if body == [] then [] else Breaks(body[..|body| - 1]) + [body[|body| - 1]]
  {
    assert ("/*" + body)[2..] == body;
    OpenBodyGoes(body);
  }

  lemma {:induction false} OpenBodyGoes(body: string)
    requires forall i: nat :: i < |body| ==> !ClosesAt(body, i)
    ensures AfterBlock(body) == if body == [] then [] else Breaks(body[..|body| - 1]) + [body[|body| - 1]]
    decreases |body|
  {
    if |body| == 1 {
      assert WithoutComments(body, Plain) == [body[0]];
    } else if |body| > 1 {
      assert !ClosesAt(body, 0);
      forall i: nat | i < |body[1..]| ensures !ClosesAt(body[1..], i) {
        assert !ClosesAt(body, i + 1);
      }
      OpenBodyGoes(body[1..]);
      assert body[..|body| - 1][1..] == body[1..][..|body[1..]| - 1];
    }
  }

  method SkipLine(raw: string, start: nat) returns (index: nat)
    requires start <= |raw|
    ensures start <= index <= |raw| && raw[index..] == AfterLine(raw[start..])
  {
    index := start;
    while index < |raw| && !IsBreak(raw[index])
      invariant start <= index <= |raw|
      invariant AfterLine(raw[index..]) == AfterLine(raw[start..])
    {
      index := index + 1;
    }
  }

  method SkipBlock(raw: string, start: nat) returns (index: nat, breaks: string)
    requires start <= |raw|
    ensures start <= index <= |raw|
    ensures breaks + WithoutComments(raw[index..], Plain) == AfterBlock(raw[start..])
  {
    index, breaks := start, [];
    while index + 1 < |raw|
      invariant start <= index <= |raw|
      invariant breaks + AfterBlock(raw[index..]) == AfterBlock(raw[start..])
    {
      if raw[index] == '*' && raw[index + 1] == '/' {
        index := index + 2;
        return;
      }
      if IsBreak(raw[index]) {
        breaks := breaks + [raw[index]];
      }
      index := index + 1;
    }
  }

  /** `_strip_json_comments`. */
  method StripJsonComments(raw: string) returns (cleaned: string)
    ensures cleaned == WithoutComments(raw, Plain)
  {
    hide WithoutComments;
    cleaned := [];
    var index, mode := 0, Plain;
    assert raw[0..] == raw;
    while index < |raw|
      invariant 0 <= index <= |raw|
      invariant cleaned + WithoutComments(raw[index..], mode) == WithoutComments(raw, Plain)
    {
      var emitted;
      index, mode, emitted := NextPiece(raw, index, mode);
      cleaned := cleaned + emitted;
    }
    assert raw[index..] == [];
    NothingLeft(mode);
  }

  lemma NothingLeft(m: Mode)
    ensures WithoutComments([], m) == []
  { }

  /** One turn of the loop: a character that is kept, or a whole comment. */
  method NextPiece(raw: string, start: nat, m: Mode) returns (index: nat, mode: Mode, emitted: string)
    requires start < |raw|
    ensures start < index <= |raw|
    ensures emitted + WithoutComments(raw[index..], mode) == WithoutComments(raw[start..], m)
  {
    var current := raw[start];
    var following := if start + 1 < |raw| then [raw[start + 1]] else [];
    if m.Quoted? {
      return start + 1, InQuote(m, current), [current];
    } else if IsQuote(current) {
      return start + 1, Quoted(current, false), [current];
    } else if current == '/' && following == "/" {
      index := SkipLine(raw, start + 2);
      return index, Plain, [];
    } else if current == '/' && following == "*" {
      index, emitted := SkipBlock(raw, start + 2);
      return index, Plain, emitted;
    }
    return start + 1, Plain, [current];
  }

  // ---------------------------------------------------------------- trailing commas

  /** `str.isspace` of a single character. */
  predicate IsSpace(c: char) {
    || '\t' <= c <= '\r' || '\U{1C}' <= c <= ' ' || c == '\U{85}' || c == '\U{A0}' || c == '\U{1680}'
    || '\U{2000}' <= c <= '\U{200A}' || c == '\U{2028}' || c == '\U{2029}' || c == '\U{202F}'
    || c == '\U{205F}' || c == '\U{3000}'
  }

  function SkipSpaces(s: string): (rest: string)
    ensures |rest| <= |s| && (|rest| > 0 ==> !IsSpace(rest[0]))
    decreases |s|
  {
    if |s| > 0 && IsSpace(s[0]) then SkipSpaces(s[1..]) else s
  }

  /** The next character that is not white space closes a list or an object. */
  predicate Closes(s: string) {
    var rest := SkipSpaces(s);
    |rest| > 0 && (rest[0] == ']' || rest[0] == '}')
  }

  /** The next character that is not white space is itself a trailing comma. */
  predicate CommaCloses(s: string) {
    var rest := SkipSpaces(s);
    |rest| > 0 && rest[0] == ',' && Closes(rest[1..])
  }

  function WithoutTrailingCommas(s: string, m: Mode): string
    decreases |s|
  {
    if |s| == 0 then []
    else if m.Quoted? then [s[0]] + WithoutTrailingCommas(s[1..], InQuote(m, s[0]))
    else if IsQuote(s[0]) then [s[0]] + WithoutTrailingCommas(s[1..], Quoted(s[0], false))
    else if s[0] == ',' && Closes(s[1..]) then WithoutTrailingCommas(s[1..], Plain)
    else [s[0]] + WithoutTrailingCommas(s[1..], Plain)
  }

  /** Position `i` holds a comma outside strings whose next non-blank character is a closing
      bracket. */
  predicate TrailingCommaAt(s: string, m: Mode, i: nat)
    requires i < |s|
  {
    ModeAfter(s[..i], m) == Plain && s[i] == ',' && Closes(s[i + 1..])
  }

  /** The characters at the positions below `n` that are not trailing commas, in order. */
  function Others(s: string, m: Mode, n: nat): string
    requires n <= |s|
  {
    if n == 0 then []
    else Others(s, m, n - 1) + (if TrailingCommaAt(s, m, n - 1) then [] else [s[n - 1]])
  }

  lemma ModeStep(s: string, m: Mode, n: nat)
    requires n < |s|
    ensures ModeAfter(s[..n + 1], m) == Next(ModeAfter(s[..n], m), s[n])
  {
    assert s[..n + 1][..n] == s[..n];
  }

  lemma {:induction false} OthersThenRest(s: string, m: Mode, n: nat)
    requires n <= |s|
    ensures Others(s, m, n) + WithoutTrailingCommas(s[n..], ModeAfter(s[..n], m)) == WithoutTrailingCommas(s, m)
  {
    hide Closes, WithoutTrailingCommas;
    if n == 0 {
      assert s[0..] == s;
    } else {
      OthersThenRest(s, m, n - 1);
      hide ModeAfter, Next;
      ModeStep(s, m, n - 1);
      TrimStep(s[n - 1..], ModeAfter(s[..n - 1], m));
      assert s[n - 1..][0] == s[n - 1] && s[n - 1..][1..] == s[n..];
    }
  }

  /** The characters removed are exactly the trailing commas, and the others keep their order. */
  lemma OnlyTrailingCommasGo(s: string)
    ensures WithoutTrailingCommas(s, Plain) == Others(s, Plain, |s|)
  {
    OthersThenRest(s, Plain, |s|);
  }

  lemma TrimStep(s: string, m: Mode)
    requires |s| > 0
    ensures WithoutTrailingCommas(s, m) ==
            (if m == Plain && s[0] == ',' && Closes(s[1..]) then [] else [s[0]])
            + WithoutTrailingCommas(s[1..], Next(m, s[0]))
  { }

  /** No trailing comma is left. */
  predicate CommaFree(s: string, m: Mode)
    decreases |s|
  {
    |s| > 0 ==> !(m == Plain && s[0] == ',' && Closes(s[1..])) && CommaFree(s[1..], Next(m, s[0]))
  }

  /** Somewhere outside strings a comma is followed by a trailing comma. */
  predicate DoubleComma(s: string, m: Mode)
    decreases |s|
  {
    |s| > 0 && ((m == Plain && s[0] == ',' && CommaCloses(s[1..])) || DoubleComma(s[1..], Next(m, s[0])))
  }

  lemma {:induction false} FixedWhenCommaFree(s: string, m: Mode)
    ensures WithoutTrailingCommas(s, m) == s <==> CommaFree(s, m)
    decreases |s|
  {
    if |s| > 0 {
      FixedWhenCommaFree(s[1..], Next(m, s[0]));
      TrimStep(s, m);
      TrimNeverLonger(s[1..], Next(m, s[0]));
      HeadAndTail(s, WithoutTrailingCommas(s[1..], Next(m, s[0])));
    }
  }

  lemma {:induction false} TrimNeverLonger(s: string, m: Mode)
    ensures |WithoutTrailingCommas(s, m)| <= |s|
    decreases |s|
  {
    if |s| > 0 {
      TrimNeverLonger(s[1..], Next(m, s[0]));
    }
  }

  /** After one pass a bracket comes next where one came next before, or where only a trailing
      comma stood in between. */
  lemma {:induction false} ClosesAfterTrim(s: string)
    ensures Closes(WithoutTrailingCommas(s, Plain)) <==> Closes(s) || CommaCloses(s)
    decreases |s|
  {
    if |s| > 0 {
      TrimStep(s, Plain);
      var rest := WithoutTrailingCommas(s[1..], Next(Plain, s[0]));
      assert ([s[0]] + rest)[1..] == rest;
      ClosesAfterTrim(s[1..]);
    }
  }

  lemma {:induction false} LeftAfterOnePass(s: string, m: Mode)
    ensures CommaFree(WithoutTrailingCommas(s, m), m) <==> !DoubleComma(s, m)
    decreases |s|
  {
    if |s| > 0 {
      var next := Next(m, s[0]);
      var rest := WithoutTrailingCommas(s[1..], next);
      LeftAfterOnePass(s[1..], next);
      TrimStep(s, m);
      assert ([s[0]] + rest)[1..] == rest;
      if m == Plain && s[0] == ',' {
        ClosesAfterTrim(s[1..]);
      }
    }
  }

  /** A second pass changes nothing exactly when no comma outside strings is followed by a trailing
      comma; in particular it does change the text "[1,,]". */
  lemma TrimmingTwice(s: string)
    ensures var once := WithoutTrailingCommas(s, Plain);
            WithoutTrailingCommas(once, Plain) == once <==> !DoubleComma(s, Plain)
  {
    LeftAfterOnePass(s, Plain);
    FixedWhenCommaFree(WithoutTrailingCommas(s, Plain), Plain);
  }

  lemma OnePassIsNotEnough()
    ensures DoubleComma("[1,,]", Plain)
    ensures WithoutTrailingCommas("[1,,]", Plain) == "[1,]" && WithoutTrailingCommas("[1,]", Plain) == "[1]"
  { }

  method LooksAhead(raw: string, start: nat) returns (closes: bool)
    requires start <= |raw|
    ensures closes <==> Closes(raw[start..])
  {
    var lookahead := start;
    while lookahead < |raw| && IsSpace(raw[lookahead])
      invariant start <= lookahead <= |raw|
      invariant SkipSpaces(raw[lookahead..]) == SkipSpaces(raw[start..])
    {
      lookahead := lookahead + 1;
    }
    return lookahead < |raw| && (raw[lookahead] == ']' || raw[lookahead] == '}');
  }

  /** One turn of the loop: the character is kept unless it is a trailing comma. */
  method TakeCharacter(raw: string, index: nat, mode: Mode) returns (kept: string)
    requires index < |raw|
    ensures kept + WithoutTrailingCommas(raw[index + 1..], Next(mode, raw[index])) ==
            WithoutTrailingCommas(raw[index..], mode)
  {
    hide Closes, WithoutTrailingCommas;
    assert raw[index..][0] == raw[index] && raw[index..][1..] == raw[index + 1..];
    TrimStep(raw[index..], mode);
    var closes := false;
    if mode == Plain && raw[index] == ',' {
      closes := LooksAhead(raw, index + 1);
    }
    return if closes then [] else [raw[index]];
  }

  /** `_strip_trailing_commas`. */
  method StripTrailingCommas(raw: string) returns (cleaned: string)
    ensures cleaned == WithoutTrailingCommas(raw, Plain)
  {
    hide WithoutTrailingCommas, Next;
    cleaned := [];
    var index, mode := 0, Plain;
    assert raw[0..] == raw;
    while index < |raw|
      invariant 0 <= index <= |raw|
      invariant cleaned + WithoutTrailingCommas(raw[index..], mode) == WithoutTrailingCommas(raw, Plain)
    {
      var kept := TakeCharacter(raw, index, mode);
      cleaned := cleaned + kept;
      mode := Next(mode, raw[index]);
      index := index + 1;
    }
    assert raw[index..] == [];
    NothingToTrim(mode);
  }

  lemma NothingToTrim(m: Mode)
    ensures WithoutTrailingCommas([], m) == []
  { }
}
