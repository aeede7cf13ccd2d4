/** The bounded JSON intake: a one-pass scanner that rejects oversized structure before the
    parser may build it, and a worklist check of the value the parser built. */
module JsonIntake {
  import opened Options

  /** The four bounds of the intake policy, all positive. */
  datatype Limits = Limits(depth: nat, items: nat, members: nat, text: nat)

  predicate Positive(l: Limits) { l.depth > 0 && l.items > 0 && l.members > 0 && l.text > 0 }

  // ---------------------------------------------------------------- the scanner

  datatype ScanError = StringTooLong | TooDeep | TooMany | InvalidStructure | Truncated

  datatype Frame = Frame(open: char, commas: nat, content: bool)

  datatype Scan =
    | Rejected(error: ScanError)
    | Scanning(stack: seq<Frame>, quoted: bool, escaped: bool, tokenBytes: nat)

  const START := Scanning([], false, false, 0)

  function Utf8Length(c: char): nat {
    if c as int < 0x80 then 1 else if c as int < 0x800 then 2 else if c as int < 0x1_0000 then 3 else 4
  }

  predicate Blank(c: char) { c == ' ' || c == '\t' || c == '\r' || c == '\n' }

  function Bound(l: Limits, open: char): nat { if open == '{' then l.members else l.items }

  predicate Closes(open: char, close: char) { (open == '{' && close == '}') || (open == '[' && close == ']') }

  function Top(stack: seq<Frame>): Frame
    requires stack != []
  {
    stack[|stack| - 1]
  }

  function SetTop(stack: seq<Frame>, f: Frame): seq<Frame>
    requires stack != []
  {
    stack[..|stack| - 1] + [f]
  }

  /** The enclosing container, if any, is known to have content. */
  function MarkContent(stack: seq<Frame>): seq<Frame> {
    if stack == [] then [] else SetTop(stack, Top(stack).(content := true))
  }

  function QuotedStep(l: Limits, s: Scan, c: char): Scan
    requires s.Scanning? && s.quoted
  {
    var bytes := if s.escaped then s.tokenBytes + Utf8Length(c)
                 else if c == '\\' then s.tokenBytes + 1
                 else if c == '"' then s.tokenBytes
                 else s.tokenBytes + Utf8Length(c);
    if bytes > l.text * 6 then Rejected(StringTooLong)
    else Scanning(s.stack, s.escaped || c != '"', !s.escaped && c == '\\', bytes)
  }

  function PlainStep(l: Limits, s: Scan, c: char): Scan
    requires s.Scanning? && !s.quoted
  {
    if c == '"' then Scanning(MarkContent(s.stack), true, s.escaped, 0)
    else if c == '{' || c == '[' then
      // the new frame is the one marked: an open container always counts as having content
      if |s.stack| + 1 > l.depth then Rejected(TooDeep)
      else s.(stack := MarkContent(s.stack + [Frame(c, 0, false)]))
    else if c == '}' || c == ']' then
      if s.stack == [] || !Closes(Top(s.stack).open, c) then Rejected(InvalidStructure)
      else
        var f := Top(s.stack);
        if f.commas + (if f.content then 1 else 0) > Bound(l, f.open) then Rejected(TooMany)
        else s.(stack := MarkContent(s.stack[..|s.stack| - 1]))
    else if c == ',' && s.stack != [] then
      var f := Top(s.stack);
      if f.commas + 1 >= Bound(l, f.open) then Rejected(TooMany)
      else s.(stack := MarkContent(SetTop(s.stack, f.(commas := f.commas + 1))))
    else if Blank(c) then s
    else s.(stack := MarkContent(s.stack))
  }

  function ScanStep(l: Limits, s: Scan, c: char): Scan {
    if s.Rejected? then s else if s.quoted then QuotedStep(l, s, c) else PlainStep(l, s, c)
  }

  function ScanAll(l: Limits, s: Scan, text: string): Scan
    decreases |text|
  {
    if |text| == 0 then s else ScanAll(l, ScanStep(l, s, text[0]), text[1..])
  }

  function Verdict(s: Scan): Option<ScanError> {
    if s.Rejected? then Some(s.error) else if s.quoted || s.stack != [] then Some(Truncated) else None
  }

  /** The loop of `_preparse_json`, one pass over the text with a mutable stack. */
  method PreparseJson(raw: string, l: Limits) returns (error: Option<ScanError>)
    ensures error == Verdict(ScanAll(l, START, raw))
  {
    var stack: seq<Frame> := [];
    var quoted, escaped := false, false;
    var tokenBytes: nat := 0;
    for i := 0 to |raw|
      invariant ScanAll(l, START, raw) == ScanAll(l, Scanning(stack, quoted, escaped, tokenBytes), raw[i..])
    {
      var c := raw[i];
      assert raw[i..][0] == c && raw[i..][1..] == raw[i + 1..];
      ghost var before := Scanning(stack, quoted, escaped, tokenBytes);
      if quoted {
        if escaped {
          escaped := false;
          tokenBytes := tokenBytes + Utf8Length(c);
        } else if c == '\\' {
          escaped := true;
          tokenBytes := tokenBytes + 1;
        } else if c == '"' {
          quoted := false;
        } else {
          tokenBytes := tokenBytes + Utf8Length(c);
        }
        if tokenBytes > l.text * 6 {
          RejectedStays(l, StringTooLong, raw[i + 1..]);
          return Some(StringTooLong);
        }
        continue;
      }
      if c == '"' {
        quoted := true;
        tokenBytes := 0;
      } else if c == '{' || c == '[' {
        stack := stack + [Frame(c, 0, false)];
        if |stack| > l.depth {
          RejectedStays(l, TooDeep, raw[i + 1..]);
          return Some(TooDeep);
        }
      } else if c == '}' || c == ']' {
        if stack == [] || !Closes(Top(stack).open, c) {
          RejectedStays(l, InvalidStructure, raw[i + 1..]);
          return Some(InvalidStructure);
        }
        var f := Top(stack);
        stack := stack[..|stack| - 1];
        if f.commas + (if f.content then 1 else 0) > Bound(l, f.open) {
          RejectedStays(l, TooMany, raw[i + 1..]);
          return Some(TooMany);
        }
      } else if c == ',' && stack != [] {
        var f := Top(stack);
        stack := SetTop(stack, f.(commas := f.commas + 1));
        if f.commas + 1 >= Bound(l, f.open) {
          RejectedStays(l, TooMany, raw[i + 1..]);
          return Some(TooMany);
        }
      }
      if stack != [] && !Blank(c) {
        stack := SetTop(stack, Top(stack).(content := true));
      }
      assert Scanning(stack, quoted, escaped, tokenBytes) == ScanStep(l, before, c);
    }
    if quoted || stack != [] {
      return Some(Truncated);
    }
    return None;
  }

  lemma RejectedStays(l: Limits, e: ScanError, text: string)
    ensures ScanAll(l, Rejected(e), text) == Rejected(e)
    decreases |text|
  {
  }

  lemma {:induction false} ScanConcat(l: Limits, s: Scan, a: string, b: string)
    ensures ScanAll(l, s, a + b) == ScanAll(l, ScanAll(l, s, a), b)
    decreases |a|
  {
    if |a| == 0 {
      assert a + b == b;
    } else {
      assert (a + b)[0] == a[0] && (a + b)[1..] == a[1..] + b;
      ScanConcat(l, ScanStep(l, s, a[0]), a[1..], b);
    }
  }
}
