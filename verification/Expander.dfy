/** Expansion of `${f:name:args}` function calls in profile text. The parser rewrites its string in place
    under a moving cursor, with a stack of the positions where calls opened; it is proved to compute what a
    left-to-right evaluator with a stack of output buffers computes
    (tuned/profiles/functions/parser.py). */
module Expander {
  import opened Text

  /** The functions: `None` stands for an invalid or unknown name and for a function without a result. */
  type Table = (string, seq<string>) -> Option<string>

  datatype Call = NoCall | BadCall | Expands(text: string)

  datatype Result = Text(text: string) | Raised

  // ----- The text of a call -----

  /** Split at colons that no backslash precedes. */
  function SplitArgs(s: string): (parts: seq<string>)
    ensures |parts| >= 1
  {
    if s == "" then [""]
    else
      var n := |s| - 1;
      var front := SplitArgs(s[..n]);
      if s[n] == ':' && (n == 0 || s[n - 1] != '\\') then front + [""]
      else front[..|front| - 1] + [front[|front| - 1] + [s[n]]]
  }

  /** Replace each `\:` by a colon. */
  function UnescapeColons(s: string): string {
    if |s| >= 2 && s[0] == '\\' && s[1] == ':' then ":" + UnescapeColons(s[2..])
    else if s == "" then ""
    else [s[0]] + UnescapeColons(s[1..])
  }

  function Unescaped(parts: seq<string>): seq<string> {
    seq(|parts|, i requires 0 <= i < |parts| => UnescapeColons(parts[i]))
  }

  /** What the text from a `${` up to its `}` stands for; `${f}` has no name and raises. */
  function Evaluate(t: Table, text: string): Call {
    var parts := SplitArgs(text);
    if parts[0] != "${f" then NoCall
    else if |parts| == 1 then BadCall
    else
      var args := Unescaped(parts);
      match t(args[1], args[2..])
      case None => NoCall
      case Some(s) => Expands(s)
  }

  // ----- The evaluator -----

  /** An open `${`: whether a backslash precedes it, and the output since then, `${` included. */
  datatype Frame = Frame(escaped: bool, text: string)

  /** The output outside any `${`, the open frames, whether the last character was a backslash, and the
      input not yet read. */
  datatype Scan = Scan(out: string, frames: seq<Frame>, esc: bool, rest: string)

  function Flat(out: string, frames: seq<Frame>): string {
    if frames == [] then out else Flat(out, frames[..|frames| - 1]) + frames[|frames| - 1].text
  }

  /** Put text at the end of the innermost buffer. */
  function Emit(c: Scan, s: string): Scan {
    if c.frames == [] then c.(out := c.out + s)
    else
      var n := |c.frames| - 1;
      c.(frames := c.frames[n := c.frames[n].(text := c.frames[n].text + s)])
  }

  function EndsEscaped(s: string): bool {
    s != "" && s[|s| - 1] == '\\'
  }

  datatype Next = Continue(scan: Scan) | Halt(result: Result)

  /** Close the innermost frame with the text `s` in its place. */
  function Close(c: Scan, s: string): Scan
    requires c.frames != [] && c.rest != ""
  {
    Emit(c.(frames := c.frames[..|c.frames| - 1], rest := c.rest[1..]), s)
  }

  function ReadOne(c: Scan): Scan
    requires c.rest != ""
  {
    Emit(c, [c.rest[0]]).(esc := c.rest[0] == '\\', rest := c.rest[1..])
  }

  /** After an expansion that leaves nothing before the cursor, the cursor cannot move back and the next
      character is copied without a look at it. */
  function AfterExpansion(c: Scan): Scan {
    if Flat(c.out, c.frames) != "" then c.(esc := EndsEscaped(Flat(c.out, c.frames)))
    else if c.rest == "" then c.(esc := false)
    else ReadOne(c)
  }

  predicate AtOpening(s: string) {
    |s| >= 2 && s[0] == '$' && s[1] == '{'
  }

  /** Read one character of input. */
  function Step(t: Table, c: Scan): Next
    requires c.rest != ""
  {
    if c.rest[0] == '}' then
      if c.frames == [] then Halt(Text(c.out + c.rest))
      else
        var top := c.frames[|c.frames| - 1];
        var call := if top.escaped then NoCall else Evaluate(t, top.text);
        match call
        case NoCall => Continue(Close(c, top.text + "}").(esc := false))
        case BadCall => Halt(Raised)
        case Expands(s) => Continue(AfterExpansion(Close(c, s)))
    else if AtOpening(c.rest) then
      Continue(c.(frames := c.frames + [Frame(c.esc, "$")], esc := false, rest := c.rest[1..]))
    else Continue(ReadOne(c))
  }

  lemma StepShrinks(t: Table, c: Scan)
    requires c.rest != ""
    ensures Step(t, c).Continue? ==> |Step(t, c).scan.rest| < |c.rest|
  {
  }

  /** Read all the input. */
  function Eval(t: Table, c: Scan): Result
    decreases |c.rest|
  {
    if c.rest == "" then Text(Flat(c.out, c.frames))
    else
      StepShrinks(t, c);
      match Step(t, c)
      case Halt(r) => r
      case Continue(d) => Eval(t, d)
  }

  function Initial(s: string): Scan {
    Scan("", [], false, s)
  }

  // ----- Facts about buffers -----

  lemma FlatPush(out: string, frames: seq<Frame>, f: Frame)
    ensures Flat(out, frames + [f]) == Flat(out, frames) + f.text
  {
    assert (frames + [f])[..|frames|] == frames;
  }

  lemma FlatEmit(c: Scan, s: string)
    ensures Flat(Emit(c, s).out, Emit(c, s).frames) == Flat(c.out, c.frames) + s
  {
    if c.frames != [] {
      var n := |c.frames| - 1;
      var d := Emit(c, s);
      assert d.frames[..n] == c.frames[..n];
    }
  }

  // ----- The parser's state and the evaluator's -----

  /** Entry j of the stack is where frame j starts. */
  ghost predicate Marks(stack: seq<(bool, nat)>, c: Scan) {
    |stack| == |c.frames| &&
    forall j :: 0 <= j < |stack| ==> stack[j] == (c.frames[j].escaped, |Flat(c.out, c.frames[..j])|)
  }

  /** The parser's string, cursor, stack and escape flag are those of the evaluator. */
  ghost predicate Shows(str: string, cnt: nat, stack: seq<(bool, nat)>, esc: bool, c: Scan) {
    && str == Flat(c.out, c.frames) + c.rest
    && (if c.rest == "" then cnt >= |str| else cnt == |Flat(c.out, c.frames)|)
    && esc == c.esc
    && Marks(stack, c)
  }

  lemma EmitMarks(stack: seq<(bool, nat)>, c: Scan, s: string)
    requires Marks(stack, c)
    ensures Marks(stack, Emit(c, s))
  {
    if c.frames != [] {
      var d := Emit(c, s);
      forall j | 0 <= j < |stack| ensures stack[j] == (d.frames[j].escaped, |Flat(d.out, d.frames[..j])|) {
        assert d.frames[..j] == c.frames[..j];
      }
    }
  }

  lemma ReadShows(str: string, cnt: nat, stack: seq<(bool, nat)>, esc: bool, c: Scan)
    requires Shows(str, cnt, stack, esc, c) && c.rest != ""
    ensures Shows(str, cnt + 1, stack, str[cnt] == '\\', ReadOne(c))
  {
    hide Flat, Marks, Emit;
    var d := Emit(c, [c.rest[0]]);
    FlatEmit(c, [c.rest[0]]);
    EmitMarks(stack, c, [c.rest[0]]);
    MarksSame(stack, d, ReadOne(c));
    AtBrace(Flat(c.out, c.frames), c.rest);
    MoveOver(Flat(c.out, c.frames), c.rest);
  }

  lemma MarksSame(stack: seq<(bool, nat)>, c: Scan, d: Scan)
    requires c.out == d.out && c.frames == d.frames
    ensures Marks(stack, c) <==> Marks(stack, d)
  {
  }

  lemma OpenShows(str: string, cnt: nat, stack: seq<(bool, nat)>, esc: bool, c: Scan)
    requires Shows(str, cnt, stack, esc, c) && AtOpening(c.rest)
    ensures Shows(str, cnt + 1, stack + [(esc, cnt)], false,
                  c.(frames := c.frames + [Frame(c.esc, "$")], esc := false, rest := c.rest[1..]))
    ensures cnt < |str| && str[cnt] == '$'
  {
    hide Flat, Marks;
    FlatPush(c.out, c.frames, Frame(c.esc, "$"));
    MoveOver(Flat(c.out, c.frames), c.rest);
    MarksPush(stack, c, Frame(c.esc, "$"));
  }

  /** Reading the first character moves it to the output. */
  lemma MoveOver(a: string, b: string)
    requires b != ""
    ensures a + b == (a + [b[0]]) + b[1..] && |a + b| > |a|
  {
  }

  lemma MarksPush(stack: seq<(bool, nat)>, c: Scan, f: Frame)
    requires Marks(stack, c) && c.rest != ""
    ensures Marks(stack + [(f.escaped, |Flat(c.out, c.frames)|)], c.(frames := c.frames + [f], esc := false, rest := c.rest[1..]))
  {
    hide Flat;
    var frames, all := c.frames + [f], stack + [(f.escaped, |Flat(c.out, c.frames)|)];
    forall j | 0 <= j < |frames| ensures all[j] == (frames[j].escaped, |Flat(c.out, frames[..j])|) {
      if j < |stack| { assert frames[..j] == c.frames[..j]; } else { assert frames[..j] == c.frames; }
    }
  }

  /** Closing a frame with other text in its place. */
  lemma CloseShows(str: string, cnt: nat, stack: seq<(bool, nat)>, esc: bool, c: Scan, s: string)
    requires Shows(str, cnt, stack, esc, c) && c.frames != [] && c.rest != ""
    ensures var from := stack[|stack| - 1].1;
            var d := Close(c, s);
            && from <= cnt < |str| && str[from..cnt] == c.frames[|c.frames| - 1].text
            && str[..from] + s + str[cnt + 1..] == Flat(d.out, d.frames) + d.rest
            && |Flat(d.out, d.frames)| == from + |s|
            && Marks(stack[..|stack| - 1], d)
  {
    hide Flat, Marks;
    var n := |c.frames| - 1;
    var e := c.(frames := c.frames[..n], rest := c.rest[1..]);
    MarksTop(stack, c);
    MarksOfFront(stack, c);
    EmitMarks(stack[..n], e, s);
    FlatEmit(e, s);
    assert c.frames == c.frames[..n] + [c.frames[n]];
    FlatPush(c.out, c.frames[..n], c.frames[n]);
    CutOut(Flat(c.out, c.frames[..n]), c.frames[n].text, c.rest);
  }

  lemma MarksOfFront(stack: seq<(bool, nat)>, c: Scan)
    requires Marks(stack, c) && c.frames != [] && c.rest != ""
    ensures Marks(stack[..|stack| - 1], c.(frames := c.frames[..|c.frames| - 1], rest := c.rest[1..]))
  {
    var n := |c.frames| - 1;
    var e := c.(frames := c.frames[..n], rest := c.rest[1..]);
    forall j | 0 <= j < n ensures stack[..n][j] == (e.frames[j].escaped, |Flat(e.out, e.frames[..j])|) {
      assert e.frames[..j] == c.frames[..j];
    }
  }

  lemma MarksTop(stack: seq<(bool, nat)>, c: Scan)
    requires Marks(stack, c) && c.frames != []
    ensures stack != [] && |stack| == |c.frames|
    ensures stack[|stack| - 1].1 == |Flat(c.out, c.frames[..|c.frames| - 1])|
  {
  }

  lemma CutOut(a: string, b: string, c: string)
    requires c != ""
    ensures var t := a + b + c; t[..|a|] == a && t[|a|..|a + b|] == b && t[|a + b| + 1..] == c[1..]
  {
  }

  lemma PlainCloseShows(str: string, cnt: nat, stack: seq<(bool, nat)>, esc: bool, c: Scan)
    requires Shows(str, cnt, stack, esc, c) && c.frames != [] && c.rest != "" && c.rest[0] == '}'
    ensures Shows(str, cnt + 1, stack[..|stack| - 1], false, Close(c, c.frames[|c.frames| - 1].text + "}").(esc := false))
  {
    hide Flat, Close, Marks;
    MarksTop(stack, c);
    var text := c.frames[|c.frames| - 1].text;
    CloseShows(str, cnt, stack, esc, c, text + "}");
    CloseShape(c, text + "}");
    AtBrace(Flat(c.out, c.frames), c.rest);
    Rejoin(str, stack[|stack| - 1].1, cnt, text);
    MarksSame(stack[..|stack| - 1], Close(c, text + "}"), Close(c, text + "}").(esc := false));
  }

  lemma AtBrace(a: string, b: string)
    requires b != ""
    ensures (a + b)[|a|] == b[0] && |a + b| > |a|
  {
  }

  lemma Rejoin(str: string, from: nat, cnt: nat, text: string)
    requires from <= cnt < |str| && str[from..cnt] == text && str[cnt] == '}'
    ensures str[..from] + (text + "}") + str[cnt + 1..] == str && from + |text + "}"| == cnt + 1
  {
  }

  /** The state after the call that closes at the cursor expands to s and the cursor moves on. */
  lemma ExpandShows(str: string, cnt: nat, stack: seq<(bool, nat)>, esc: bool, c: Scan, s: string)
    requires Shows(str, cnt, stack, esc, c) && c.frames != [] && c.rest != ""
    ensures stack != [] && stack[|stack| - 1].1 <= cnt < |str|
    ensures var from := stack[|stack| - 1].1;
            var str' := str[..from] + s + str[cnt + 1..];
            var cnt' := if from + |s| == 0 then 0 else from + |s| - 1;
            Shows(str', cnt' + 1, stack[..|stack| - 1], cnt' < |str'| && str'[cnt'] == '\\', AfterExpansion(Close(c, s)))
  {
    hide Flat, Close, Marks, ReadOne;
    MarksTop(stack, c);
    CloseShows(str, cnt, stack, esc, c, s);
    var from, marks := stack[|stack| - 1].1, stack[..|stack| - 1];
    var d := Close(c, s);
    var str' := str[..from] + s + str[cnt + 1..];
    MarksSame(marks, d, d.(esc := false));
    MarksSame(marks, d, d.(esc := EndsEscaped(Flat(d.out, d.frames))));
    if from + |s| == 0 {
      assert Flat(d.out, d.frames) == "";
      if d.rest != "" { ReadShows(str', 0, marks, d.esc, d); }
    } else {
      LastOf(Flat(d.out, d.frames), d.rest);
    }
  }

  lemma LastOf(a: string, b: string)
    requires a != ""
    ensures |a + b| >= |a| && (a + b)[|a| - 1] == a[|a| - 1]
  {
  }

  // ----- The parser -----

  class Parser {
    const table: Table
    var str: string
    var cnt: nat
    var stack: seq<(bool, nat)>
    var esc: bool

    /** Replace the characters from `a` to `b` by `s` and move the cursor along. */
    method Substitute(a: nat, b: nat, s: string)
      requires a <= b == cnt < |str|
      modifies this`str, this`cnt
      ensures str == old(str)[..a] + s + old(str)[b + 1..]
      ensures cnt == if a + |s| == 0 then 0 else a + |s| - 1
    {
      str := str[..a] + s + str[b + 1..];
      var moved := cnt + |s| - (b - a + 1);
      cnt := if moved < 0 then 0 else moved;
    }

    /** Expand the call that opened at `from` and closes at the cursor. */
    method ProcessFunc(from: nat) returns (raised: bool)
      requires from <= cnt < |str|
      modifies this`str, this`cnt
      ensures var call := Evaluate(table, old(str)[from..old(cnt)]);
              && raised == call.BadCall?
              && (!call.Expands? ==> str == old(str) && cnt == old(cnt))
              && (call.Expands? ==>
                    && str == old(str)[..from] + call.text + old(str)[old(cnt) + 1..]
                    && cnt == if from + |call.text| == 0 then 0 else from + |call.text| - 1)
    {
      var parts := SplitArgs(str[from..cnt]);
      if parts[0] != "${f" {
        return false;
      }
      var args := Unescaped(parts);
      if |args| == 1 {
        return true;
      }
      var value := table(args[1], args[2..]);
      raised := false;
      if value.Some? {
        Substitute(from, cnt, value.value);
      }
    }

    /** The cursor is at the `}` of an open call. */
    method CloseBrace(ghost c: Scan) returns (raised: bool)
      requires Shows(str, cnt, stack, esc, c) && cnt < |str| && str[cnt] == '}' && stack != []
      modifies this`str, this`cnt, this`stack
      ensures c.rest != "" && (raised <==> Step(table, c) == Halt(Raised))
      ensures !raised ==> Step(table, c).Continue? &&
                          Shows(str, cnt + 1, stack, cnt < |str| && str[cnt] == '\\', Step(table, c).scan)
    {
      hide Flat, Close, Emit, AfterExpansion, Evaluate, ReadOne, Shows, Step;
      AtCursor(str, cnt, stack, esc, c);
      StepOfBrace(table, c);
      TopText(str, cnt, stack, esc, c);
      ghost var str0, cnt0, stack0 := str, cnt, stack;
      var top := stack[|stack| - 1];
      stack := stack[..|stack| - 1];
      raised := false;
      if !top.0 {
        raised := ProcessFunc(top.1);
      }
      if !raised {
        ghost var call := if top.0 then NoCall else Evaluate(table, c.frames[|c.frames| - 1].text);
        if call.Expands? {
          ExpandShows(str0, cnt0, stack0, esc, c, call.text);
        } else {
          PlainCloseShows(str0, cnt0, stack0, esc, c);
        }
      }
    }

    /** One turn of the loop, at the evaluator's state c; a result ends it. */
    method Turn(ghost c: Scan) returns (result: Option<Result>)
      requires Shows(str, cnt, stack, esc, c) && FramesOpen(c) && cnt < |str|
      modifies this
      ensures c.rest != ""
      ensures match Step(table, c)
              case Halt(r) => result == Some(r)
              case Continue(d) =>
                result.None? && Shows(str, cnt, stack, esc, d) && FramesOpen(d) && OpenedAtCalls(str, cnt, stack)
    {
      hide Flat, Emit, Evaluate, ReadOne, Shows, Step, FramesOpen, OpenedAtCalls, AtOpening;
      ghost var str0, cnt0, stack0, esc0 := str, cnt, stack, esc;
      AtCursor(str, cnt, stack, esc, c);
      StepOfPlain(table, c);
      if str[cnt] == '}' {
        if stack == [] {
          return Some(Text(str));
        }
        var raised := CloseBrace(c);
        if raised {
          return Some(Raised);
        }
      } else if AtOpening(str[cnt..]) {
        stack := stack + [(esc, cnt)];
        OpenShows(str0, cnt0, stack0, esc0, c);
      } else {
        ReadShows(str0, cnt0, stack0, esc0, c);
      }
      esc := cnt < |str| && str[cnt] == '\\';
      cnt := cnt + 1;
      StaysOpened(table, str, cnt, stack, esc, c);
      result := None;
    }

    /** Expand every call of `s`; `steps` counts the turns of the loop. */
    method Process(s: string) returns (r: Result, ghost steps: nat)
      modifies this
      ensures r == Eval(table, Initial(s))
      ensures steps <= |s|
    {
      hide Flat, Shows, Step, Eval, FramesOpen, OpenedAtCalls;
      cnt, str, stack, esc := 0, s, [], false;
      ghost var c := Initial(s);
      steps := 0;
      InitialShows(s);
      while cnt < |str|
        invariant Shows(str, cnt, stack, esc, c)
        invariant FramesOpen(c) && OpenedAtCalls(str, cnt, stack)
        invariant Eval(table, c) == Eval(table, Initial(s))
        invariant steps + |c.rest| <= |s|
        decreases |c.rest|
      {
        AtCursor(str, cnt, stack, esc, c);
        EvalOfStep(table, c);
        var result := Turn(c);
        if result.Some? {
          return result.value, steps;
        }
        c := Step(table, c).scan;
        steps := steps + 1;
      }
      AtEnd(str, cnt, stack, esc, c);
      r := Text(str);
    }
  }

  lemma InitialShows(s: string)
    ensures Shows(s, 0, [], false, Initial(s)) && FramesOpen(Initial(s)) && OpenedAtCalls(s, 0, [])
  {
  }

  lemma EvalOfStep(t: Table, c: Scan)
    requires c.rest != ""
    ensures match Step(t, c)
            case Halt(r) => Eval(t, c) == r
            case Continue(d) => Eval(t, c) == Eval(t, d) && |d.rest| < |c.rest|
  {
    StepShrinks(t, c);
  }

  lemma StepOfPlain(t: Table, c: Scan)
    requires c.rest != ""
    ensures c.rest[0] == '}' && c.frames == [] ==> Step(t, c) == Halt(Text(c.out + c.rest))
    ensures c.rest[0] != '}' ==>
              Step(t, c) == Continue(if AtOpening(c.rest) then c.(frames := c.frames + [Frame(c.esc, "$")], esc := false, rest := c.rest[1..])
                                     else ReadOne(c))
  {
  }

  lemma StepOfBrace(t: Table, c: Scan)
    requires c.rest != "" && c.rest[0] == '}' && c.frames != []
    ensures var top := c.frames[|c.frames| - 1];
            var call := if top.escaped then NoCall else Evaluate(t, top.text);
            Step(t, c) ==
            match call
            case NoCall => Continue(Close(c, top.text + "}").(esc := false))
            case BadCall => Halt(Raised)
            case Expands(s) => Continue(AfterExpansion(Close(c, s)))
  {
  }

  lemma AtCursor(str: string, cnt: nat, stack: seq<(bool, nat)>, esc: bool, c: Scan)
    requires Shows(str, cnt, stack, esc, c) && cnt < |str|
    ensures c.rest != "" && str[cnt] == c.rest[0] && esc == c.esc
    ensures str[cnt..] == c.rest
    ensures |stack| == |c.frames| && (stack == [] ==> str == c.out + c.rest)
  {
  }

  lemma AtEnd(str: string, cnt: nat, stack: seq<(bool, nat)>, esc: bool, c: Scan)
    requires Shows(str, cnt, stack, esc, c) && cnt >= |str|
    ensures forall t :: Eval(t, c) == Text(str)
  {
  }

  lemma TopText(str: string, cnt: nat, stack: seq<(bool, nat)>, esc: bool, c: Scan)
    requires Shows(str, cnt, stack, esc, c) && c.frames != [] && c.rest != ""
    ensures stack != []
    ensures var top := stack[|stack| - 1];
            && top.0 == c.frames[|c.frames| - 1].escaped
            && top.1 <= cnt < |str| && str[top.1..cnt] == c.frames[|c.frames| - 1].text
  {
    CloseShows(str, cnt, stack, esc, c, "");
  }

  // ----- Open calls -----

  /** Every frame starts with the `${` that opened it; the brace of the last one may still be unread. */
  ghost predicate FramesOpen(c: Scan) {
    forall j :: 0 <= j < |c.frames| ==>
      AtOpening(c.frames[j].text) || (j == |c.frames| - 1 && c.frames[j].text == "$" && c.rest != "" && c.rest[0] == '{')
  }

  lemma EmitFramesOpen(c: Scan, s: string)
    requires forall j :: 0 <= j < |c.frames| ==> AtOpening(c.frames[j].text)
    ensures forall j :: 0 <= j < |Emit(c, s).frames| ==> AtOpening(Emit(c, s).frames[j].text)
  {
  }

  lemma CloseFramesOpen(c: Scan, s: string)
    requires c.rest != "" && c.rest[0] == '}' && c.frames != [] && FramesOpen(c)
    ensures forall j :: 0 <= j < |Close(c, s).frames| ==> AtOpening(Close(c, s).frames[j].text)
  {
    EmitFramesOpen(c.(frames := c.frames[..|c.frames| - 1], rest := c.rest[1..]), s);
  }

  lemma ReadFramesOpen(c: Scan)
    requires c.rest != "" && FramesOpen(c)
    ensures forall j :: 0 <= j < |ReadOne(c).frames| ==> AtOpening(ReadOne(c).frames[j].text)
  {
  }

  lemma StepFramesOpen(t: Table, c: Scan)
    requires c.rest != "" && FramesOpen(c) && Step(t, c).Continue?
    ensures FramesOpen(Step(t, c).scan)
  {
    hide Evaluate, Flat, Close, ReadOne;
    if c.rest[0] == '}' && c.frames != [] {
      var top := c.frames[|c.frames| - 1];
      var call := if top.escaped then NoCall else Evaluate(t, top.text);
      if call.Expands? {
        var d := Close(c, call.text);
        CloseFramesOpen(c, call.text);
        if d.rest != "" { ReadFramesOpen(d); }
      } else {
        CloseFramesOpen(c, top.text + "}");
      }
    } else if c.rest[0] != '}' && !AtOpening(c.rest) {
      ReadFramesOpen(c);
    }
  }

  /** Every entry of the parser's stack is at a `${` to the left of the cursor. */
  ghost predicate OpenedAtCalls(str: string, cnt: nat, stack: seq<(bool, nat)>) {
    forall j :: 0 <= j < |stack| ==> stack[j].1 < cnt && stack[j].1 < |str| && AtOpening(str[stack[j].1..])
  }

  lemma StackAtOpenings(str: string, cnt: nat, stack: seq<(bool, nat)>, esc: bool, c: Scan)
    requires Shows(str, cnt, stack, esc, c) && FramesOpen(c)
    ensures OpenedAtCalls(str, cnt, stack)
  {
    hide Shows, FramesOpen;
    SameHeight(str, cnt, stack, esc, c);
    forall j | 0 <= j < |stack| ensures stack[j].1 < cnt && stack[j].1 < |str| && AtOpening(str[stack[j].1..]) {
      EntryAtOpening(str, cnt, stack, esc, c, j);
    }
  }

  /** Each turn of the parser keeps its stack at the openings. */
  lemma StaysOpened(t: Table, str: string, cnt: nat, stack: seq<(bool, nat)>, esc: bool, c: Scan)
    requires c.rest != "" && FramesOpen(c) && Step(t, c).Continue? && Shows(str, cnt, stack, esc, Step(t, c).scan)
    ensures FramesOpen(Step(t, c).scan) && OpenedAtCalls(str, cnt, stack)
  {
    hide Shows, FramesOpen, Step, OpenedAtCalls;
    StepFramesOpen(t, c);
    StackAtOpenings(str, cnt, stack, esc, Step(t, c).scan);
  }

  lemma SameHeight(str: string, cnt: nat, stack: seq<(bool, nat)>, esc: bool, c: Scan)
    requires Shows(str, cnt, stack, esc, c)
    ensures |stack| == |c.frames|
  {
  }

  lemma EntryAtOpening(str: string, cnt: nat, stack: seq<(bool, nat)>, esc: bool, c: Scan, j: nat)
    requires Shows(str, cnt, stack, esc, c) && FramesOpen(c) && j < |stack|
    ensures stack[j].1 < cnt && stack[j].1 < |str| && AtOpening(str[stack[j].1..])
  {
    hide Flat;
    assert c.frames == c.frames[..j] + c.frames[j..];
    FlatAppend(c.out, c.frames[..j], c.frames[j..]);
    var front, tail := Flat(c.out, c.frames[..j]), Flat("", c.frames[j..]);
    DropPrefix(front, tail, c.rest);
    assert c.frames[j..][0] == c.frames[j];
    FlatFirst(c.frames[j..]);
    OpeningGrows(c.frames[j].text, tail, c.rest);
  }

  lemma DropPrefix(a: string, b: string, c: string)
    ensures (a + b + c)[|a|..] == b + c
  {
  }

  /** Text that begins with a frame begins a call where the frame does. */
  lemma OpeningGrows(text: string, tail: string, rest: string)
    requires |tail| >= |text| && tail[..|text|] == text
    requires AtOpening(text) || (text == "$" && tail == text && rest != "" && rest[0] == '{')
    ensures AtOpening(tail + rest)
  {
    if AtOpening(text) {
      assert tail[0] == tail[..|text|][0] && tail[1] == tail[..|text|][1];
    }
  }

  lemma {:induction false} FlatAppend(out: string, a: seq<Frame>, b: seq<Frame>)
    ensures Flat(out, a + b) == Flat(out, a) + Flat("", b)
  {
    if b == [] {
      assert a + b == a;
    } else {
      hide Flat;
      var front, f := b[..|b| - 1], b[|b| - 1];
      FlatAppend(out, a, front);
      LastApart(a, b);
      FlatPush("", front, f);
      FlatPush(out, a + front, f);
      Regroup(Flat(out, a), Flat("", front), f.text);
    }
  }

  lemma LastApart(a: seq<Frame>, b: seq<Frame>)
    requires b != []
    ensures b == b[..|b| - 1] + [b[|b| - 1]] && a + b == (a + b[..|b| - 1]) + [b[|b| - 1]]
  {
  }

  lemma Regroup(a: string, b: string, c: string)
    ensures (a + b) + c == a + (b + c)
  {
  }

  lemma {:induction false} FlatFirst(frames: seq<Frame>)
    requires frames != []
    ensures |Flat("", frames)| >= |frames[0].text| && Flat("", frames)[..|frames[0].text|] == frames[0].text
    ensures |frames| == 1 ==> Flat("", frames) == frames[0].text
  {
    if |frames| > 1 {
      FlatFirst(frames[..|frames| - 1]);
    }
  }

  // ----- The evaluator without the skipped character -----

  function CleanStep(t: Table, c: Scan): Next
    requires c.rest != ""
  {
    if c.rest[0] == '}' && c.frames != [] then
      var top := c.frames[|c.frames| - 1];
      var call := if top.escaped then NoCall else Evaluate(t, top.text);
      match call
      case NoCall => Continue(Close(c, top.text + "}").(esc := false))
      case BadCall => Halt(Raised)
      case Expands(s) => Continue(var d := Close(c, s); d.(esc := EndsEscaped(Flat(d.out, d.frames))))
    else Step(t, c)
  }

  function CleanEval(t: Table, c: Scan): Result
    decreases |c.rest|
  {
    if c.rest == "" then Text(Flat(c.out, c.frames))
    else
      match CleanStep(t, c)
      case Halt(r) => r
      case Continue(d) => CleanEval(t, d)
  }

  /** An expansion that leaves nothing before the cursor and something after it. */
  predicate Skips(t: Table, c: Scan)
    requires c.rest != ""
  {
    CleanStep(t, c).Continue? && c.rest[0] == '}' && |c.rest| > 1 &&
    var d := CleanStep(t, c).scan; Flat(d.out, d.frames) == ""
  }

  /** The parser takes the evaluator's step exactly when it does not skip a character; when it does, it is
      where the evaluator is one step later exactly when that character is neither `}` nor opens a call. */
  lemma StepIsCleanIff(t: Table, c: Scan)
    requires c.rest != ""
    ensures Step(t, c) == CleanStep(t, c) <==> !Skips(t, c)
    ensures Skips(t, c) ==>
              var d := CleanStep(t, c).scan;
              Step(t, c) == CleanStep(t, d) <==> d.rest[0] != '}' && !AtOpening(d.rest)
  {
    hide Evaluate, Emit, Flat, Close, ReadOne;
    if c.rest[0] == '}' && c.frames != [] {
      var top := c.frames[|c.frames| - 1];
      FlatClose(c, top.text + "}");
      CloseShape(c, top.text + "}");
      var call := if top.escaped then NoCall else Evaluate(t, top.text);
      if call.Expands? {
        var d := Close(c, call.text);
        CloseShape(c, call.text);
        if d.rest != "" { ReadOneShape(d, EndsEscaped(Flat(d.out, d.frames))); }
        if Skips(t, c) { SkippedShape(t, d.(esc := EndsEscaped(Flat(d.out, d.frames)))); }
      }
    }
  }

  lemma CloseShape(c: Scan, s: string)
    requires c.frames != [] && c.rest != ""
    ensures Close(c, s).rest == c.rest[1..] && |Close(c, s).frames| == |c.frames| - 1
  {
  }

  lemma ReadOneShape(c: Scan, esc: bool)
    requires c.rest != ""
    ensures ReadOne(c).rest == c.rest[1..] && |ReadOne(c).frames| == |c.frames|
    ensures ReadOne(c.(esc := esc)) == ReadOne(c)
  {
  }

  /** A step copies a character exactly when that is neither `}` nor opens a call. */
  lemma SkippedShape(t: Table, d: Scan)
    requires d.rest != ""
    ensures CleanStep(t, d) == Continue(ReadOne(d)) <==> d.rest[0] != '}' && !AtOpening(d.rest)
  {
    hide Evaluate, Emit, Flat, Close, ReadOne;
    ReadOneShape(d, false);
    if d.rest[0] == '}' && d.frames != [] {
      var top := d.frames[|d.frames| - 1];
      CloseShape(d, top.text + "}");
      var call := if top.escaped then NoCall else Evaluate(t, top.text);
      if call.Expands? { CloseShape(d, call.text); }
    }
  }

  lemma FlatClose(c: Scan, s: string)
    requires c.frames != [] && c.rest != ""
    ensures var d := Close(c, s); Flat(d.out, d.frames) == Flat(c.out, c.frames[..|c.frames| - 1]) + s
    ensures Close(c, s).rest == c.rest[1..]
  {
    FlatEmit(c.(frames := c.frames[..|c.frames| - 1], rest := c.rest[1..]), s);
  }

  lemma OutGrows(t: Table, c: Scan)
    requires c.rest != "" && c.out != ""
    ensures CleanStep(t, c).Continue? ==> CleanStep(t, c).scan.out != "" && |CleanStep(t, c).scan.rest| < |c.rest|
    ensures !Skips(t, c)
  {
    hide Evaluate;
    if c.rest[0] == '}' && c.frames != [] {
      var d := CleanStep(t, c);
      if d.Continue? { FlatKeepsOut(d.scan.out, d.scan.frames); }
    }
  }

  lemma {:induction false} FlatKeepsOut(out: string, frames: seq<Frame>)
    ensures |Flat(out, frames)| >= |out|
  {
    if frames != [] {
      FlatKeepsOut(out, frames[..|frames| - 1]);
    }
  }

  lemma {:induction false} EvalIsClean(t: Table, c: Scan)
    requires c.out != ""
    ensures Eval(t, c) == CleanEval(t, c)
    decreases |c.rest|
  {
    hide Step, CleanStep, Skips;
    if c.rest != "" {
      OutGrows(t, c);
      StepIsCleanIff(t, c);
      var d := CleanStep(t, c);
      if d.Continue? { EvalIsClean(t, d.scan); }
    }
  }

  /** On every text that does not start with `${` the parser is the evaluator: no character is skipped. */
  lemma ProcessIsClean(t: Table, s: string)
    requires !AtOpening(s)
    ensures Eval(t, Initial(s)) == CleanEval(t, Initial(s))
  {
    if s != "" && s[0] != '}' {
      EvalIsClean(t, ReadOne(Initial(s)));
    }
  }

  /** The skipped character would have closed or opened a call. */
  predicate SkipsBrace(t: Table, c: Scan)
    requires c.rest != ""
  {
    Skips(t, c) && var d := CleanStep(t, c).scan; d.rest != "" && (d.rest[0] == '}' || AtOpening(d.rest))
  }

  predicate NeverSkipsBrace(t: Table, c: Scan)
    decreases |c.rest|
  {
    c.rest == "" ||
    (!SkipsBrace(t, c) && (StepShrinks(t, c); Step(t, c).Continue? ==> NeverSkipsBrace(t, Step(t, c).scan)))
  }

  /** The parser is the evaluator on every run that skips no brace. */
  lemma {:induction false} EvalIsCleanUnlessSkipping(t: Table, c: Scan)
    requires NeverSkipsBrace(t, c)
    ensures Eval(t, c) == CleanEval(t, c)
    decreases |c.rest|
  {
    hide Step, CleanStep, Skips;
    if c.rest != "" {
      StepShrinks(t, c);
      StepIsCleanIff(t, c);
      SkipsRest(t, c);
      if Step(t, c).Continue? { EvalIsCleanUnlessSkipping(t, Step(t, c).scan); }
    }
  }

  lemma SkipsRest(t: Table, c: Scan)
    requires c.rest != ""
    ensures Skips(t, c) ==> CleanStep(t, c).Continue? && CleanStep(t, c).scan.rest != ""
  {
    if Skips(t, c) { StepShape(t, c); }
  }

  /** Text without `${` is left alone. */
  lemma {:induction false} PlainText(t: Table, c: Scan)
    requires c.frames == [] && '$' !in c.rest
    ensures Eval(t, c) == Text(c.out + c.rest)
    decreases |c.rest|
  {
    if c.rest != "" && c.rest[0] != '}' {
      PlainText(t, ReadOne(c));
      assert c.out + c.rest == (c.out + [c.rest[0]]) + c.rest[1..];
    }
  }

  /** Inside a call, other characters are collected. */
  lemma {:induction false} ReadInCall(t: Table, out: string, text: string, w: string, rest: string)
    requires '$' !in w && '}' !in w && '\\' !in w
    ensures var c, d := Scan(out, [Frame(false, text)], false, w + rest), Scan(out, [Frame(false, text + w)], false, rest);
            Eval(t, c) == Eval(t, d) && CleanEval(t, c) == CleanEval(t, d)
    decreases |w|
  {
    if w == "" {
      assert w + rest == rest && text + w == text;
    } else {
      var c := Scan(out, [Frame(false, text)], false, w + rest);
      assert c.rest[0] == w[0] && c.rest[1..] == w[1..] + rest;
      assert ReadOne(c) == Scan(out, [Frame(false, text + [w[0]])], false, w[1..] + rest);
      assert Step(t, c) == CleanStep(t, c) == Continue(ReadOne(c));
      ReadInCall(t, out, text + [w[0]], w[1..], rest);
      assert text + [w[0]] + w[1..] == text + w;
    }
  }

  lemma SplitColon(s: string)
    requires !EndsEscaped(s)
    ensures SplitArgs(s + ":") == SplitArgs(s) + [""]
  {
    assert (s + ":")[..|s|] == s;
  }

  lemma SplitSnoc(s: string, c: char)
    requires c != ':'
    ensures var p := SplitArgs(s); SplitArgs(s + [c]) == p[..|p| - 1] + [p[|p| - 1] + [c]]
  {
    assert (s + [c])[..|s|] == s;
  }

  lemma SnocText(s: string)
    requires s != ""
    ensures s == s[..|s| - 1] + [s[|s| - 1]]
  {
  }

  lemma {:induction false} SplitPlain(s: string)
    requires ':' !in s
    ensures SplitArgs(s) == [s]
  {
    if s != "" {
      hide SplitArgs;
      var front, last := s[..|s| - 1], s[|s| - 1];
      SplitPlain(front);
      SplitSnoc(front, last);
      SnocText(s);
      assert [front][..0] == [];
    }
  }

  lemma {:induction false} SplitTwo(a: string, b: string)
    requires ':' !in a && ':' !in b && !EndsEscaped(a)
    ensures SplitArgs(a + ":" + b) == [a, b]
    decreases |b|
  {
    hide SplitArgs, EndsEscaped;
    if b == "" {
      SplitPlain(a);
      SplitColon(a);
      assert a + ":" + b == a + ":";
    } else {
      var front, last := b[..|b| - 1], b[|b| - 1];
      SplitTwo(a, front);
      SplitSnoc(a + ":" + front, last);
      SnocText(b);
      Regroup(a + ":", front, [last]);
      assert [a, front][..1] == [a];
    }
  }

  lemma CallOfE(t: Table, value: string)
    requires t("e", []) == Some(value)
    ensures Evaluate(t, "${f:e") == Expands(value)
  {
    SplitTwo("${f", "e");
    assert "${f" + ":" + "e" == "${f:e";
    assert UnescapeColons("e") == "e";
    assert Unescaped(["${f", "e"])[1] == "e" && Unescaped(["${f", "e"])[2..] == [];
  }

  /** Both read a call at the start up to its brace. */
  lemma ReadCallOfE(t: Table, rest: string)
    ensures var s, c := "${f:e}" + rest, Scan("", [Frame(false, "${f:e")], false, "}" + rest);
            Eval(t, Initial(s)) == Eval(t, c) && CleanEval(t, Initial(s)) == CleanEval(t, c)
  {
    hide Step, CleanStep;
    var s := "${f:e}" + rest;
    var w := "{f:e";
    assert s[0] == '$' && s[1] == '{' && s[1..] == w + ("}" + rest);
    ReadInCall(t, "", "$", w, "}" + rest);
    assert "$" + w == "${f:e";
    OpenStep(t, s);
    SameOpening(t, s);
  }

  lemma SameOpening(t: Table, s: string)
    requires AtOpening(s)
    ensures CleanStep(t, Initial(s)) == Step(t, Initial(s))
  {
  }

  /** A text that starts with a call without output is where they differ: here the parser leaves the second
      call as it stands, the evaluator expands both. */
  lemma SkippedCall(t: Table)
    requires t("e", []) == Some("")
    ensures Eval(t, Initial("${f:e}" + "${f:e}")) == Text("${f:e}")
    ensures CleanEval(t, Initial("${f:e}" + "${f:e}")) == Text("")
  {
    hide Evaluate, Step, CleanStep, Eval, CleanEval;
    CallOfE(t, "");
    var one, rest := "${f:e}", "{f:e}";
    ReadCallOfE(t, one);
    ReadCallOfE(t, "");
    EmptyExpansion(t, Scan("", [Frame(false, "${f:e")], false, "}" + one), one);
    EmptyExpansion(t, Scan("", [Frame(false, "${f:e")], false, "}" + ""), "");
    assert one[0] == '$' && one[1..] == rest && one + "" == one;
    PlainText(t, Scan("$", [], false, rest));
    assert "$" + rest == one;
    NothingToRead(t);
  }

  lemma NothingToRead(t: Table)
    ensures CleanEval(t, Initial("")) == Text("")
  {
  }

  /** Closing a call without output at the start: the parser copies the next character unread. */
  lemma EmptyExpansion(t: Table, c: Scan, rest: string)
    requires c.out == "" && |c.frames| == 1 && !c.frames[0].escaped && c.rest == "}" + rest
    requires Evaluate(t, c.frames[0].text) == Expands("")
    ensures CleanEval(t, c) == CleanEval(t, Initial(rest))
    ensures rest != "" ==> Eval(t, c) == Eval(t, Scan([rest[0]], [], rest[0] == '\\', rest[1..]))
    ensures rest == "" ==> Eval(t, c) == Text("")
  {
    hide Evaluate;
    assert c.rest[1..] == rest;
    var d := Close(c, "");
    assert c.frames[..0] == [] && d == Scan("", [], c.esc, rest);
    assert CleanStep(t, c) == Continue(Initial(rest));
    assert Step(t, c) == Continue(AfterExpansion(d));
    if rest != "" {
      assert AfterExpansion(d) == Scan([rest[0]], [], rest[0] == '\\', rest[1..]);
    }
  }

  // ----- Where calls open and close -----

  /** n steps of the evaluator; `None` once it has stopped. */
  function CleanSteps(t: Table, c: Scan, n: nat): Option<Scan> {
    if n == 0 then Some(c)
    else
      match CleanSteps(t, c, n - 1)
      case None => None
      case Some(d) =>
        if d.rest == "" then None
        else
          match CleanStep(t, d)
          case Halt(_) => None
          case Continue(e) => Some(e)
  }

  lemma StepShape(t: Table, c: Scan)
    requires c.rest != "" && CleanStep(t, c).Continue?
    ensures CleanStep(t, c).scan.rest == c.rest[1..]
    ensures |CleanStep(t, c).scan.frames| ==
            if c.rest[0] == '}' then |c.frames| - 1 else if AtOpening(c.rest) then |c.frames| + 1 else |c.frames|
  {
    hide Evaluate, Flat;
  }

  /** In the evaluator the same characters of the input open and close calls, whatever the functions return. */
  lemma {:induction false} CleanOpenings(t: Table, u: Table, s: string, n: nat)
    ensures var c, d := CleanSteps(t, Initial(s), n), CleanSteps(u, Initial(s), n);
            c.Some? && d.Some? ==> c.value.rest == d.value.rest && |c.value.frames| == |d.value.frames|
  {
    hide CleanStep;
    if n > 0 {
      CleanOpenings(t, u, s, n - 1);
      var c, d := CleanSteps(t, Initial(s), n - 1), CleanSteps(u, Initial(s), n - 1);
      if c.Some? && d.Some? && c.value.rest != "" {
        if CleanStep(t, c.value).Continue? { StepShape(t, c.value); }
        if CleanStep(u, d.value).Continue? { StepShape(u, d.value); }
      }
    }
  }

  /** n turns of the parser; `None` once it has stopped. */
  function Steps(t: Table, c: Scan, n: nat): Option<Scan> {
    if n == 0 then Some(c)
    else
      match Steps(t, c, n - 1)
      case None => None
      case Some(d) =>
        if d.rest == "" then None
        else
          match Step(t, d)
          case Halt(_) => None
          case Continue(e) => Some(e)
  }

  /** A turn reads one character of the input, or two when it skips one. */
  lemma StepReads(t: Table, c: Scan)
    requires c.rest != "" && Step(t, c).Continue?
    ensures Skips(t, c) ==> |c.rest| >= 2
    ensures Step(t, c).scan.rest == if Skips(t, c) then c.rest[2..] else c.rest[1..]
  {
    hide Evaluate, Emit, Flat, Close, ReadOne;
    if c.rest[0] == '}' && c.frames != [] {
      var top := c.frames[|c.frames| - 1];
      CloseShape(c, top.text + "}");
      FlatClose(c, top.text + "}");
      var call := if top.escaped then NoCall else Evaluate(t, top.text);
      if call.Expands? {
        var d := Close(c, call.text);
        CloseShape(c, call.text);
        if d.rest != "" {
          ReadOneShape(d, false);
          if |c.rest| >= 2 { assert c.rest[1..][1..] == c.rest[2..]; }
        }
      }
    } else if !AtOpening(c.rest) && c.rest[0] != '}' {
      ReadOneShape(c, false);
    }
  }

  /** Function output is never scanned: after any number of turns, whatever the functions return, what is left to
      read is the end of the input. */
  lemma {:induction false} OutputIsNotScanned(t: Table, s: string, n: nat)
    ensures var c := Steps(t, Initial(s), n);
            c.Some? ==> n + |c.value.rest| <= |s| && c.value.rest == s[|s| - |c.value.rest|..]
  {
    hide Step, Skips;
    if n > 0 {
      OutputIsNotScanned(t, s, n - 1);
      var c := Steps(t, Initial(s), n - 1);
      if c.Some? && c.value.rest != "" && Step(t, c.value).Continue? { StepReads(t, c.value); }
    }
  }

  /** Two runs that have read the same go on with the same characters exactly when both skip one or none does. */
  lemma SameStepIff(t: Table, u: Table, c: Scan, d: Scan)
    requires c.rest == d.rest != "" && Step(t, c).Continue? && Step(u, d).Continue?
    ensures Step(t, c).scan.rest == Step(u, d).scan.rest <==> (Skips(t, c) <==> Skips(u, d))
  {
    hide Step, Skips;
    StepReads(t, c);
    StepReads(u, d);
  }

  /** The n-th state of the parser is one where it skips a character. */
  ghost predicate SkipsAt(t: Table, c: Scan, n: nat) {
    Steps(t, c, n).Some? && Steps(t, c, n).value.rest != "" && Skips(t, Steps(t, c, n).value)
  }

  lemma {:induction false} StepsAgree(t: Table, c: Scan, n: nat)
    requires forall m: nat :: m < n ==> !SkipsAt(t, c, m)
    ensures Steps(t, c, n) == CleanSteps(t, c, n)
  {
    hide Step, CleanStep, Skips;
    if n > 0 {
      StepsAgree(t, c, n - 1);
      var d := Steps(t, c, n - 1);
      if d.Some? && d.value.rest != "" {
        assert !SkipsAt(t, c, n - 1);
        StepIsCleanIff(t, d.value);
      }
    }
  }

  lemma SkipDiffers(t: Table, c: Scan, n: nat)
    requires SkipsAt(t, c, n) && Steps(t, c, n) == CleanSteps(t, c, n)
    ensures Steps(t, c, n + 1) != CleanSteps(t, c, n + 1)
  {
    hide Step, CleanStep, Skips;
    var d := Steps(t, c, n).value;
    StepIsCleanIff(t, d);
    SkipsRest(t, d);
  }

  /** After n turns the parser is where the evaluator is after n steps. */
  ghost predicate Agrees(t: Table, c: Scan, n: nat) {
    Steps(t, c, n) == CleanSteps(t, c, n)
  }

  lemma AgreeingNeverSkips(t: Table, c: Scan, n: nat)
    requires Agrees(t, c, n) && Agrees(t, c, n + 1)
    ensures !SkipsAt(t, c, n)
  {
    hide SkipsAt;
    if SkipsAt(t, c, n) {
      SkipDiffers(t, c, n);
      assert false;
    }
  }

  /** The parser goes through the states of the evaluator, turn by turn, exactly when it never skips a character. */
  lemma StepsAreCleanIff(t: Table, c: Scan)
    ensures (forall n: nat :: Agrees(t, c, n)) <==> (forall n: nat :: !SkipsAt(t, c, n))
  {
    hide SkipsAt;
    if forall n: nat :: Agrees(t, c, n) {
      forall n: nat ensures !SkipsAt(t, c, n) {
        assert Agrees(t, c, n) && Agrees(t, c, n + 1);
        AgreeingNeverSkips(t, c, n);
      }
    }
    if forall n: nat :: !SkipsAt(t, c, n) {
      forall n: nat ensures Agrees(t, c, n) { StepsAgree(t, c, n); }
    }
  }

  /** On a text that does not start with a call every turn is a step of the evaluator. */
  lemma {:induction false} StepsAreClean(t: Table, s: string, n: nat)
    requires !AtOpening(s)
    ensures Steps(t, Initial(s), n) == CleanSteps(t, Initial(s), n)
    ensures n > 0 && Steps(t, Initial(s), n).Some? ==> Steps(t, Initial(s), n).value.out != ""
  {
    hide Step, CleanStep, Skips;
    if n == 1 {
      if s != "" { FirstStep(t, s); }
    } else if n > 1 {
      StepsAreClean(t, s, n - 1);
      var c := Steps(t, Initial(s), n - 1);
      if c.Some? && c.value.rest != "" {
        OutGrows(t, c.value);
        StepIsCleanIff(t, c.value);
      }
    }
  }

  lemma FirstStep(t: Table, s: string)
    requires s != "" && !AtOpening(s)
    ensures Step(t, Initial(s)) == CleanStep(t, Initial(s))
    ensures Step(t, Initial(s)).Continue? ==> Step(t, Initial(s)).scan.out != ""
  {
  }

  /** Then the same characters open and close calls, whatever the functions return. */
  lemma SameOpenings(t: Table, u: Table, s: string, n: nat)
    requires !AtOpening(s)
    ensures var c, d := Steps(t, Initial(s), n), Steps(u, Initial(s), n);
            c.Some? && d.Some? ==> c.value.rest == d.value.rest && |c.value.frames| == |d.value.frames|
  {
    StepsAreClean(t, s, n);
    StepsAreClean(u, s, n);
    CleanOpenings(t, u, s, n);
  }

  lemma OpenStep(t: Table, s: string)
    requires AtOpening(s)
    ensures Step(t, Initial(s)) == Continue(Scan("", [Frame(false, "$")], false, s[1..]))
  {
    assert Initial(s).frames + [Frame(false, "$")] == [Frame(false, "$")];
  }

  lemma ReadStep(t: Table, text: string, rest: string)
    requires rest != "" && rest[0] != '$' && rest[0] != '}' && rest[0] != '\\'
    ensures Step(t, Scan("", [Frame(false, text)], false, rest)) ==
            Continue(Scan("", [Frame(false, text + [rest[0]])], false, rest[1..]))
  {
  }

  /** The first k characters of a call are collected. */
  lemma {:induction false} ReadSteps(t: Table, s: string, k: nat)
    requires AtOpening(s) && 1 <= k <= |s| && forall j :: 1 <= j < k ==> s[j] != '$' && s[j] != '}' && s[j] != '\\'
    ensures Steps(t, Initial(s), k) == Some(Scan("", [Frame(false, s[..k])], false, s[k..]))
  {
    hide Step;
    if k == 1 {
      assert Steps(t, Initial(s), 0) == Some(Initial(s)) && s[..1] == "$";
      OpenStep(t, s);
    } else {
      ReadSteps(t, s, k - 1);
      assert s[k - 1..][0] == s[k - 1] && s[k - 1..][1..] == s[k..] && s[..k - 1] + [s[k - 1]] == s[..k];
      ReadStep(t, s[..k - 1], s[k - 1..]);
    }
  }

  /** On a text that starts with a call they need not be: when the first call has no output the second is not
      opened. */
  lemma OutputMatters(t: Table, u: Table)
    requires t("e", []) == Some("") && u("e", []) == Some("x")
    ensures var s := "${f:e}${f:e}";
            var c, d := Steps(t, Initial(s), 6), Steps(u, Initial(s), 6);
            c.Some? && d.Some? && c.value.rest == "{f:e}" && d.value.rest == "${f:e}"
  {
    hide Evaluate, Step, Steps;
    CallOfE(t, "");
    CallOfE(u, "x");
    FirstCall(t, "");
    FirstCall(u, "x");
    assert "${f:e}"[1..] == "{f:e}";
  }

  lemma FirstCall(t: Table, value: string)
    requires Evaluate(t, "${f:e") == Expands(value)
    ensures var c := Steps(t, Initial("${f:e}${f:e}"), 6);
            c.Some? && c.value.rest == if value == "" then "${f:e}"[1..] else "${f:e}"
  {
    hide Evaluate, Step;
    var s, rest := "${f:e}${f:e}", "${f:e}";
    ReadSteps(t, s, 5);
    assert s[..5] == "${f:e" && s[5..] == "}" + rest;
    ClosingStep(t, "${f:e", rest, value);
  }

  /** Closing the only call of a text: without output the next character is skipped. */
  lemma ClosingStep(t: Table, text: string, rest: string, value: string)
    requires Evaluate(t, text) == Expands(value) && rest != ""
    ensures var r := Step(t, Scan("", [Frame(false, text)], false, "}" + rest));
            r.Continue? && r.scan.rest == if value == "" then rest[1..] else rest
  {
    hide Evaluate;
    var c := Scan("", [Frame(false, text)], false, "}" + rest);
    assert c.rest[1..] == rest && c.frames[..0] == [] && "" + value == value;
    assert Close(c, value) == Scan(value, [], false, rest);
  }
}
