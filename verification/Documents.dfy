/** What a text with function calls stands for. A document is text with calls in it, to any depth; a call hands the
    values of its parts to the function and is replaced by the result. Expanding the written form of a document gives
    its value (tuned/profiles/functions/parser.py). */
module Documents {
  import opened Text
  import opened Expander

  /** A text: characters, calls `${f:name:args}` and calls after a backslash, which are left as they stand. */
  datatype Doc =
    | Nil
    | Char(c: char, next: Doc)
    | Call(parts: Parts, next: Doc)
    | Quoted(body: Doc, next: Doc)

  /** The name of the function and its arguments. */
  datatype Parts = Last(part: Doc) | More(part: Doc, others: Parts)

  // ----- The written form -----

  /** A colon within an argument is written with a backslash. */
  function Escape(s: string): string {
    if s == "" then "" else (if s[0] == ':' then "\\:" else [s[0]]) + Escape(s[1..])
  }

  function Render(d: Doc, inside: bool): string {
    match d
    case Nil => ""
    case Char(c, next) => (if inside then Escape([c]) else [c]) + Render(next, inside)
    case Call(parts, next) => "${f" + RenderParts(parts) + "}" + Render(next, inside)
    case Quoted(body, next) => "\\${" + Render(body, inside) + "}" + Render(next, inside)
  }

  function RenderParts(ps: Parts): string {
    match ps
    case Last(part) => ":" + Render(part, true)
    case More(part, others) => ":" + Render(part, true) + RenderParts(others)
  }

  // ----- The value -----

  function Value(t: Table, d: Doc): string {
    match d
    case Nil => ""
    case Char(c, next) => [c] + Value(t, next)
    case Call(parts, next) => CallValue(t, Values(t, parts)) + Value(t, next)
    case Quoted(body, next) => "\\${" + Value(t, body) + "}" + Value(t, next)
  }

  function Values(t: Table, ps: Parts): (vs: seq<string>)
    ensures vs != []
  {
    match ps
    case Last(part) => [Value(t, part)]
    case More(part, others) => [Value(t, part)] + Values(t, others)
  }

  /** What the function makes of its arguments; a call without a result stays, with its arguments expanded. */
  function CallValue(t: Table, vs: seq<string>): string
    requires vs != []
  {
    match t(vs[0], vs[1..])
    case Some(v) => v
    case None => "${f" + Colons(vs) + "}"
  }

  /** The parts of a call, each after a colon. */
  function Colons(vs: seq<string>): string {
    if vs == [] then "" else Colons(vs[..|vs| - 1]) + ":" + Escape(vs[|vs| - 1])
  }

  // ----- The documents that can be written -----

  /** `esc` tells whether a backslash comes right before. Characters that open and close calls stand for themselves
      only in calls; no backslash precedes a call; a part does not end with one, and a call within a part has no
      colon in its result. */
  predicate Fits(t: Table, d: Doc, inside: bool, esc: bool) {
    match d
    case Nil => true
    case Char(c, next) => c != '$' && c != '}' && Fits(t, next, inside, c == '\\')
    case Call(parts, next) =>
      var v := CallValue(t, Values(t, parts));
      !esc && FitsParts(t, parts) && (inside ==> ':' !in v) && Fits(t, next, inside, EndsEscaped(v))
    case Quoted(body, next) => Fits(t, body, inside, false) && Fits(t, next, inside, false)
  }

  predicate FitsParts(t: Table, ps: Parts) {
    match ps
    case Last(part) => Fits(t, part, true, false) && !EndsEscaped(Value(t, part))
    case More(part, others) => Fits(t, part, true, false) && !EndsEscaped(Value(t, part)) && FitsParts(t, others)
  }

  // ----- Escaping -----

  lemma {:induction false} EscapeAppend(a: string, b: string)
    ensures Escape(a + b) == Escape(a) + Escape(b)
  {
    if a == "" {
      assert a + b == b;
    } else {
      assert (a + b)[1..] == a[1..] + b;
      EscapeAppend(a[1..], b);
    }
  }

  lemma {:induction false} EscapePlain(s: string)
    requires ':' !in s
    ensures Escape(s) == s
  {
    if s != "" { EscapePlain(s[1..]); }
  }

  lemma EscapeFirst(s: string)
    requires s != ""
    ensures Escape(s) == (if s[0] == ':' then "\\:" else [s[0]]) + Escape(s[1..])
    ensures Escape(s) != "" && Escape(s)[0] != ':'
  {
  }

  lemma {:induction false} EscapeEnds(s: string)
    ensures EndsEscaped(Escape(s)) == EndsEscaped(s)
  {
    if s != "" {
      hide Escape;
      EscapeFirst(s);
      EscapeEnds(s[1..]);
      if |s| == 1 { EscapePlain(""); } else { EscapeFirst(s[1..]); }
    }
  }

  lemma {:induction false} UnescapeEscape(s: string)
    ensures UnescapeColons(Escape(s)) == s
  {
    if s == "" {
      EscapePlain("");
    } else {
      hide Escape;
      var e, tail := Escape(s), Escape(s[1..]);
      EscapeFirst(s);
      UnescapeEscape(s[1..]);
      if |s| == 1 { EscapePlain(""); } else { EscapeFirst(s[1..]); }
      assert e[if s[0] == ':' then 2 else 1..] == tail;
      assert s == [s[0]] + s[1..];
    }
  }

  function EscapeAll(vs: seq<string>): seq<string> {
    seq(|vs|, i requires 0 <= i < |vs| => Escape(vs[i]))
  }

  /** A written argument is not split, and goes to the last part. */
  lemma {:induction false} SplitEscaped(s: string, v: string)
    ensures var p := SplitArgs(s); SplitArgs(s + Escape(v)) == p[..|p| - 1] + [p[|p| - 1] + Escape(v)]
    decreases |v|
  {
    hide SplitArgs;
    if v == "" {
      assert s + "" == s;
      var p := SplitArgs(s);
      assert p == p[..|p| - 1] + [p[|p| - 1]] && p[|p| - 1] + "" == p[|p| - 1];
    } else {
      var front, c := v[..|v| - 1], v[|v| - 1];
      SplitEscaped(s, front);
      assert v == front + [c];
      EscapeAppend(front, [c]);
      EscapeOne(c);
      var p, x := SplitArgs(s), s + Escape(front);
      var q := p[..|p| - 1] + [p[|p| - 1] + Escape(front)];
      assert q[..|q| - 1] == p[..|p| - 1];
      if c == ':' {
        SplitSnoc(x, '\\');
        SplitAfterBackslash(x);
        Regroup(s, Escape(front), "\\:");
        Regroup(p[|p| - 1], Escape(front), "\\:");
      } else {
        SplitSnoc(x, c);
        Regroup(s, Escape(front), [c]);
        Regroup(p[|p| - 1], Escape(front), [c]);
      }
    }
  }

  lemma EscapeOne(c: char)
    ensures Escape([c]) == if c == ':' then "\\:" else [c]
  {
    assert [c][1..] == "";
  }

  lemma SplitAfterBackslash(s: string)
    ensures var p := SplitArgs(s); SplitArgs(s + "\\:") == p[..|p| - 1] + [p[|p| - 1] + "\\:"]
  {
    SplitSnoc(s, '\\');
    var u := s + ['\\'];
    var p := SplitArgs(s);
    assert (s + "\\:")[..|s| + 1] == u;
    var q := p[..|p| - 1] + [p[|p| - 1] + ['\\']];
    assert q[..|q| - 1] == p[..|p| - 1] && (p[|p| - 1] + ['\\']) + [':'] == p[|p| - 1] + "\\:";
  }

  lemma SplitPart(s: string, v: string)
    requires !EndsEscaped(s)
    ensures SplitArgs(s + ":" + Escape(v)) == SplitArgs(s) + [Escape(v)]
  {
    hide SplitArgs, EndsEscaped;
    SplitColon(s);
    SplitEscaped(s + ":", v);
    assert "" + Escape(v) == Escape(v);
  }

  lemma PartEnds(a: string, v: string)
    requires !EndsEscaped(v)
    ensures !EndsEscaped(a + ":" + Escape(v))
  {
    EscapeEnds(v);
  }

  lemma EscapeAllLength(vs: seq<string>)
    ensures |EscapeAll(vs)| == |vs|
  {
  }

  lemma EscapeAllSnoc(front: seq<string>, v: string)
    ensures EscapeAll(front + [v]) == EscapeAll(front) + [Escape(v)]
  {
  }

  lemma {:induction false} SplitColons(head: string, vs: seq<string>)
    requires !EndsEscaped(head) && forall i :: 0 <= i < |vs| ==> !EndsEscaped(vs[i])
    ensures SplitArgs(head + Colons(vs)) == SplitArgs(head) + EscapeAll(vs)
    ensures !EndsEscaped(head + Colons(vs))
  {
    hide SplitArgs, EndsEscaped, Escape, EscapeAll;
    if vs == [] {
      EscapeAllLength(vs);
      assert head + "" == head;
    } else {
      var front, v := vs[..|vs| - 1], vs[|vs| - 1];
      SplitColons(head, front);
      SplitPart(head + Colons(front), v);
      PartEnds(head + Colons(front), v);
      assert head + Colons(vs) == head + Colons(front) + ":" + Escape(v);
      assert vs == front + [v];
      EscapeAllSnoc(front, v);
      assert SplitArgs(head) + EscapeAll(front) + [Escape(v)] == SplitArgs(head) + (EscapeAll(front) + [Escape(v)]);
    }
  }

  lemma UnescapeAll(vs: seq<string>)
    ensures Unescaped(["${f"] + EscapeAll(vs)) == ["${f"] + vs
  {
    hide UnescapeColons, Escape;
    var parts := ["${f"] + EscapeAll(vs);
    forall i | 0 <= i < |parts| ensures UnescapeColons(parts[i]) == (["${f"] + vs)[i] {
      if i == 0 {
        UnescapeHead();
      } else {
        UnescapeEscape(vs[i - 1]);
      }
    }
  }

  lemma UnescapeHead()
    ensures UnescapeColons("${f") == "${f"
  {
    EscapePlain("${f");
    UnescapeEscape("${f");
  }

  lemma EvaluateSplit(t: Table, text: string, parts: seq<string>, args: seq<string>)
    requires SplitArgs(text) == parts && Unescaped(parts) == args && |parts| >= 2 && |args| >= 2 && parts[0] == "${f"
    ensures Evaluate(t, text) == match t(args[1], args[2..]) case Some(v) => Expands(v) case None => NoCall
  {
    hide SplitArgs, Unescaped;
  }

  lemma HeadPlain()
    ensures !EndsEscaped("${f") && SplitArgs("${f") == ["${f"]
  {
    SplitPlain("${f");
  }

  lemma AfterHead(head: string, vs: seq<string>)
    requires vs != []
    ensures var args := [head] + vs; args[1] == vs[0] && args[2..] == vs[1..]
  {
  }

  /** The function of a call gets the values of the parts. */
  lemma EvaluateParts(t: Table, vs: seq<string>)
    requires vs != [] && forall i :: 0 <= i < |vs| ==> !EndsEscaped(vs[i])
    ensures Evaluate(t, "${f" + Colons(vs)) == match t(vs[0], vs[1..]) case Some(v) => Expands(v) case None => NoCall
  {
    hide SplitArgs, Unescaped, Colons, EscapeAll, Evaluate, EndsEscaped;
    HeadPlain();
    SplitColons("${f", vs);
    UnescapeAll(vs);
    EscapeAllLength(vs);
    AfterHead("${f", vs);
    EvaluateSplit(t, "${f" + Colons(vs), ["${f"] + EscapeAll(vs), ["${f"] + vs);
  }

  lemma ColonsSnoc(front: seq<string>, v: string)
    ensures Colons(front + [v]) == Colons(front) + ":" + Escape(v)
  {
    assert (front + [v])[..|front|] == front;
  }

  lemma ColonsNothing()
    ensures Colons([]) == ""
  {
  }

  lemma {:induction false} ColonsCons(v: string, vs: seq<string>)
    ensures Colons([v] + vs) == ":" + Escape(v) + Colons(vs)
  {
    hide Colons, Escape;
    if vs == [] {
      ColonsNothing();
      ColonsSnoc([], v);
      assert [v] + vs == [] + [v];
      assert "" + ":" + Escape(v) == ":" + Escape(v) + "";
    } else {
      var front, last := vs[..|vs| - 1], vs[|vs| - 1];
      ColonsCons(v, front);
      ColonsSnoc(front, last);
      ColonsSnoc([v] + front, last);
      assert vs == front + [last] && [v] + vs == [v] + front + [last];
      Regroup(":" + Escape(v), Colons(front), ":");
      Regroup(":" + Escape(v), Colons(front) + ":", Escape(last));
    }
  }

  // ----- States of the evaluator -----

  /** The parser and the evaluator end alike from both states. */
  ghost predicate Same(t: Table, c: Scan, d: Scan) {
    Eval(t, c) == Eval(t, d) && CleanEval(t, c) == CleanEval(t, d)
  }

  ghost predicate Good(c: Scan) {
    c.esc == EndsEscaped(Flat(c.out, c.frames))
  }

  /** The state after the text s was put out. */
  ghost function Put(c: Scan, s: string, rest: string): Scan {
    Emit(c, s).(rest := rest, esc := EndsEscaped(Flat(c.out, c.frames) + s))
  }

  lemma PutFlat(c: Scan, s: string, rest: string)
    ensures var d := Put(c, s, rest); Flat(d.out, d.frames) == Flat(c.out, c.frames) + s && Good(d)
    ensures Put(c, s, rest).rest == rest && |Put(c, s, rest).frames| == |c.frames|
  {
    FlatEmit(c, s);
  }

  lemma PutPut(c: Scan, a: string, r: string, b: string, rest: string)
    ensures Put(Put(c, a, r), b, rest) == Put(c, a + b, rest)
  {
    hide Flat;
    PutFlat(c, a, r);
    Regroup(Flat(c.out, c.frames), a, b);
    if c.frames == [] {
      Regroup(c.out, a, b);
    } else {
      var n := |c.frames| - 1;
      Regroup(c.frames[n].text, a, b);
    }
  }

  lemma PutNothing(c: Scan, rest: string)
    requires Good(c) && c.rest == rest
    ensures Put(c, "", rest) == c
  {
    hide Flat;
    assert Flat(c.out, c.frames) + "" == Flat(c.out, c.frames) && c.out + "" == c.out;
    if c.frames != [] {
      var n := |c.frames| - 1;
      assert c.frames[n].text + "" == c.frames[n].text && c.frames[n := c.frames[n]] == c.frames;
    }
  }

  lemma OneStep(t: Table, c: Scan, d: Scan)
    requires c.rest != "" && Step(t, c) == CleanStep(t, c) == Continue(d)
    ensures Same(t, c, d)
  {
    hide Step, CleanStep;
    StepShrinks(t, c);
  }

  lemma ReadChar(t: Table, c: Scan, x: char, rest: string)
    requires c.rest == [x] + rest && x != '$' && x != '}'
    ensures Same(t, c, Put(c, [x], rest))
  {
    hide Same, Flat, Emit;
    assert c.rest[0] == x && c.rest[1..] == rest;
    assert EndsEscaped(Flat(c.out, c.frames) + [x]) == (x == '\\');
    assert ReadOne(c) == Put(c, [x], rest);
    OneStep(t, c, ReadOne(c));
  }

  /** The state in a call that was just opened. */
  ghost function Opened(c: Scan, rest: string): Scan {
    Scan(c.out, c.frames + [Frame(c.esc, "${")], false, rest)
  }

  lemma OpenFrame(t: Table, c: Scan, rest: string)
    requires c.rest == "${" + rest
    ensures Same(t, c, Scan(c.out, c.frames + [Frame(c.esc, "$")], false, "{" + rest))
  {
    hide Same, Flat;
    assert c.rest[0] == '$' && c.rest[1] == '{' && c.rest[1..] == "{" + rest;
    OneStep(t, c, Scan(c.out, c.frames + [Frame(c.esc, "$")], false, "{" + rest));
  }

  lemma OpenCall(t: Table, c: Scan, rest: string)
    requires c.rest == "${" + rest
    ensures Same(t, c, Opened(c, rest)) && Good(Opened(c, rest)) && Flat(c.out, Opened(c, rest).frames) != ""
  {
    hide Same, Flat, Step, CleanStep;
    var d := Scan(c.out, c.frames + [Frame(c.esc, "$")], false, "{" + rest);
    OpenFrame(t, c, rest);
    ReadChar(t, d, '{', rest);
    FlatPush(c.out, c.frames, Frame(c.esc, "$"));
    FlatPush(c.out, c.frames, Frame(c.esc, "${"));
    assert "$" + "{" == "${";
    assert Put(d, "{", rest) == Opened(c, rest);
    SameTrans(t, c, d, Opened(c, rest));
  }

  lemma SameTrans(t: Table, c: Scan, d: Scan, e: Scan)
    requires Same(t, c, d) && Same(t, d, e)
    ensures Same(t, c, e)
  {
  }

  /** Text put out in an opened call is in its frame. */
  lemma PutOpened(c: Scan, r: string, s: string, rest: string)
    ensures var d := Put(Opened(c, r), s, rest);
            d.out == c.out && d.frames == c.frames + [Frame(c.esc, "${" + s)] && d.rest == rest
  {
    hide Flat;
  }

  /** Closing a call that is not one: its text stays. */
  lemma CloseKept(t: Table, c: Scan, k: Scan, text: string, rest: string)
    requires k.out == c.out && k.frames == c.frames + [Frame(c.esc, text)] && k.rest == "}" + rest
    requires c.esc || Evaluate(t, text) == NoCall
    ensures Same(t, k, Put(c, text + "}", rest))
  {
    hide Same, Flat, Evaluate;
    assert k.rest[0] == '}' && k.rest[1..] == rest && k.frames[..|k.frames| - 1] == c.frames;
    var d := Close(k, text + "}").(esc := false);
    assert Step(t, k) == CleanStep(t, k) == Continue(d);
    KeptEnds(Flat(c.out, c.frames), text);
    assert d == Put(c, text + "}", rest);
    OneStep(t, k, d);
  }

  lemma KeptEnds(a: string, text: string)
    ensures !EndsEscaped(a + (text + "}"))
  {
  }

  /** Closing a call that expands to v. */
  lemma CloseExpands(t: Table, c: Scan, k: Scan, text: string, v: string, rest: string)
    requires k.out == c.out && k.frames == c.frames + [Frame(false, text)] && k.rest == "}" + rest
    requires Evaluate(t, text) == Expands(v)
    ensures CleanEval(t, k) == CleanEval(t, Put(c, v, rest))
    ensures Flat(c.out, c.frames) + v != "" ==> Eval(t, k) == Eval(t, Put(c, v, rest))
    ensures Flat(c.out, c.frames) + v == "" && rest != "" ==> Eval(t, k) == Eval(t, ReadOne(Put(c, v, rest)))
    ensures Flat(c.out, c.frames) + v == "" && rest == "" ==> Eval(t, k) == Text("")
  {
    hide Evaluate, Flat, ReadOne, Emit;
    assert k.rest[0] == '}' && k.rest[1..] == rest && k.frames[..|k.frames| - 1] == c.frames;
    var d := Close(k, v);
    CloseIsPut(c, k, v, rest);
    FlatClose(k, v);
    assert CleanStep(t, k) == Continue(Put(c, v, rest));
    assert Step(t, k) == Continue(AfterExpansion(d));
    StepShrinks(t, k);
    if rest != "" { ReadOneShape(d, Put(c, v, rest).esc); }
  }

  lemma CloseIsPut(c: Scan, k: Scan, v: string, rest: string)
    requires |k.frames| > 0 && k.out == c.out && k.frames[..|k.frames| - 1] == c.frames && k.rest != "" && k.rest[1..] == rest
    ensures Close(k, v).(esc := EndsEscaped(Flat(c.out, c.frames) + v)) == Put(c, v, rest)
  {
    hide Flat;
  }

  // ----- Reading a document -----

  /** What a document puts out: within a call its value is written with escapes. */
  function Out(t: Table, d: Doc, inside: bool): string {
    if inside then Escape(Value(t, d)) else Value(t, d)
  }

  lemma EndsAppend(a: string, b: string)
    ensures EndsEscaped(a + b) == if b == "" then EndsEscaped(a) else EndsEscaped(b)
  {
    if b == "" { assert a + b == a; }
  }

  lemma {:induction false} PartsEnd(t: Table, ps: Parts)
    requires FitsParts(t, ps)
    ensures forall i :: 0 <= i < |Values(t, ps)| ==> !EndsEscaped(Values(t, ps)[i])
  {
    hide Fits, Value, EndsEscaped;
    if ps.More? { PartsEnd(t, ps.others); }
  }

  /** A character, with its escape within a call. */
  lemma ReadLetter(t: Table, c: Scan, x: char, inside: bool, rest: string)
    requires x != '$' && x != '}' && c.rest == (if inside then Escape([x]) else [x]) + rest
    ensures Same(t, c, Put(c, if inside then Escape([x]) else [x], rest))
  {
    hide Same, Put, Escape;
    EscapeOne(x);
    if inside && x == ':' {
      assert c.rest == ['\\'] + (":" + rest);
      ReadChar(t, c, '\\', ":" + rest);
      var d := Put(c, ['\\'], ":" + rest);
      PutFlat(c, ['\\'], ":" + rest);
      ReadChar(t, d, ':', rest);
      PutPut(c, ['\\'], ":" + rest, [':'], rest);
      assert ['\\'] + [':'] == "\\:";
      SameTrans(t, c, d, Put(d, [':'], rest));
    } else {
      ReadChar(t, c, x, rest);
    }
  }

  /** Reading a document's written form puts its value out. The parser does the same as the evaluator as long as
      something was put out before. */
  lemma {:induction false} ReadDoc(t: Table, d: Doc, inside: bool, c: Scan, rest: string)
    requires Good(c) && c.rest == Render(d, inside) + rest && Fits(t, d, inside, c.esc)
    ensures CleanEval(t, c) == CleanEval(t, Put(c, Out(t, d, inside), rest))
    ensures Flat(c.out, c.frames) != "" ==> Eval(t, c) == Eval(t, Put(c, Out(t, d, inside), rest))
    decreases d, 2
  {
    hide Flat, Put, Escape, EndsEscaped, Eval, CleanEval, CallValue, Values;
    var before := Flat(c.out, c.frames);
    match d {
      case Nil =>
        EscapePlain("");
        assert "" + rest == rest;
        PutNothing(c, rest);
      case Char(x, next) =>
        var s, r := if inside then Escape([x]) else [x], Render(next, inside) + rest;
        assert c.rest == s + r;
        ReadLetter(t, c, x, inside, r);
        EscapeAppend([x], Value(t, next));
        LetterEnds(before, x, inside);
        ReadNext(t, next, inside, c, s, rest);
      case Call(parts, next) =>
        var v, r := CallValue(t, Values(t, parts)), Render(next, inside) + rest;
        assert c.rest == "${f" + RenderParts(parts) + "}" + r;
        ReadCall(t, parts, c, r);
        if inside { EscapePlain(v); }
        EscapeAppend(v, Value(t, next));
        EndsAppend(before, v);
        ReadNext(t, next, inside, c, v, rest);
      case Quoted(body, next) => ReadQuoted(t, d, inside, c, rest);
    }
  }

  lemma LetterEnds(a: string, x: char, inside: bool)
    ensures EndsEscaped(a + if inside then Escape([x]) else [x]) == (x == '\\')
  {
    EscapeOne(x);
  }

  lemma {:induction false} ReadNext(t: Table, next: Doc, inside: bool, c: Scan, s: string, rest: string)
    requires Fits(t, next, inside, EndsEscaped(Flat(c.out, c.frames) + s))
    ensures var d, e := Put(c, s, Render(next, inside) + rest), Put(c, s + Out(t, next, inside), rest);
            && CleanEval(t, d) == CleanEval(t, e)
            && (Flat(c.out, c.frames) + s != "" ==> Eval(t, d) == Eval(t, e))
    decreases next, 3
  {
    hide Flat, Put, Out, Render, Fits, EndsEscaped, Eval, CleanEval;
    var d := Put(c, s, Render(next, inside) + rest);
    PutFlat(c, s, Render(next, inside) + rest);
    ReadDoc(t, next, inside, d, rest);
    PutPut(c, s, Render(next, inside) + rest, Out(t, next, inside), rest);
  }

  lemma {:induction false} ReadQuoted(t: Table, d: Doc, inside: bool, c: Scan, rest: string)
    requires d.Quoted? && c.rest == Render(d, inside) + rest && Fits(t, d, inside, c.esc)
    ensures CleanEval(t, c) == CleanEval(t, Put(c, Out(t, d, inside), rest))
    ensures Eval(t, c) == Eval(t, Put(c, Out(t, d, inside), rest))
    decreases d, 1
  {
    hide Flat, Put, Escape, EndsEscaped, Eval, CleanEval, Opened, Same;
    var r := Render(d.next, inside) + rest;
    var b, body := Render(d.body, inside), Out(t, d.body, inside);
    var c1 := Put(c, ['\\'], "${" + (b + ("}" + r)));
    assert c.rest == ['\\'] + ("${" + (b + ("}" + r)));
    ReadChar(t, c, '\\', "${" + (b + ("}" + r)));
    PutFlat(c, ['\\'], "${" + (b + ("}" + r)));
    OpenCall(t, c1, b + ("}" + r));
    var o := Opened(c1, b + ("}" + r));
    OpenedShape(c1, b + ("}" + r));
    ReadDoc(t, d.body, inside, o, "}" + r);
    var k := Put(o, body, "}" + r);
    BackslashEnds(Flat(c.out, c.frames));
    QuotedCloses(t, c1, b + ("}" + r), body, r);
    PutPut(c, ['\\'], "${" + (b + ("}" + r)), "${" + body + "}", r);
    var s := ['\\'] + ("${" + body + "}");
    QuotedText(t, d, inside, body, Out(t, d.next, inside));
    QuotedEnds(Flat(c.out, c.frames), body);
    ReadNext(t, d.next, inside, c, s, rest);
    Chains(t, c, c1, o, k, Put(c, s, r));
  }

  lemma BackslashEnds(a: string)
    ensures EndsEscaped(a + ['\\'])
  {
  }

  lemma QuotedEnds(a: string, body: string)
    ensures var s := ['\\'] + ("${" + body + "}"); !EndsEscaped(a + s) && a + s != ""
  {
  }

  lemma OpenedShape(c: Scan, rest: string)
    ensures Opened(c, rest).rest == rest && !Opened(c, rest).esc && Opened(c, rest).out == c.out
  {
  }

  lemma QuotedCloses(t: Table, c: Scan, r0: string, body: string, rest: string)
    requires c.esc
    ensures Same(t, Put(Opened(c, r0), body, "}" + rest), Put(c, "${" + body + "}", rest))
  {
    hide Same, Opened, Put;
    PutOpened(c, r0, body, "}" + rest);
    CloseKept(t, c, Put(Opened(c, r0), body, "}" + rest), "${" + body, rest);
  }

  lemma QuotedText(t: Table, d: Doc, inside: bool, body: string, next: string)
    requires d.Quoted? && body == Out(t, d.body, inside) && next == Out(t, d.next, inside)
    ensures Out(t, d, inside) == ['\\'] + ("${" + body + "}") + next
  {
    hide Escape;
    if inside {
      var v, w := Value(t, d.body), Value(t, d.next);
      EscapeAppend("\\${" + v + "}", w);
      EscapeAppend("\\${" + v, "}");
      EscapeAppend("\\${", v);
      EscapePlain("\\${");
      EscapePlain("}");
    }
    assert "\\${" + body + "}" == ['\\'] + ("${" + body + "}");
  }

  lemma Chains(t: Table, c: Scan, c1: Scan, o: Scan, k: Scan, e: Scan)
    requires Same(t, c, c1) && Same(t, c1, o) && Same(t, k, e)
    requires CleanEval(t, o) == CleanEval(t, k) && Eval(t, o) == Eval(t, k)
    ensures Eval(t, c) == Eval(t, e) && CleanEval(t, c) == CleanEval(t, e)
  {
  }

  /** A call is replaced by its value. When nothing was put out so far and the value is empty, the parser copies the
      next character unread. */
  lemma {:induction false} ReadCall(t: Table, ps: Parts, c: Scan, rest: string)
    requires Good(c) && !c.esc && c.rest == "${f" + RenderParts(ps) + "}" + rest && FitsParts(t, ps)
    ensures var v := CallValue(t, Values(t, ps));
            var a := Flat(c.out, c.frames) + v;
            && CleanEval(t, c) == CleanEval(t, Put(c, v, rest))
            && (a != "" ==> Eval(t, c) == Eval(t, Put(c, v, rest)))
            && (a == "" && rest != "" ==> Eval(t, c) == Eval(t, ReadOne(Put(c, v, rest))))
            && (a == "" && rest == "" ==> Eval(t, c) == Text(""))
    decreases ps, 4
  {
    hide Flat, Put, EndsEscaped, Eval, CleanEval, Opened, Same, FitsParts, RenderParts, Values, Evaluate, ReadOne, Colons;
    var vs := Values(t, ps);
    var r := RenderParts(ps) + ("}" + rest);
    assert c.rest == "${" + ("f" + r);
    OpenCall(t, c, "f" + r);
    var o := Opened(c, "f" + r);
    OpenedShape(c, "f" + r);
    ReadChar(t, o, 'f', r);
    var p := Put(o, ['f'], r);
    PutFlat(o, ['f'], r);
    LetterEnds(Flat(o.out, o.frames), 'f', false);
    ReadParts(t, ps, p, "}" + rest);
    PutPut(o, ['f'], r, Colons(vs), "}" + rest);
    var k := Put(o, ['f'] + Colons(vs), "}" + rest);
    PutOpened(c, "f" + r, ['f'] + Colons(vs), "}" + rest);
    assert "${" + (['f'] + Colons(vs)) == "${f" + Colons(vs);
    PartsEnd(t, ps);
    EvaluateParts(t, vs);
    Chains(t, c, o, p, p, k);
    match t(vs[0], vs[1..]) {
      case Some(v) => CloseExpands(t, c, k, "${f" + Colons(vs), v, rest);
      case None =>
        CloseKept(t, c, k, "${f" + Colons(vs), rest);
        SameBoth(t, k, Put(c, "${f" + Colons(vs) + "}", rest));
    }
  }

  lemma SameBoth(t: Table, c: Scan, d: Scan)
    requires Same(t, c, d)
    ensures Eval(t, c) == Eval(t, d) && CleanEval(t, c) == CleanEval(t, d)
  {
  }

  /** The parts of a call collect in its frame, with their escapes. */
  lemma {:induction false} ReadParts(t: Table, ps: Parts, c: Scan, rest: string)
    requires Good(c) && Flat(c.out, c.frames) != "" && c.rest == RenderParts(ps) + rest && FitsParts(t, ps)
    ensures Same(t, c, Put(c, Colons(Values(t, ps)), rest))
    decreases ps, 3
  {
    hide Flat, Put, EndsEscaped, Eval, CleanEval, Same, Escape, Render, Colons;
    var part := ps.part;
    var others := if ps.Last? then rest else RenderParts(ps.others) + rest;
    var text, v := Render(part, true), Value(t, part);
    assert c.rest == [':'] + (text + others);
    ReadChar(t, c, ':', text + others);
    var d := Put(c, [':'], text + others);
    PutFlat(c, [':'], text + others);
    LetterEnds(Flat(c.out, c.frames), ':', false);
    ReadDoc(t, part, true, d, others);
    PutPut(c, [':'], text + others, Escape(v), others);
    var e := Put(c, [':'] + Escape(v), others);
    FromEvals(t, d, e);
    SameTrans(t, c, d, e);
    if ps.Last? {
      ColonsCons(v, []);
      assert [v] + [] == [v];
      ColonsNothing();
      assert ":" + Escape(v) + "" == [':'] + Escape(v);
    } else {
      PutFlat(c, [':'] + Escape(v), others);
      ReadParts(t, ps.others, e, rest);
      PutPut(c, [':'] + Escape(v), others, Colons(Values(t, ps.others)), rest);
      ColonsCons(v, Values(t, ps.others));
      SameTrans(t, c, e, Put(e, Colons(Values(t, ps.others)), rest));
    }
  }

  lemma FromEvals(t: Table, c: Scan, d: Scan)
    requires Eval(t, c) == Eval(t, d) && CleanEval(t, c) == CleanEval(t, d)
    ensures Same(t, c, d)
  {
  }

  // ----- Expanding a text -----

  /** No call follows directly on a first call without output. */
  predicate Leads(t: Table, d: Doc) {
    d.Call? && CallValue(t, Values(t, d.parts)) == "" ==> !d.next.Call?
  }

  lemma PutAtStart(t: Table, s: string, v: string)
    ensures Good(Initial(s)) && Flat(Initial(s).out, Initial(s).frames) == ""
    ensures Put(Initial(s), v, "").rest == "" && Eval(t, Put(Initial(s), v, "")) == Text(v) == CleanEval(t, Put(Initial(s), v, ""))
  {
    PutFlat(Initial(s), v, "");
    assert "" + v == v;
  }

  /** Main result: expanding the written form of a document gives its value. The parser and the evaluator that skips
      nothing differ only on a text that starts with a call without output and a call right after it. */
  lemma DocExpands(t: Table, d: Doc)
    requires Fits(t, d, false, false)
    ensures CleanEval(t, Initial(Render(d, false))) == Text(Value(t, d))
    ensures Leads(t, d) ==> Eval(t, Initial(Render(d, false))) == Text(Value(t, d))
  {
    hide Put, Eval, CleanEval, Good, Flat, Value, Fits;
    var s, v := Render(d, false), Value(t, d);
    PutAtStart(t, s, v);
    assert s + "" == s;
    ReadDoc(t, d, false, Initial(s), "");
    if d.Call? {
      if Leads(t, d) { LeadingCall(t, d); }
    } else {
      StartsPlain(t, d, false, false);
      ProcessIsClean(t, s);
    }
  }

  lemma StartsPlain(t: Table, d: Doc, inside: bool, esc: bool)
    requires Fits(t, d, inside, esc) && !d.Call?
    ensures var s := Render(d, inside); !AtOpening(s) && (s != "" ==> s[0] != '}')
  {
    if d.Char? { EscapeOne(d.c); }
  }

  lemma LeadingCall(t: Table, d: Doc)
    requires d.Call? && Fits(t, d, false, false) && Leads(t, d)
    ensures Eval(t, Initial(Render(d, false))) == Text(Value(t, d))
  {
    hide Put, Eval, CleanEval, Flat, Values, CallValue, ReadOne;
    var s, rest := Render(d, false), Render(d.next, false);
    var v := CallValue(t, Values(t, d.parts));
    PutAtStart(t, s, Value(t, d));
    assert "" + v == v;
    ReadCall(t, d.parts, Initial(s), rest);
    if v != "" {
      assert rest + "" == rest;
      ReadNext(t, d.next, false, Initial(s), v, "");
    } else {
      StartsPlain(t, d.next, false, false);
      NextUnread(t, s, rest);
      ProcessIsClean(t, rest);
      assert "" + Value(t, d.next) == Value(t, d.next);
      RestExpands(t, d.next);
    }
  }

  /** Copying a character unread that neither opens nor closes a call is reading it. */
  lemma NextUnread(t: Table, s: string, rest: string)
    requires !AtOpening(rest) && (rest != "" ==> rest[0] != '}')
    ensures rest != "" ==> Eval(t, ReadOne(Put(Initial(s), "", rest))) == Eval(t, Initial(rest))
    ensures rest == "" ==> Eval(t, Initial(rest)) == Text("")
  {
    assert Put(Initial(s), "", rest) == Initial(rest);
  }

  lemma RestExpands(t: Table, d: Doc)
    requires Fits(t, d, false, false)
    ensures CleanEval(t, Initial(Render(d, false))) == Text(Value(t, d))
  {
    hide Put, Eval, CleanEval, Good, Flat, Value, Fits;
    PutAtStart(t, Render(d, false), Value(t, d));
    assert Render(d, false) + "" == Render(d, false);
    ReadDoc(t, d, false, Initial(Render(d, false)), "");
  }

  // ----- Calls in plain text -----

  /** Text that neither opens nor closes a call. */
  predicate Plain(s: string) {
    '$' !in s && '}' !in s
  }

  function Chars(s: string, next: Doc): Doc {
    if s == "" then next else Char(s[0], Chars(s[1..], next))
  }

  function PartsOf(vs: seq<string>): Parts
    requires vs != []
  {
    if |vs| == 1 then Last(Chars(vs[0], Nil)) else More(Chars(vs[0], Nil), PartsOf(vs[1..]))
  }

  lemma FirstApart(s: string)
    requires s != ""
    ensures s == [s[0]] + s[1..]
  {
  }

  lemma RenderChar(c: char, next: Doc, inside: bool)
    ensures Render(Char(c, next), inside) == (if inside then Escape([c]) else [c]) + Render(next, inside)
  {
  }

  lemma {:induction false} CharsRender(s: string, next: Doc, inside: bool)
    ensures Render(Chars(s, next), inside) == (if inside then Escape(s) else s) + Render(next, inside)
  {
    hide Render, Escape;
    var after := Render(next, inside);
    if s == "" {
      EscapePlain("");
      assert "" + after == after;
    } else {
      CharsRender(s[1..], next, inside);
      RenderChar(s[0], Chars(s[1..], next), inside);
      FirstApart(s);
      EscapeAppend([s[0]], s[1..]);
      Regroup(Escape([s[0]]), Escape(s[1..]), after);
      Regroup([s[0]], s[1..], after);
    }
  }

  lemma {:induction false} CharsValue(t: Table, s: string, next: Doc)
    ensures Value(t, Chars(s, next)) == s + Value(t, next)
  {
    if s == "" {
      assert "" + Value(t, next) == Value(t, next);
    } else {
      CharsValue(t, s[1..], next);
      FirstApart(s);
      Regroup([s[0]], s[1..], Value(t, next));
    }
  }

  lemma {:induction false} CharsFit(t: Table, s: string, next: Doc, inside: bool, esc: bool)
    requires Plain(s) && Fits(t, next, inside, if s == "" then esc else EndsEscaped(s))
    ensures Fits(t, Chars(s, next), inside, esc)
  {
    if s != "" {
      assert s == [s[0]] + s[1..];
      EndsAppend([s[0]], s[1..]);
      CharsFit(t, s[1..], next, inside, s[0] == '\\');
    }
  }

  lemma {:induction false} PartsOfDoc(t: Table, vs: seq<string>)
    requires vs != [] && forall i :: 0 <= i < |vs| ==> Plain(vs[i]) && !EndsEscaped(vs[i])
    ensures RenderParts(PartsOf(vs)) == Colons(vs) && Values(t, PartsOf(vs)) == vs && FitsParts(t, PartsOf(vs))
  {
    hide Escape, EndsEscaped, Plain, Colons, Render, Value, Fits;
    NilDoc(t);
    CharsRender(vs[0], Nil, true);
    CharsValue(t, vs[0], Nil);
    CharsFit(t, vs[0], Nil, true, false);
    assert Escape(vs[0]) + "" == Escape(vs[0]) && vs[0] + "" == vs[0];
    assert vs == [vs[0]] + vs[1..];
    ColonsCons(vs[0], vs[1..]);
    if |vs| == 1 {
      ColonsNothing();
      assert vs[1..] == [] && ":" + Escape(vs[0]) + "" == ":" + Escape(vs[0]);
    } else {
      PartsOfDoc(t, vs[1..]);
    }
  }

  lemma NilDoc(t: Table)
    ensures Value(t, Nil) == "" && (forall inside: bool :: Render(Nil, inside) == "")
    ensures forall inside: bool, esc: bool :: Fits(t, Nil, inside, esc)
  {
  }

  lemma {:induction false} ColonsJoin(vs: seq<string>)
    requires vs != []
    ensures Colons(vs) == ":" + Join(EscapeAll(vs), ':')
  {
    hide Escape;
    var tail := vs[1..];
    assert vs == [vs[0]] + tail;
    ColonsCons(vs[0], tail);
    if |vs| == 1 {
      assert tail == [] && ":" + Escape(vs[0]) + "" == ":" + Escape(vs[0]);
    } else {
      ColonsJoin(tail);
      assert EscapeAll(vs)[1..] == EscapeAll(tail);
    }
  }

  /** Text between calls: what it adds to a document. */
  lemma TextDoc(t: Table, s: string, next: Doc, inside: bool)
    requires Plain(s) && Fits(t, next, inside, EndsEscaped(s))
    ensures var d := Chars(s, next);
            && Render(d, inside) == (if inside then Escape(s) else s) + Render(next, inside)
            && Value(t, d) == s + Value(t, next) && Fits(t, d, inside, false)
  {
    hide Render, Value, Fits, Escape;
    CharsRender(s, next, inside);
    CharsValue(t, s, next);
    CharsFit(t, s, next, inside, false);
  }

  /** A call with text after it. */
  lemma CallDoc(t: Table, parts: Parts, post: string, v: string, inside: bool)
    requires FitsParts(t, parts) && CallValue(t, Values(t, parts)) == v && Plain(post) && (inside ==> ':' !in v && ':' !in post)
    ensures var d := Call(parts, Chars(post, Nil));
            && Render(d, inside) == "${f" + RenderParts(parts) + "}" + post
            && Value(t, d) == v + post && Fits(t, d, inside, false)
  {
    hide EndsEscaped, RenderParts, FitsParts, Values, CallValue, Escape;
    NilDoc(t);
    CharsRender(post, Nil, inside);
    if inside { EscapePlain(post); }
    CharsValue(t, post, Nil);
    CharsFit(t, post, Nil, inside, EndsEscaped(v));
    assert post + "" == post;
  }

  lemma CallLeads(t: Table, pre: string, parts: Parts, post: string)
    ensures Leads(t, Chars(pre, Call(parts, Chars(post, Nil))))
  {
  }

  /** A document that is text, a call and text again. */
  lemma CallInText(t: Table, pre: string, parts: Parts, post: string, v: string)
    requires Plain(pre) && !EndsEscaped(pre) && Plain(post) && FitsParts(t, parts) && CallValue(t, Values(t, parts)) == v
    ensures Eval(t, Initial(pre + "${f" + RenderParts(parts) + "}" + post)) == Text(pre + v + post)
  {
    hide Eval, EndsEscaped, Plain, FitsParts, CallValue, Values, Render, RenderParts, Value, Fits, Leads, CleanEval, Chars;
    var call := Call(parts, Chars(post, Nil));
    CallDoc(t, parts, post, v, false);
    TextDoc(t, pre, call, false);
    CallLeads(t, pre, parts, post);
    DocExpands(t, Chars(pre, call));
    Flatten(pre, "${f", RenderParts(parts), "}", post);
    Regroup(pre, v, post);
  }

  lemma Flatten(pre: string, a: string, b: string, c: string, post: string)
    ensures pre + (a + b + c + post) == pre + a + b + c + post
  {
  }

  /** A call in plain text is replaced by what the function makes of the name and arguments, whatever they hold but
      call braces; colons in them are written with a backslash. */
  lemma CallExpands(t: Table, pre: string, name: string, args: seq<string>, post: string, v: string)
    requires Plain(pre) && !EndsEscaped(pre) && Plain(post)
    requires forall i :: 0 <= i < |[name] + args| ==> Plain(([name] + args)[i]) && !EndsEscaped(([name] + args)[i])
    requires t(name, args) == Some(v)
    ensures Eval(t, Initial(pre + "${f:" + Join(EscapeAll([name] + args), ':') + "}" + post)) == Text(pre + v + post)
  {
    hide Eval, EndsEscaped, Plain, EscapeAll, Colons, Join, Values, RenderParts, FitsParts, PartsOf;
    var vs := [name] + args;
    PartsOfDoc(t, vs);
    ColonsJoin(vs);
    assert vs[1..] == args && vs[0] == name;
    CallInText(t, pre, PartsOf(vs), post, v);
    var text := Join(EscapeAll(vs), ':');
    assert "${f" + (":" + text) == "${f:" + text;
    assert pre + "${f" + (":" + text) + "}" + post == pre + "${f:" + text + "}" + post;
  }

  lemma EscapeAllPlain(vs: seq<string>)
    requires forall i :: 0 <= i < |vs| ==> ':' !in vs[i]
    ensures EscapeAll(vs) == vs
  {
    forall i | 0 <= i < |vs| ensures Escape(vs[i]) == vs[i] { EscapePlain(vs[i]); }
  }

  /** Without colons and backslashes the arguments are written as they are. */
  lemma PlainCallExpands(t: Table, pre: string, name: string, args: seq<string>, post: string, v: string)
    requires Plain(pre) && '\\' !in pre && Plain(post) && args != []
    requires forall i :: 0 <= i < |[name] + args| ==>
               Plain(([name] + args)[i]) && ':' !in ([name] + args)[i] && '\\' !in ([name] + args)[i]
    requires t(name, args) == Some(v)
    ensures Eval(t, Initial(pre + "${f:" + name + ":" + Join(args, ':') + "}" + post)) == Text(pre + v + post)
  {
    hide Eval, Plain, EscapeAll;
    var vs := [name] + args;
    EscapeAllPlain(vs);
    CallExpands(t, pre, name, args, post, v);
    assert vs[1..] == args;
    assert Join(vs, ':') == name + ":" + Join(args, ':');
    assert pre + "${f:" + (name + ":" + Join(args, ':')) + "}" + post == pre + "${f:" + name + ":" + Join(args, ':') + "}" + post;
  }

  /** A call within an argument is expanded first, and its result is part of the argument. */
  lemma NestedCallExpands(t: Table, pre: string, name: string, a: string, inner: string, args: seq<string>, b: string,
                          post: string, w: string, v: string)
    requires Plain(pre) && !EndsEscaped(pre) && Plain(post) && Plain(name) && !EndsEscaped(name)
    requires Plain(a) && !EndsEscaped(a) && Plain(b) && ':' !in b && !EndsEscaped(a + (w + b))
    requires forall i :: 0 <= i < |[inner] + args| ==> Plain(([inner] + args)[i]) && !EndsEscaped(([inner] + args)[i])
    requires t(inner, args) == Some(w) && ':' !in w && t(name, [a + (w + b)]) == Some(v)
    ensures var call := "${f:" + Join(EscapeAll([inner] + args), ':') + "}";
            Eval(t, Initial(pre + "${f:" + Escape(name) + ":" + Escape(a) + call + b + "}" + post)) == Text(pre + v + post)
  {
    hide Eval, EndsEscaped, Plain, EscapeAll, Colons, Join, PartsOf, Render, Value, Fits, Escape;
    var vs := [inner] + args;
    PartsOfDoc(t, vs);
    ColonsJoin(vs);
    assert vs[1..] == args && vs[0] == inner;
    var call := Call(PartsOf(vs), Chars(b, Nil));
    CallDoc(t, PartsOf(vs), b, w, true);
    TextDoc(t, a, call, true);
    NilDoc(t);
    TextDoc(t, name, Nil, true);
    var part, parts := Chars(a, call), More(Chars(name, Nil), Last(Chars(a, call)));
    assert name + "" == name && Escape(name) + "" == Escape(name);
    assert Values(t, parts) == [name, a + (w + b)];
    CallInText(t, pre, parts, post, v);
    var text := "${f:" + Join(EscapeAll(vs), ':') + "}";
    NestedText(pre, Escape(name), Escape(a), Colons(vs), Join(EscapeAll(vs), ':'), b, post);
  }

  lemma NestedText(pre: string, name: string, a: string, colons: string, join: string, b: string, post: string)
    requires colons == ":" + join
    ensures pre + "${f" + (":" + name + (":" + (a + ("${f" + colons + "}" + b)))) + "}" + post ==
            pre + "${f:" + name + ":" + a + ("${f:" + join + "}") + b + "}" + post
  {
    assert "${f" + (":" + join) == "${f:" + join;
  }

  /** A call after a backslash is left as it stands. */
  lemma QuotedStays(t: Table, pre: string, body: string, post: string)
    requires Plain(pre) && Plain(body) && Plain(post)
    ensures var s := pre + "\\${" + body + "}" + post; Eval(t, Initial(s)) == Text(s)
  {
    hide Eval, CleanEval, Plain, EndsEscaped, Chars, Render, Value, Fits, Leads;
    var d := Quoted(Chars(body, Nil), Chars(post, Nil));
    QuotedDoc(t, body, post);
    CharsRender(pre, d, false);
    CharsValue(t, pre, d);
    CharsFit(t, pre, d, false, false);
    QuotedLeads(t, pre, d);
    DocExpands(t, Chars(pre, d));
    Flatten(pre, "\\${", body, "}", post);
  }

  lemma QuotedDoc(t: Table, body: string, post: string)
    requires Plain(body) && Plain(post)
    ensures var d, s := Quoted(Chars(body, Nil), Chars(post, Nil)), "\\${" + body + "}" + post;
            Render(d, false) == s && Value(t, d) == s && forall esc: bool :: Fits(t, d, false, esc)
  {
    hide Plain, EndsEscaped;
    NilDoc(t);
    assert body + "" == body && post + "" == post;
    CharsRender(body, Nil, false);
    CharsValue(t, body, Nil);
    CharsFit(t, body, Nil, false, false);
    CharsRender(post, Nil, false);
    CharsValue(t, post, Nil);
    CharsFit(t, post, Nil, false, false);
  }

  lemma QuotedLeads(t: Table, pre: string, d: Doc)
    requires d.Quoted?
    ensures Leads(t, Chars(pre, d))
  {
  }
}
