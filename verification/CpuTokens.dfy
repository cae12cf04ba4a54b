/** What each token of a CPU list stands for, by its place in the list: numbers and ranges list CPUs, `^` and `!` take
    CPUs out again, and a mask goes from its `0x` to the next empty token (tuned/utils/commands.py). */
module CpuTokens {
  import opened Text
  import opened CpuMask
  import opened CpuList

  // ----- Token by token -----

  /** Token i is not part of a mask that began before it. */
  predicate Outside(tokens: seq<string>, i: nat) {
    i < |tokens| && !InMask(false, tokens, i)
  }

  /** Token i takes the CPU out. */
  predicate NegatesAt(tokens: seq<string>, i: nat, x: nat) {
    && Outside(tokens, i) && IsNegation(tokens[i])
    && ParseRange(tokens[i][1..]).Some? && x in ParseRange(tokens[i][1..]).value
  }

  /** Token i lists the CPU, or begins a mask with the CPU's bit. */
  predicate ListsAt(tokens: seq<string>, i: nat, x: nat) {
    && Outside(tokens, i)
    && if IsHex(tokens[i]) then x in HexToCpuList(Concat(tokens[i..][..RunLength(tokens[i..])]))
       else tokens[i] != "" && !IsNegation(tokens[i]) && ParseRange(tokens[i]).Some? && x in ParseRange(tokens[i]).value
  }

  /** Token i cannot be read. */
  predicate BadAt(tokens: seq<string>, i: nat) {
    && Outside(tokens, i) && tokens[i] != "" && !IsHex(tokens[i])
    && ParseRange(if IsNegation(tokens[i]) then tokens[i][1..] else tokens[i]).None?
  }

  ghost predicate Negates(tokens: seq<string>, x: nat) {
    exists i: nat :: NegatesAt(tokens, i, x)
  }

  ghost predicate Lists(tokens: seq<string>, x: nat) {
    exists i: nat :: ListsAt(tokens, i, x)
  }

  ghost predicate Bad(tokens: seq<string>) {
    exists i: nat :: BadAt(tokens, i)
  }

  // ----- Past the first token, and past a mask -----

  /** A token does the same in two lists that are alike from it on. */
  lemma SameToken(a: seq<string>, i: nat, b: seq<string>, j: nat, x: nat)
    requires Outside(a, i) <==> Outside(b, j)
    requires i < |a| && j < |b| ==> a[i..] == b[j..]
    ensures NegatesAt(a, i, x) <==> NegatesAt(b, j, x)
    ensures ListsAt(a, i, x) <==> ListsAt(b, j, x)
    ensures BadAt(a, i) <==> BadAt(b, j)
  {
    hide ParseRange, HexToCpuList, RunLength, IsNegation, IsHex, Concat, InMask;
    if Outside(a, i) { assert a[i] == a[i..][0] == b[j..][0] == b[j]; }
  }

  lemma NextToken(tokens: seq<string>, i: nat, x: nat)
    requires tokens != [] && !IsHex(tokens[0])
    ensures NegatesAt(tokens, i + 1, x) <==> NegatesAt(tokens[1..], i, x)
    ensures ListsAt(tokens, i + 1, x) <==> ListsAt(tokens[1..], i, x)
    ensures BadAt(tokens, i + 1) <==> BadAt(tokens[1..], i)
  {
    var rest := tokens[1..];
    if i < |rest| { assert rest[i..] == tokens[i + 1..]; }
    SameToken(tokens, i + 1, rest, i, x);
  }

  lemma RunOfRest(tokens: seq<string>)
    requires tokens != [] && tokens[0] != ""
    ensures RunLength(tokens) == RunLength(tokens[1..]) + 1
    ensures RunLength(tokens) < |tokens| ==> AfterRun(tokens) == AfterRun(tokens[1..])
    ensures RunLength(tokens) == |tokens| ==> AfterRun(tokens) == []
  {
  }

  lemma RunOfNone(tokens: seq<string>)
    requires tokens != [] && tokens[0] == ""
    ensures RunLength(tokens) == 0 && AfterRun(tokens) == tokens[1..]
  {
  }

  lemma {:induction false} WithinMask(rest: seq<string>, j: nat)
    requires j <= |rest|
    ensures j <= RunLength(rest) ==> InMask(true, rest, j)
    ensures j > RunLength(rest) ==> j - RunLength(rest) - 1 <= |AfterRun(rest)| &&
                                    InMask(true, rest, j) == InMask(false, AfterRun(rest), j - RunLength(rest) - 1)
    decreases j
  {
    hide RunLength, AfterRun;
    if j > 0 {
      if rest[0] == "" {
        RunOfNone(rest);
      } else {
        RunOfRest(rest);
        WithinMask(rest[1..], j - 1);
      }
    }
  }

  lemma OutsidePast(tokens: seq<string>, i: nat)
    requires tokens != [] && IsHex(tokens[0])
    ensures 0 < i <= RunLength(tokens) ==> !Outside(tokens, i)
    ensures Outside(tokens, RunLength(tokens) + 1 + i) <==> Outside(AfterRun(tokens), i)
  {
    hide RunLength, AfterRun;
    var n, tail := RunLength(tokens), tokens[1..];
    RunOfRest(tokens);
    AfterRunLength(tokens);
    if 0 < i <= n && i < |tokens| { WithinMask(tail, i - 1); }
    if n + 1 + i < |tokens| { WithinMask(tail, n + i); }
  }

  lemma AfterRunLength(tokens: seq<string>)
    ensures |AfterRun(tokens)| == if RunLength(tokens) < |tokens| then |tokens| - RunLength(tokens) - 1 else 0
  {
  }

  /** The tokens of a mask do nothing of their own, and after it the list goes on. */
  lemma PastMask(tokens: seq<string>, i: nat, x: nat)
    requires tokens != [] && IsHex(tokens[0])
    ensures var n, rest := RunLength(tokens), AfterRun(tokens);
            && (0 < i <= n ==> !Outside(tokens, i))
            && (NegatesAt(tokens, n + 1 + i, x) <==> NegatesAt(rest, i, x))
            && (ListsAt(tokens, n + 1 + i, x) <==> ListsAt(rest, i, x))
            && (BadAt(tokens, n + 1 + i) <==> BadAt(rest, i))
  {
    hide Outside, NegatesAt, ListsAt, BadAt;
    var n, rest := RunLength(tokens), AfterRun(tokens);
    OutsidePast(tokens, i);
    if n + 1 + i < |tokens| { assert rest[i..] == tokens[n + 1 + i..]; }
    SameToken(tokens, n + 1 + i, rest, i, x);
  }

  /** What the list says is what its first token says, or what the rest says. */
  ghost predicate Goes(tokens: seq<string>, rest: seq<string>, x: nat) {
    && (Bad(tokens) <==> BadAt(tokens, 0) || Bad(rest))
    && (Negates(tokens, x) <==> NegatesAt(tokens, 0, x) || Negates(rest, x))
    && (Lists(tokens, x) <==> ListsAt(tokens, 0, x) || Lists(rest, x))
  }

  lemma GoesOn(tokens: seq<string>, x: nat)
    requires tokens != [] && !IsHex(tokens[0])
    ensures Goes(tokens, tokens[1..], x)
  {
    hide BadAt, NegatesAt, ListsAt;
    forall i: nat
      ensures BadAt(tokens, i) ==> BadAt(tokens, 0) || Bad(tokens[1..])
      ensures NegatesAt(tokens, i, x) ==> NegatesAt(tokens, 0, x) || Negates(tokens[1..], x)
      ensures ListsAt(tokens, i, x) ==> ListsAt(tokens, 0, x) || Lists(tokens[1..], x)
    {
      if i > 0 { NextToken(tokens, i - 1, x); }
    }
    forall i: nat
      ensures BadAt(tokens[1..], i) ==> Bad(tokens)
      ensures NegatesAt(tokens[1..], i, x) ==> Negates(tokens, x)
      ensures ListsAt(tokens[1..], i, x) ==> Lists(tokens, x)
    {
      NextToken(tokens, i, x);
    }
  }

  lemma SilentToken(tokens: seq<string>, i: nat, x: nat)
    requires !Outside(tokens, i)
    ensures !BadAt(tokens, i) && !NegatesAt(tokens, i, x) && !ListsAt(tokens, i, x)
  {
  }

  lemma GoesOnPastMask(tokens: seq<string>, x: nat)
    requires tokens != [] && IsHex(tokens[0])
    ensures Goes(tokens, AfterRun(tokens), x)
  {
    hide BadAt, NegatesAt, ListsAt, Outside, RunLength, AfterRun;
    var n, rest := RunLength(tokens), AfterRun(tokens);
    forall i: nat
      ensures BadAt(tokens, i) ==> BadAt(tokens, 0) || Bad(rest)
      ensures NegatesAt(tokens, i, x) ==> NegatesAt(tokens, 0, x) || Negates(rest, x)
      ensures ListsAt(tokens, i, x) ==> ListsAt(tokens, 0, x) || Lists(rest, x)
    {
      if i > n {
        PastMask(tokens, i - n - 1, x);
      } else if i > 0 {
        PastMask(tokens, i, x);
        SilentToken(tokens, i, x);
      }
    }
    forall i: nat
      ensures BadAt(rest, i) ==> Bad(tokens)
      ensures NegatesAt(rest, i, x) ==> Negates(tokens, x)
      ensures ListsAt(rest, i, x) ==> Lists(tokens, x)
    {
      PastMask(tokens, i, x);
    }
  }

  // ----- The meaning of the list -----

  /** The list is malformed exactly when a token cannot be read; else the CPU is listed or negated exactly when a
      token does so. */
  ghost predicate Described(tokens: seq<string>, m: Meaning, x: nat) {
    && (m.Malformed? <==> Bad(tokens))
    && (m.Cpus? ==> (x in m.listed <==> Lists(tokens, x)) && (x in m.negated <==> Negates(tokens, x)))
  }

  lemma {:induction false} DenotesDescribed(tokens: seq<string>, x: nat)
    ensures Described(tokens, Denotes(tokens), x)
    decreases |tokens|
  {
    hide ParseRange, HexToCpuList, Bad, Negates, Lists, RunLength, Concat;
    if tokens == [] {
      NothingThere(x);
    } else if IsHex(tokens[0]) {
      GoesOnPastMask(tokens, x);
      DenotesDescribed(AfterRun(tokens), x);
      assert tokens[0..] == tokens;
    } else {
      GoesOn(tokens, x);
      DenotesDescribed(tokens[1..], x);
    }
  }

  lemma NothingThere(x: nat)
    ensures !Bad([]) && !Negates([], x) && !Lists([], x)
  {
  }

  /** Main result: for every token list, the unpacked CPUs are those that a token lists and none negates, in increasing
      order; a list with a token that cannot be read unpacks to nothing. */
  lemma UnpackSpec(tokens: seq<string>, x: nat)
    ensures Increasing(Unpack(tokens))
    ensures Bad(tokens) ==> Unpack(tokens) == []
    ensures !Bad(tokens) ==> (x in Unpack(tokens) <==> Lists(tokens, x) && !Negates(tokens, x))
  {
    hide Denotes, Bad, Negates, Lists;
    DenotesDescribed(tokens, x);
    assert x in Unpack(tokens) <==> x in Elements(Unpack(tokens));
  }

  // ----- Adding tokens -----

  lemma {:induction false} RunLengthAppend(a: seq<string>, b: seq<string>)
    requires RunLength(a) < |a|
    ensures RunLength(a + b) == RunLength(a) && AfterRun(a + b) == AfterRun(a) + b
    ensures (a + b)[..RunLength(a)] == a[..RunLength(a)]
  {
    if a[0] != "" {
      assert (a + b)[1..] == a[1..] + b;
      RunLengthAppend(a[1..], b);
    }
  }

  lemma MaskFirst(a: seq<string>)
    requires a != [] && IsHex(a[0])
    ensures Denotes(a) == Both(HexMeaning(Concat(a[..RunLength(a)])), Denotes(AfterRun(a)))
  {
    hide HexToCpuList, RunLength, Concat;
  }

  lemma TokenFirst(a: seq<string>)
    requires a != [] && !IsHex(a[0])
    ensures Denotes(a) == if a[0] == "" then Denotes(a[1..])
                          else Both(if IsNegation(a[0]) then NegatedMeaning(ParseRange(a[0][1..])) else ListedMeaning(ParseRange(a[0])),
                                    Denotes(a[1..]))
  {
    hide Denotes, ParseRange;
    assert a == [a[0]] + a[1..];
    DenotesFirst(a[0], a[1..]);
  }

  /** A list that does not end within a mask can be read apart from what follows. */
  lemma {:induction false} DenotesAppend(a: seq<string>, b: seq<string>)
    requires !InMask(false, a, |a|)
    ensures Denotes(a + b) == Both(Denotes(a), Denotes(b))
    decreases |a|
  {
    hide ParseRange, RunLength, AfterRun, Concat, Denotes, HexMeaning, ListedMeaning, NegatedMeaning;
    if a == [] {
      assert a + b == b;
      DenotesNothing();
      BothLaws(Denotes(b), Denotes(a), Denotes(b));
    } else if IsHex(a[0]) {
      MaskCloses(a);
      AfterRunLength(a);
      RunLengthAppend(a, b);
      MaskFirst(a);
      MaskFirst(a + b);
      DenotesAppend(AfterRun(a), b);
      BothLaws(HexMeaning(Concat(a[..RunLength(a)])), Denotes(AfterRun(a)), Denotes(b));
    } else {
      assert (a + b)[1..] == a[1..] + b;
      TokenFirst(a);
      TokenFirst(a + b);
      DenotesAppend(a[1..], b);
      BothLaws(if IsNegation(a[0]) then NegatedMeaning(ParseRange(a[0][1..])) else ListedMeaning(ParseRange(a[0])),
               Denotes(a[1..]), Denotes(b));
    }
  }

  lemma MaskCloses(a: seq<string>)
    requires a != [] && IsHex(a[0]) && !InMask(false, a, |a|)
    ensures RunLength(a) < |a| && !InMask(false, AfterRun(a), |AfterRun(a)|)
  {
    hide RunLength, AfterRun;
    RunOfRest(a);
    AfterRunLength(a);
    WithinMask(a[1..], |a| - 1);
  }

  /** The meaning of a list with more tokens in it. */
  lemma DenotesInserted(a: seq<string>, m: seq<string>, b: seq<string>)
    requires !InMask(false, a, |a|) && !InMask(false, m, |m|)
    ensures Denotes(a + m + b) == Both(Denotes(m), Denotes(a + b))
  {
    hide Denotes, InMask;
    assert a + m + b == a + (m + b);
    DenotesAppend(a, m + b);
    DenotesAppend(m, b);
    DenotesAppend(a, b);
  }

  /** A negated range takes exactly its CPUs out of the list, wherever it stands outside a mask. */
  lemma NegatedRange(a: seq<string>, b: seq<string>, mark: char, lo: nat, hi: nat, x: nat)
    requires !InMask(false, a, |a|) && (mark == '^' || mark == '!')
    ensures var l := Unpack(a + [[mark] + (Print(lo, 10) + "-" + Print(hi, 10))] + b);
            Increasing(l) && (x in l <==> x in Unpack(a + b) && !(lo <= x <= hi))
  {
    hide Print, ParseRange, Denotes, Range, InMask;
    ParseTwoNumbers(lo, hi);
    RangeElements(lo, hi + 1, x);
    NegatedToken(a, b, mark, Print(lo, 10) + "-" + Print(hi, 10), Range(lo, hi + 1), x);
  }

  /** A negated number takes exactly that CPU out. */
  lemma NegatedNumber(a: seq<string>, b: seq<string>, mark: char, n: nat, x: nat)
    requires !InMask(false, a, |a|) && (mark == '^' || mark == '!')
    ensures var l := Unpack(a + [[mark] + Print(n, 10)] + b);
            Increasing(l) && (x in l <==> x in Unpack(a + b) && x != n)
  {
    hide Print, ParseRange, Denotes, InMask;
    ParseNumber(n);
    NegatedToken(a, b, mark, Print(n, 10), [n], x);
  }

  lemma OneToken(token: string)
    requires token != "" && !IsHex(token)
    ensures !InMask(false, [token], 1)
    ensures Denotes([token]) == if IsNegation(token) then NegatedMeaning(ParseRange(token[1..])) else ListedMeaning(ParseRange(token))
  {
    hide ParseRange, Denotes;
    DenotesFirst(token, []);
    DenotesNothing();
    assert [token] + [] == [token];
  }

  lemma NegatedToken(a: seq<string>, b: seq<string>, mark: char, text: string, l: seq<nat>, x: nat)
    requires !InMask(false, a, |a|) && (mark == '^' || mark == '!') && ParseRange(text) == Some(l)
    ensures x in Unpack(a + [[mark] + text] + b) <==> x in Unpack(a + b) && x !in l
  {
    hide ParseRange, Denotes, InMask;
    var token := [mark] + text;
    assert token[1..] == text;
    OneToken(token);
    DenotesInserted(a, [token], b);
    assert x in Unpack(a + b) <==> x in Elements(Unpack(a + b));
    assert x in Unpack(a + [token] + b) <==> x in Elements(Unpack(a + [token] + b));
  }

  /** A listed number or range adds exactly its CPUs that no token negates. */
  lemma ListedRange(a: seq<string>, b: seq<string>, r: Run, x: nat)
    requires !InMask(false, a, |a|) && r.lo <= r.hi && !Bad(a + b)
    ensures var l := Unpack(a + [Token(r)] + b);
            Increasing(l) && (x in l <==> x in Unpack(a + b) || (r.lo <= x <= r.hi && !Negates(a + b, x)))
  {
    hide ParseRange, Denotes, Bad, Negates, Lists, Token, InMask, Range;
    ParseToken(r);
    OneToken(Token(r));
    RangeElements(r.lo, r.hi + 1, x);
    ListedTokens(a, [Token(r)], b, Range(r.lo, r.hi + 1), x);
  }

  lemma ListedTokens(a: seq<string>, m: seq<string>, b: seq<string>, l: seq<nat>, x: nat)
    requires !InMask(false, a, |a|) && !InMask(false, m, |m|) && !Bad(a + b) && Denotes(m) == Cpus(Elements(l), {})
    ensures x in Unpack(a + m + b) <==> x in Unpack(a + b) || (x in l && !Negates(a + b, x))
  {
    hide Denotes, Bad, Negates, Lists, InMask;
    DenotesInserted(a, m, b);
    DenotesDescribed(a + b, x);
    assert x in Unpack(a + b) <==> x in Elements(Unpack(a + b));
    assert x in Unpack(a + m + b) <==> x in Elements(Unpack(a + m + b));
  }

  // ----- Masks -----

  /** The tokens of a mask that was split at commas, and the empty one that closes it. */
  function MaskTokens(groups: seq<string>): seq<string>
    requires groups != []
  {
    ["0x" + groups[0]] + groups[1..] + [""]
  }

  lemma {:induction false} RunOfTokens(ts: seq<string>)
    requires forall i :: 0 <= i < |ts| ==> ts[i] != ""
    ensures RunLength(ts + [""]) == |ts| && AfterRun(ts + [""]) == [] && (ts + [""])[..|ts|] == ts
  {
    if ts != [] {
      assert (ts + [""])[1..] == ts[1..] + [""];
      RunOfTokens(ts[1..]);
    }
  }

  lemma {:induction false} ConcatDigits(groups: seq<string>)
    requires groups != [] && forall i :: 0 <= i < |groups| ==> groups[i] != "" && AllDigits(groups[i], 16)
    ensures Concat(groups) != "" && AllDigits(Concat(groups), 16)
  {
    hide IsDigit;
    if |groups| > 1 {
      ConcatDigits(groups[1..]);
    } else {
      assert groups[1..] == [] && groups[0] + "" == groups[0];
    }
  }

  lemma {:induction false} DigitsParse(s: string, base: nat)
    requires s != "" && AllDigits(s, base)
    ensures ParseDigits(s, base).Some?
    decreases |s|
  {
    assert IsDigit(s[|s| - 1], base);
    if |s| > 1 {
      assert IsDigit(s[|s| - 2], base);
      DigitsParse(s[..|s| - 1], base);
    }
  }

  /** Hexadecimal digits after `0x` are read as their value. */
  lemma PrefixedHex(s: string)
    requires s != "" && AllDigits(s, 16)
    ensures ParseDigits(s, 16).Some? && HexToCpuList("0x" + s) == MaskToList(ParseDigits(s, 16).value)
  {
    DigitsParse(s, 16);
    DigitsHaveNoComma(s);
    var t := "0x" + s;
    WithoutCommasOfPlain(t);
    assert IsDigit(s[0], 16) && IsDigit(s[|s| - 1], 16);
    assert t[|t| - 1] == s[|s| - 1] && t[2..] == s;
    assert StripLeft(t) == t && StripRight(t) == t;
    assert DropHexPrefix(t) == s;
  }

  lemma DenotesMaskOnly(m: seq<string>)
    requires m != [] && IsHex(m[0]) && AfterRun(m) == []
    ensures Denotes(m) == Cpus(Elements(HexToCpuList(Concat(m[..RunLength(m)]))), {})
  {
    hide HexToCpuList, RunLength, Concat;
    DenotesNothing();
  }

  lemma ConcatMask(groups: seq<string>)
    requires groups != []
    ensures Concat(["0x" + groups[0]] + groups[1..]) == "0x" + Concat(groups)
  {
    var ts := ["0x" + groups[0]] + groups[1..];
    assert ts[1..] == groups[1..];
    assert "0x" + groups[0] + Concat(groups[1..]) == "0x" + (groups[0] + Concat(groups[1..]));
  }

  lemma DenotesMaskTokens(groups: seq<string>)
    requires groups != [] && forall i :: 0 <= i < |groups| ==> groups[i] != "" && AllDigits(groups[i], 16)
    ensures var m := MaskTokens(groups);
            && ParseDigits(Concat(groups), 16).Some? && !InMask(false, m, |m|)
            && Denotes(m) == Cpus(Elements(MaskToList(ParseDigits(Concat(groups), 16).value)), {})
  {
    hide ParseDigits, MaskToList, HexToCpuList, AllDigits, RunLength, AfterRun, Concat, Denotes, Elements, InMask;
    var ts, m := ["0x" + groups[0]] + groups[1..], MaskTokens(groups);
    assert m == ts + [""] && m[0] == "0x" + groups[0];
    RunOfTokens(ts);
    ConcatMask(groups);
    ConcatDigits(groups);
    PrefixedHex(Concat(groups));
    DenotesMaskOnly(m);
    MaskStaysOpen(m, |ts|);
    InMaskNext(false, m, |ts|);
  }

  lemma {:induction false} MaskStaysOpen(m: seq<string>, i: nat)
    requires 0 < i <= |m| && IsHex(m[0]) && forall j :: 0 <= j < i ==> m[j] != ""
    ensures InMask(false, m, i)
  {
    InMaskNext(false, m, i - 1);
    if i > 1 { MaskStaysOpen(m, i - 1); }
  }

  /** A mask that was split at commas and is closed by an empty token adds exactly its set bits that no token
      negates. */
  lemma ListedMask(a: seq<string>, b: seq<string>, groups: seq<string>, x: nat)
    requires !InMask(false, a, |a|) && !Bad(a + b)
    requires groups != [] && forall i :: 0 <= i < |groups| ==> groups[i] != "" && AllDigits(groups[i], 16)
    ensures var l := Unpack(a + MaskTokens(groups) + b);
            && ParseDigits(Concat(groups), 16).Some? && Increasing(l)
            && (x in l <==> x in Unpack(a + b) || (Bit(ParseDigits(Concat(groups), 16).value, x) && !Negates(a + b, x)))
  {
    hide Denotes, Bad, Negates, InMask, ParseDigits, AllDigits, MaskTokens, MaskToList;
    DenotesMaskTokens(groups);
    var m := ParseDigits(Concat(groups), 16).value;
    MaskToListSpec(m);
    ListedTokens(a, MaskTokens(groups), b, MaskToList(m), x);
  }

  // ----- The text of a list -----

  lemma {:induction false} PlainJoin(tokens: seq<string>)
    requires tokens != [] && forall i :: 0 <= i < |tokens| ==> forall c :: c in tokens[i] ==> !IsQuote(c)
    ensures forall c :: c in Join(tokens, ',') ==> !IsQuote(c)
  {
    if |tokens| > 1 { PlainJoin(tokens[1..]); }
  }

  lemma StripQuoted(quote: char, s: string)
    requires IsQuote(quote) && forall c :: c in s ==> !IsQuote(c)
    ensures StripQuotes([quote] + s + [quote]) == s && StripQuotes(s) == s
  {
    var t := [quote] + s + [quote];
    assert t[0] == quote && t[1..] == s + [quote];
    var u := s + [quote];
    assert u[|u| - 1] == quote && u[..|u| - 1] == s;
    if s == "" {
      assert u[0] == quote && u[1..] == "" && StripQuotes("") == "";
    } else {
      assert u[0] == s[0] && s[0] in s && s[|s| - 1] in s;
      assert StripQuotes(s) == s;
    }
    assert StripQuotes(u) == s;
  }

  /** A text is unpacked as the tokens between its commas, with or without quotes around it. */
  lemma UnpackJoined(tokens: seq<string>, quote: char)
    requires tokens != [] && IsQuote(quote)
    requires forall i :: 0 <= i < |tokens| ==> ',' !in tokens[i] && forall c :: c in tokens[i] ==> !IsQuote(c)
    ensures UnpackText(Join(tokens, ',')) == Unpack(tokens) == UnpackText([quote] + Join(tokens, ',') + [quote])
  {
    hide Unpack, Join, IsQuote, StripQuotes;
    PlainJoin(tokens);
    StripQuoted(quote, Join(tokens, ','));
    SplitOfJoin(tokens, ',');
  }
}
