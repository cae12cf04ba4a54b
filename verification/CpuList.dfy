/** CPU lists as text: unpacking tokens into CPU numbers, packing numbers into ranges, and hexadecimal
    masks in groups of eight digits (tuned/utils/commands.py). */
module CpuList {
  import opened Text
  import opened CpuMask

  // ----- Tokens -----

  predicate IsHex(s: string) {
    |s| >= 2 && s[0] == '0' && (s[1] == 'x' || s[1] == 'X')
  }

  predicate IsNegation(s: string) {
    s != "" && (s[0] == '^' || s[0] == '!')
  }

  /** `list(range(lo, hi))`. */
  function Range(lo: nat, hi: nat): seq<nat> {
    seq(if hi > lo then hi - lo else 0, i requires 0 <= i => lo + i)
  }

  lemma {:induction false} SplitHasNoSep(s: string, sep: char)
    ensures forall i :: 0 <= i < |Split(s, sep)| ==> sep !in Split(s, sep)[i]
  {
    if s != "" { SplitHasNoSep(s[1..], sep); }
  }

  /** A text without a minus sign does not read as a negative number. */
  lemma UnsignedIsNatural(s: string)
    requires '-' !in s
    ensures ParseInt(s, 10).Some? ==> ParseInt(s, 10).value >= 0
  {
    StripKeeps(s, '-');
  }

  lemma {:induction false} StripLeftKeeps(s: string, c: char)
    requires c !in s
    ensures c !in StripLeft(s)
  {
    if s != "" && IsSpace(s[0]) { StripLeftKeeps(s[1..], c); }
  }

  lemma {:induction false} StripRightKeeps(s: string, c: char)
    requires c !in s
    ensures c !in StripRight(s)
  {
    if s != "" && IsSpace(s[|s| - 1]) { StripRightKeeps(s[..|s| - 1], c); }
  }

  lemma StripKeeps(s: string, c: char)
    requires c !in s
    ensures c !in StripRight(StripLeft(s))
  {
    StripLeftKeeps(s, c);
    StripRightKeeps(StripLeft(s), c);
  }

  /** The CPUs of a decimal token, a number or a range; `None` if it is malformed. */
  function ParseRange(s: string): Option<seq<nat>> {
    var parts := Split(s, '-');
    SplitHasNoSep(s, '-');
    UnsignedIsNatural(parts[0]);
    if |parts| == 1 then
      match ParseInt(parts[0], 10)
      case None => None
      case Some(v) => Some([v])
    else
      UnsignedIsNatural(parts[1]);
      match (ParseInt(parts[0], 10), ParseInt(parts[1], 10))
      case (Some(lo), Some(hi)) => Some(Range(lo, hi + 1))
      case (_, _) => None
  }

  function WithoutCommas(s: string): string {
    if s == "" then "" else (if s[0] == ',' then [] else [s[0]]) + WithoutCommas(s[1..])
  }

  /** `hex2cpulist`: an invalid mask has no CPUs. */
  function HexToCpuList(mask: string): seq<nat> {
    match ParseInt(WithoutCommas(mask), 16)
    case None => []
    case Some(m) => MaskToList(m)
  }

  // ----- What a token list denotes -----

  /** Malformed, or the CPUs listed and the CPUs negated. */
  datatype Meaning = Malformed | Cpus(listed: set<nat>, negated: set<nat>)

  function Elements(l: seq<nat>): set<nat> {
    set x | x in l
  }

  function Both(a: Meaning, b: Meaning): Meaning {
    if a.Malformed? || b.Malformed? then Malformed
    else Cpus(a.listed + b.listed, a.negated + b.negated)
  }

  function ListedMeaning(r: Option<seq<nat>>): Meaning {
    match r case None => Malformed case Some(l) => Cpus(Elements(l), {})
  }

  function NegatedMeaning(r: Option<seq<nat>>): Meaning {
    match r case None => Malformed case Some(l) => Cpus({}, Elements(l))
  }

  /** How many tokens precede the first empty one. */
  function RunLength(tokens: seq<string>): (n: nat)
    ensures n <= |tokens|
    ensures forall i :: 0 <= i < n ==> tokens[i] != ""
    ensures n < |tokens| ==> tokens[n] == ""
  {
    if tokens == [] || tokens[0] == "" then 0 else 1 + RunLength(tokens[1..])
  }

  function Concat(tokens: seq<string>): string {
    if tokens == [] then "" else tokens[0] + Concat(tokens[1..])
  }

  /** The tokens after the run and the empty token that ends it. */
  function AfterRun(tokens: seq<string>): seq<string> {
    var n := RunLength(tokens);
    if n == |tokens| then [] else tokens[n + 1..]
  }

  /** A hexadecimal mask extends over the tokens up to the next empty one; other tokens stand for
      themselves, and empty ones for nothing. */
  function Denotes(tokens: seq<string>): Meaning
    decreases |tokens|
  {
    if tokens == [] then Cpus({}, {})
    else if tokens[0] == "" then Denotes(tokens[1..])
    else if IsHex(tokens[0]) then
      Both(Cpus(Elements(HexToCpuList(Concat(tokens[..RunLength(tokens)]))), {}), Denotes(AfterRun(tokens)))
    else if IsNegation(tokens[0]) then Both(NegatedMeaning(ParseRange(tokens[0][1..])), Denotes(tokens[1..]))
    else Both(ListedMeaning(ParseRange(tokens[0])), Denotes(tokens[1..]))
  }

  // ----- Unpacking -----

  /** `sorted(set(l))`. */
  function Insert(l: seq<nat>, x: nat): seq<nat> {
    if l == [] then [x]
    else if x < l[0] then [x] + l
    else if x == l[0] then l
    else [l[0]] + Insert(l[1..], x)
  }

  function Sorted(l: seq<nat>): seq<nat> {
    if l == [] then [] else Insert(Sorted(l[1..]), l[0])
  }

  lemma {:induction false} InsertSpec(l: seq<nat>, x: nat)
    requires Increasing(l)
    ensures Increasing(Insert(l, x))
    ensures forall y :: y in Insert(l, x) <==> y in l || y == x
  {
    if l != [] && x > l[0] {
      InsertSpec(l[1..], x);
      var r := Insert(l[1..], x);
      assert l == [l[0]] + l[1..];
      forall i | 0 <= i < |r| ensures r[i] > l[0] { assert r[i] in r; }
    }
  }

  lemma {:induction false} SortedSpec(l: seq<nat>)
    ensures Increasing(Sorted(l))
    ensures forall y :: y in Sorted(l) <==> y in l
  {
    if l != [] {
      SortedSpec(l[1..]);
      InsertSpec(Sorted(l[1..]), l[0]);
    }
  }

  /** The result of unpacking: nothing for a malformed list, else the listed CPUs without the negated ones,
      in increasing order. */
  ghost predicate Unpacks(tokens: seq<string>, cpus: seq<nat>) {
    match Denotes(tokens)
    case Malformed => cpus == []
    case Cpus(listed, negated) => Increasing(cpus) && Elements(cpus) == listed - negated
  }

  lemma UnpacksUnique(tokens: seq<string>, a: seq<nat>, b: seq<nat>)
    requires Unpacks(tokens, a) && Unpacks(tokens, b)
    ensures a == b
  {
    if Denotes(tokens).Cpus? {
      forall x ensures x in a <==> x in b {
        assert x in Elements(a) <==> x in Elements(b);
      }
      IncreasingUnique(a, b);
    }
  }

  /** The increasing list of a set. */
  ghost function SortSet(S: set<nat>): (l: seq<nat>)
    ensures Increasing(l) && Elements(l) == S
  {
    if S == {} then []
    else
      var x :| x in S;
      InsertSpec(SortSet(S - {x}), x);
      assert S == (S - {x}) + {x};
      var l := Insert(SortSet(S - {x}), x);
      assert forall y :: y in Elements(l) <==> y in Elements(SortSet(S - {x})) || y == x;
      l
  }

  ghost function Unpack(tokens: seq<string>): (cpus: seq<nat>)
    ensures Unpacks(tokens, cpus) && Increasing(cpus)
  {
    match Denotes(tokens)
    case Malformed => []
    case Cpus(listed, negated) => SortSet(listed - negated)
  }

  // ----- The unpacking loops -----

  lemma BothLaws(a: Meaning, b: Meaning, c: Meaning)
    ensures Both(Both(a, b), c) == Both(a, Both(b, c))
    ensures Both(a, b) == Both(b, a)
    ensures Both(a, Cpus({}, {})) == a
  {
  }

  function HexMeaning(mask: string): Meaning {
    Cpus(Elements(HexToCpuList(mask)), {})
  }

  function ItemMeaning(item: string): Meaning {
    if IsHex(item) then HexMeaning(item) else ListedMeaning(ParseRange(item))
  }

  function ItemsMeaning(items: seq<string>): Meaning {
    if items == [] then Cpus({}, {})
    else Both(ItemsMeaning(items[..|items| - 1]), ItemMeaning(items[|items| - 1]))
  }

  lemma {:induction false} ItemsMeaningPrefix(items: seq<string>, j: nat)
    requires j <= |items| && ItemsMeaning(items[..j]).Malformed?
    ensures ItemsMeaning(items).Malformed?
  {
    if j == |items| {
      assert items[..j] == items;
    } else {
      assert items[..|items| - 1][..j] == items[..j];
      ItemsMeaningPrefix(items[..|items| - 1], j);
    }
  }

  /** What the unread tokens denote while a mask `hv` is being put together. */
  function Unread(hexmask: bool, hv: string, rest: seq<string>): Meaning {
    if hexmask then Both(HexMeaning(hv + Concat(rest[..RunLength(rest)])), Denotes(AfterRun(rest)))
    else Denotes(rest)
  }

  lemma UnreadEnds(hv: string, rest: seq<string>)
    requires rest != [] && rest[0] == ""
    ensures Unread(true, hv, rest) == Both(HexMeaning(hv), Denotes(rest[1..]))
  {
    hide Denotes, HexMeaning;
    assert rest[..RunLength(rest)] == [] && hv + Concat(rest[..RunLength(rest)]) == hv;
  }

  lemma RunOfMore(first: string, rest: seq<string>)
    requires first != ""
    ensures var all := [first] + rest;
            && Concat(all[..RunLength(all)]) == first + Concat(rest[..RunLength(rest)])
            && AfterRun(all) == AfterRun(rest)
  {
    var all := [first] + rest;
    var n := RunLength(rest);
    assert all[1..] == rest;
    assert RunLength(all) == n + 1;
    assert all[..n + 1][0] == first && all[..n + 1][1..] == rest[..n];
    if n < |rest| { assert all[n + 2..] == rest[n + 1..]; }
  }

  lemma UnreadGrows(hv: string, first: string, rest: seq<string>)
    requires first != ""
    ensures Unread(true, hv, [first] + rest) == Unread(true, hv + first, rest)
  {
    hide HexMeaning, RunLength, Concat, AfterRun, Elements, HexToCpuList;
    RunOfMore(first, rest);
    var tail := Concat(rest[..RunLength(rest)]);
    assert hv + (first + tail) == (hv + first) + tail;
  }

  lemma DenotesMask(first: string, rest: seq<string>)
    requires IsHex(first)
    ensures Denotes([first] + rest) == Unread(true, first, rest)
  {
    hide RunLength, Concat, AfterRun, Elements, HexToCpuList;
    RunOfMore(first, rest);
  }

  lemma UnreadAtEnd(hexmask: bool, hv: string)
    ensures Unread(hexmask, hv, []) == if hexmask then HexMeaning(hv) else Cpus({}, {})
  {
    assert hv + Concat([]) == hv;
    BothLaws(HexMeaning(hv), Cpus({}, {}), Cpus({}, {}));
  }

  function RemoveFirst(l: seq<nat>, x: nat): seq<nat> {
    if l == [] then [] else if l[0] == x then l[1..] else [l[0]] + RemoveFirst(l[1..], x)
  }

  lemma {:induction false} RemoveFirstAt(l: seq<nat>, x: nat) returns (p: nat)
    requires x in l
    ensures p < |l| && l[p] == x && RemoveFirst(l, x) == l[..p] + l[p + 1..]
  {
    p := 0;
    if l[0] != x {
      var tail := l[1..];
      var q := RemoveFirstAt(tail, x);
      p := q + 1;
      assert l[..p] == [l[0]] + tail[..q] && l[p + 1..] == tail[q + 1..];
    }
  }

  lemma RemoveFirstSpec(l: seq<nat>, x: nat)
    requires Increasing(l) && x in l
    ensures Increasing(RemoveFirst(l, x))
    ensures forall y :: y in RemoveFirst(l, x) <==> y in l && y != x
  {
    hide RemoveFirst;
    var p := RemoveFirstAt(l, x);
    var r := l[..p] + l[p + 1..];
    assert forall i :: 0 <= i < |r| ==> r[i] == l[if i < p then i else i + 1];
    forall y | y in l && y != x ensures y in r {
      var i :| 0 <= i < |l| && l[i] == y;
      assert r[if i < p then i else i - 1] == y;
    }
    forall y | y in r ensures y in l && y != x {
      var i :| 0 <= i < |r| && r[i] == y;
    }
  }

  /** First pass: put masks together, set negations apart. */
  method Classify(tokens: seq<string>) returns (ok: bool, items: seq<string>, negations: seq<nat>)
    ensures ok ==> Denotes(tokens) == Both(ItemsMeaning(items), Cpus({}, Elements(negations)))
    ensures !ok ==> Denotes(tokens).Malformed?
  {
    hide ParseRange, HexToCpuList, Denotes, Elements;
    items, negations := [], [];
    var hexmask, hv := false, "";
    assert tokens[0..] == tokens;
    NothingYet(tokens);
    for i := 0 to |tokens|
      invariant hexmask ==> IsHex(hv)
      invariant Denotes(tokens) ==
                Both(Both(ItemsMeaning(items), Cpus({}, Elements(negations))), Unread(hexmask, hv, tokens[i..]))
    {
      var sv, rest := tokens[i], tokens[i + 1..];
      assert tokens[i..] == [sv] + rest;
      ghost var before, negated := ItemsMeaning(items), Cpus({}, Elements(negations));
      if hexmask {
        if sv == "" { UnreadEnds(hv, [sv] + rest); } else { UnreadGrows(hv, sv, rest); }
        if sv == "" {
          hexmask := false;
          ItemsSnoc(items, hv);
          MoveListed(before, negated, HexMeaning(hv), Denotes(rest));
          items := items + [hv];
          hv := "";
        } else {
          hv := hv + sv;
        }
      } else {
        DenotesFirst(sv, rest);
        if IsHex(sv) {
          DenotesMask(sv, rest);
          hexmask := true;
          hv := sv;
        } else if IsNegation(sv) {
          var nl := ParseRange(sv[1..]);
          if nl.None? {
            return false, [], [];
          }
          NegationsAppend(negations, nl.value);
          MoveNegated(before, negated, Cpus({}, Elements(nl.value)), Denotes(rest));
          negations := negations + nl.value;
        } else if sv != "" {
          ItemsSnoc(items, sv);
          MoveListed(before, negated, ListedMeaning(ParseRange(sv)), Denotes(rest));
          items := items + [sv];
        }
      }
    }
    assert tokens[|tokens|..] == [];
    UnreadAtEnd(hexmask, hv);
    ghost var before, negated := ItemsMeaning(items), Cpus({}, Elements(negations));
    if hexmask {
      ItemsSnoc(items, hv);
      MoveListed(before, negated, HexMeaning(hv), Cpus({}, {}));
      items := items + [hv];
      BothLaws(Both(ItemsMeaning(items), negated), negated, negated);
    } else {
      BothLaws(Both(before, negated), negated, negated);
    }
    ok := true;
  }

  lemma NothingYet(tokens: seq<string>)
    ensures Denotes(tokens) == Both(Both(ItemsMeaning([]), Cpus({}, Elements([]))), Unread(false, "", tokens))
  {
  }

  lemma DenotesFirst(sv: string, rest: seq<string>)
    ensures sv == "" ==> Denotes([sv] + rest) == Denotes(rest)
    ensures sv != "" && !IsHex(sv) ==>
              Denotes([sv] + rest) ==
              Both(if IsNegation(sv) then NegatedMeaning(ParseRange(sv[1..])) else ListedMeaning(ParseRange(sv)), Denotes(rest))
  {
    hide ParseRange, HexToCpuList;
    assert ([sv] + rest)[1..] == rest;
  }

  lemma ItemsSnoc(items: seq<string>, item: string)
    ensures ItemsMeaning(items + [item]) == Both(ItemsMeaning(items), ItemMeaning(item))
  {
    assert (items + [item])[..|items|] == items;
  }

  lemma NegationsAppend(a: seq<nat>, b: seq<nat>)
    ensures Cpus({}, Elements(a + b)) == Both(Cpus({}, Elements(a)), Cpus({}, Elements(b)))
  {
    assert Elements(a + b) == Elements(a) + Elements(b);
  }

  lemma MoveListed(items: Meaning, negated: Meaning, next: Meaning, rest: Meaning)
    ensures Both(Both(items, negated), Both(next, rest)) == Both(Both(Both(items, next), negated), rest)
  {
  }

  lemma MoveNegated(items: Meaning, negated: Meaning, next: Meaning, rest: Meaning)
    ensures Both(Both(items, negated), Both(next, rest)) == Both(Both(items, Both(negated, next)), rest)
  {
  }

  /** Second pass: the CPUs of the items. */
  method Collect(items: seq<string>) returns (ok: bool, rl: seq<nat>)
    ensures ok ==> ItemsMeaning(items) == Cpus(Elements(rl), {})
    ensures !ok ==> ItemsMeaning(items).Malformed?
  {
    hide ParseRange, HexToCpuList;
    rl := [];
    for i := 0 to |items|
      invariant ItemsMeaning(items[..i]) == Cpus(Elements(rl), {})
    {
      var v := items[i];
      assert items[..i + 1] == items[..i] + [v];
      ItemsSnoc(items[..i], v);
      if IsHex(v) {
        assert Elements(rl + HexToCpuList(v)) == Elements(rl) + Elements(HexToCpuList(v));
        rl := rl + HexToCpuList(v);
      } else {
        var vl := ParseRange(v);
        if vl.None? {
          ItemsMeaningPrefix(items, i + 1);
          return false, [];
        }
        assert Elements(rl + vl.value) == Elements(rl) + Elements(vl.value);
        rl := rl + vl.value;
      }
    }
    assert items[..|items|] == items;
    ok := true;
  }

  /** `cpulist_unpack` of a list of tokens. */
  method CpuListUnpack(tokens: seq<string>) returns (cpus: seq<nat>)
    ensures Unpacks(tokens, cpus) && cpus == Unpack(tokens)
  {
    hide Denotes;
    var ok, items, negations := Classify(tokens);
    if !ok {
      UnpacksUnique(tokens, [], Unpack(tokens));
      return [];
    }
    var well, rl := Collect(items);
    if !well {
      UnpacksUnique(tokens, [], Unpack(tokens));
      return [];
    }
    cpus := Sorted(rl);
    SortedSpec(rl);
    assert negations[..0] == [];
    for i := 0 to |negations|
      invariant Increasing(cpus)
      invariant forall x :: x in cpus <==> x in rl && x !in negations[..i]
    {
      assert negations[..i + 1] == negations[..i] + [negations[i]];
      if negations[i] in cpus {
        RemoveFirstSpec(cpus, negations[i]);
        cpus := RemoveFirst(cpus, negations[i]);
      }
    }
    assert negations[..|negations|] == negations;
    assert Denotes(tokens) == Cpus(Elements(rl), Elements(negations));
    assert Elements(cpus) == Elements(rl) - Elements(negations);
    UnpacksUnique(tokens, cpus, Unpack(tokens));
  }

  // ----- Packing -----

  /** A run of consecutive CPUs, both ends included. */
  datatype Run = Run(lo: nat, hi: nat)

  /** Add the next CPU to the last run if it continues it. */
  function Extend(runs: seq<Run>, x: nat): seq<Run> {
    var m := |runs| - 1;
    if runs != [] && runs[m].hi + 1 == x then runs[..m] + [Run(runs[m].lo, x)] else runs + [Run(x, x)]
  }

  /** The maximal runs of an increasing list. */
  function Runs(l: seq<nat>): seq<Run> {
    if l == [] then [] else Extend(Runs(l[..|l| - 1]), l[|l| - 1])
  }

  function Token(r: Run): string {
    if r.lo == r.hi then Print(r.lo, 10) else Print(r.lo, 10) + "-" + Print(r.hi, 10)
  }

  function Tokens(runs: seq<Run>): seq<string> {
    seq(|runs|, i requires 0 <= i < |runs| => Token(runs[i]))
  }

  function Pack(l: seq<nat>): seq<string> {
    Tokens(Runs(l))
  }

  predicate Covers(runs: seq<Run>, x: nat) {
    exists k :: 0 <= k < |runs| && runs[k].lo <= x <= runs[k].hi
  }

  /** Runs in order, no two of which could be one. */
  ghost predicate Separated(runs: seq<Run>) {
    && (forall k :: 0 <= k < |runs| ==> runs[k].lo <= runs[k].hi)
    && (forall k, m :: 0 <= k < m < |runs| ==> runs[k].hi + 1 < runs[m].lo)
  }

  lemma ExtendSeparated(runs: seq<Run>, x: nat)
    requires Separated(runs) && (runs == [] || runs[|runs| - 1].hi < x)
    ensures Separated(Extend(runs, x))
    ensures Extend(runs, x) != [] && Extend(runs, x)[|Extend(runs, x)| - 1].hi == x
  {
    var n := |runs|;
    forall k | 0 <= k < n - 1 ensures runs[k].hi + 1 < runs[n - 1].lo <= runs[n - 1].hi {
    }
  }

  lemma ExtendCovers(runs: seq<Run>, x: nat, y: nat)
    requires Separated(runs)
    ensures Covers(Extend(runs, x), y) <==> Covers(runs, y) || y == x
  {
    var e, m := Extend(runs, x), |Extend(runs, x)| - 1;
    if Covers(runs, y) {
      var k :| 0 <= k < |runs| && runs[k].lo <= y <= runs[k].hi;
      assert e[k].lo <= y <= e[k].hi;
    }
    assert y == x ==> e[m].lo <= y <= e[m].hi;
    if Covers(e, y) && y != x {
      var k :| 0 <= k < |e| && e[k].lo <= y <= e[k].hi;
      assert k < |runs| && runs[k].lo <= y <= runs[k].hi;
    }
  }

  /** The runs of an increasing list are maximal. */
  lemma {:induction false} RunsAreMaximal(l: seq<nat>)
    requires Increasing(l)
    ensures Separated(Runs(l))
    ensures l == [] <==> Runs(l) == []
    ensures l != [] ==> Runs(l)[|Runs(l)| - 1].hi == l[|l| - 1]
  {
    hide Extend;
    if l != [] {
      RunsAreMaximal(l[..|l| - 1]);
      ExtendSeparated(Runs(l[..|l| - 1]), l[|l| - 1]);
    }
  }

  /** The runs cover exactly the listed CPUs. */
  lemma {:induction false} RunsCover(l: seq<nat>, x: nat)
    requires Increasing(l)
    ensures Covers(Runs(l), x) <==> x in l
  {
    hide Extend, Separated;
    if l != [] {
      var front, last := l[..|l| - 1], l[|l| - 1];
      RunsCover(front, x);
      RunsAreMaximal(front);
      ExtendCovers(Runs(front), last, x);
      assert l == front + [last];
    }
  }

  lemma PrintHasNoDash(n: nat)
    ensures '-' !in Print(n, 10) && ',' !in Print(n, 10) && Print(n, 10) != ""
    ensures forall i :: 0 <= i < |Print(n, 10)| ==> '0' <= Print(n, 10)[i] <= '9'
  {
    hide Print;
    PrintIsDigits(n, 10);
  }

  lemma ParseNumber(n: nat)
    ensures ParseRange(Print(n, 10)) == Some([n])
  {
    hide Print, ParseInt;
    PrintHasNoDash(n);
    ParseIntOfPrint(n);
    SplitAtSep(Print(n, 10), "", '-');
  }

  lemma ParseTwoNumbers(lo: nat, hi: nat)
    ensures ParseRange(Print(lo, 10) + "-" + Print(hi, 10)) == Some(Range(lo, hi + 1))
  {
    hide Print, ParseInt, Range;
    PrintHasNoDash(lo);
    PrintHasNoDash(hi);
    ParseIntOfPrint(lo);
    ParseIntOfPrint(hi);
    SplitAtSep(Print(lo, 10), Print(hi, 10), '-');
    SplitAtSep(Print(hi, 10), "", '-');
  }

  /** A printed run is read back as its range. */
  lemma ParseToken(r: Run)
    requires r.lo <= r.hi
    ensures ParseRange(Token(r)) == Some(Range(r.lo, r.hi + 1))
    ensures Token(r) != "" && !IsHex(Token(r)) && !IsNegation(Token(r)) && ',' !in Token(r)
  {
    hide Print, ParseRange;
    PrintHasNoDash(r.lo);
    PrintHasNoDash(r.hi);
    ParseNumber(r.lo);
    ParseTwoNumbers(r.lo, r.hi);
    if r.lo == r.hi {
      assert Range(r.lo, r.hi + 1) == [r.lo];
    }
  }

  lemma RangeElements(lo: nat, hi: nat, x: nat)
    ensures x in Range(lo, hi) <==> lo <= x < hi
  {
    if lo <= x < hi { assert Range(lo, hi)[x - lo] == x; }
  }

  lemma DenotesNothing()
    ensures Denotes([]) == Cpus({}, {})
  {
  }

  lemma {:induction false} DenotesTokens(runs: seq<Run>)
    requires forall k :: 0 <= k < |runs| ==> runs[k].lo <= runs[k].hi
    ensures Denotes(Tokens(runs)).Cpus? && Denotes(Tokens(runs)).negated == {}
    ensures forall x :: x in Denotes(Tokens(runs)).listed <==> Covers(runs, x)
  {
    hide ParseRange, Token, Covers, Range, Denotes;
    DenotesNothing();
    if runs == [] {
      forall x ensures !Covers(runs, x) { CoversNothing(x); }
    } else {
      var tail := runs[1..];
      DenotesTokens(tail);
      ParseToken(runs[0]);
      assert Tokens(runs) == [Token(runs[0])] + Tokens(tail);
      DenotesFirst(Token(runs[0]), Tokens(tail));
      forall x: nat ensures x in Denotes(Tokens(runs)).listed <==> Covers(runs, x) {
        RangeElements(runs[0].lo, runs[0].hi + 1, x);
        CoversFirst(runs, x);
      }
    }
  }

  lemma CoversNothing(x: nat)
    ensures !Covers([], x)
  {
  }

  lemma CoversFirst(runs: seq<Run>, x: nat)
    requires runs != []
    ensures Covers(runs, x) <==> runs[0].lo <= x <= runs[0].hi || Covers(runs[1..], x)
  {
    var tail := runs[1..];
    if Covers(tail, x) {
      var k :| 0 <= k < |tail| && tail[k].lo <= x <= tail[k].hi;
      assert runs[k + 1].lo <= x <= runs[k + 1].hi;
    }
    if Covers(runs, x) && !(runs[0].lo <= x <= runs[0].hi) {
      var k :| 0 <= k < |runs| && runs[k].lo <= x <= runs[k].hi;
      assert tail[k - 1].lo <= x <= tail[k - 1].hi;
    }
  }

  /** Unpacking a packed list gives the list back. */
  lemma UnpackOfPack(l: seq<nat>)
    requires Increasing(l)
    ensures Unpack(Pack(l)) == l
  {
    hide Denotes;
    RunsAreMaximal(l);
    DenotesTokens(Runs(l));
    forall x: nat ensures x in Elements(l) <==> x in Denotes(Pack(l)).listed {
      RunsCover(l, x);
    }
    UnpacksUnique(Pack(l), Unpack(Pack(l)), l);
  }

  /** Packing is canonical: two token lists pack to the same text exactly when they stand for the same CPUs. */
  lemma PackIsCanonical(a: seq<string>, b: seq<string>)
    ensures Pack(Unpack(a)) == Pack(Unpack(b)) <==> Unpack(a) == Unpack(b)
    ensures Unpack(a) == Unpack(b) <==> Elements(Unpack(a)) == Elements(Unpack(b))
  {
    UnpackOfPack(Unpack(a));
    UnpackOfPack(Unpack(b));
    if Elements(Unpack(a)) == Elements(Unpack(b)) {
      forall x ensures x in Unpack(a) <==> x in Unpack(b) {
        assert x in Elements(Unpack(a)) <==> x in Elements(Unpack(b));
      }
      IncreasingUnique(Unpack(a), Unpack(b));
    }
  }

  /** `cpulist_pack` of a list of tokens. */
  method CpuListPack(tokens: seq<string>) returns (packed: seq<string>)
    ensures packed == Pack(Unpack(tokens)) && Unpack(packed) == Unpack(tokens)
  {
    var l := CpuListUnpack(tokens);
    UnpackOfPack(l);
    packed := PackRuns(l);
  }

  method PackRuns(l: seq<nat>) returns (packed: seq<string>)
    requires Increasing(l)
    ensures packed == Pack(l)
  {
    hide Print, Extend, Tokens, Packing, Runs;
    if l == [] {
      PackNothing();
      return [];
    }
    var i, j := 0, 0;
    packed := [];
    assert l[..1] == [l[0]];
    PackingStart(l[0]);
    while i + 1 < |l|
      invariant 0 <= j <= i < |l|
      invariant Packing(Runs(l[..i + 1]), packed, Run(l[j], l[i]))
    {
      RunsSnoc(l[..i + 1], l[i + 1]);
      PackingStep(Runs(l[..i + 1]), packed, Run(l[j], l[i]), l[i + 1]);
      assert l[..i + 2] == l[..i + 1] + [l[i + 1]];
      if l[i + 1] - l[i] != 1 {
        packed := packed + [if j != i then Print(l[j], 10) + "-" + Print(l[i], 10) else Print(l[i], 10)];
        j := i + 1;
      }
      i := i + 1;
    }
    assert l[..|l|] == l;
    PackingDone(Runs(l), packed, Run(l[j], l[i]));
    packed := packed + [if j + 1 < |l| then Print(l[j], 10) + "-" + Print(l[|l| - 1], 10) else Print(l[|l| - 1], 10)];
  }

  lemma PackingDone(runs: seq<Run>, packed: seq<string>, open: Run)
    requires Packing(runs, packed, open)
    ensures Tokens(runs) == packed + [Token(open)]
  {
  }

  /** The tokens `packed` print all runs but the last one, `open`. */
  ghost predicate Packing(runs: seq<Run>, packed: seq<string>, open: Run) {
    runs != [] && runs[|runs| - 1] == open && Tokens(runs) == packed + [Token(open)]
  }

  lemma PackNothing()
    ensures Pack([]) == []
  {
  }

  lemma PackingStart(x: nat)
    ensures Packing(Runs([x]), [], Run(x, x))
  {
    hide Print;
    assert [x][..0] == [];
    assert Runs([x]) == [Run(x, x)];
  }

  lemma PackingStep(runs: seq<Run>, packed: seq<string>, open: Run, x: nat)
    requires Packing(runs, packed, open)
    ensures open.hi + 1 == x ==> Packing(Extend(runs, x), packed, Run(open.lo, x))
    ensures open.hi + 1 != x ==> Packing(Extend(runs, x), packed + [Token(open)], Run(x, x))
  {
    hide Token, Tokens;
    TokensExtend(runs, x);
    var front := Tokens(runs[..|runs| - 1]);
    assert (front + [Token(open)])[..|front|] == front;
    assert (packed + [Token(open)])[..|packed|] == packed;
    assert |front| == |packed| by { assert |front + [Token(open)]| == |packed + [Token(open)]|; }
  }

  lemma RunsSnoc(l: seq<nat>, x: nat)
    ensures Runs(l + [x]) == Extend(Runs(l), x)
  {
    assert (l + [x])[..|l|] == l;
  }

  lemma TokensExtend(runs: seq<Run>, x: nat)
    requires runs != []
    ensures var m := |runs| - 1;
            && Tokens(runs) == Tokens(runs[..m]) + [Token(runs[m])]
            && Tokens(Extend(runs, x)) == if runs[m].hi + 1 == x then Tokens(runs[..m]) + [Token(Run(runs[m].lo, x))]
                                          else Tokens(runs) + [Token(Run(x, x))]
  {
    hide Token;
  }

  // ----- Text of CPU lists -----

  predicate IsQuote(c: char) {
    c == '\'' || c == '"'
  }

  function StripQuotes(s: string): string {
    if s != "" && IsQuote(s[0]) then StripQuotes(s[1..])
    else if s != "" && IsQuote(s[|s| - 1]) then StripQuotes(s[..|s| - 1])
    else s
  }

  /** The CPUs of a text: quotes around it are dropped, commas separate the tokens. */
  ghost function UnpackText(s: string): seq<nat> {
    Unpack(Split(StripQuotes(s), ','))
  }

  /** `cpulist2string(cpulist_pack(s))`. */
  ghost function PackedText(s: string): string {
    Join(Pack(UnpackText(s)), ',')
  }

  lemma PackTokensArePlain(l: seq<nat>)
    requires Increasing(l)
    ensures forall k :: 0 <= k < |Pack(l)| ==> Pack(l)[k] != "" && ',' !in Pack(l)[k]
  {
    RunsAreMaximal(l);
    forall k | 0 <= k < |Pack(l)| ensures Pack(l)[k] != "" && ',' !in Pack(l)[k] {
      ParseToken(Runs(l)[k]);
    }
  }

  /** Joined token lists differ when the lists differ. */
  lemma JoinInjective(a: seq<string>, b: seq<string>)
    requires forall k :: 0 <= k < |a| ==> a[k] != "" && ',' !in a[k]
    requires forall k :: 0 <= k < |b| ==> b[k] != "" && ',' !in b[k]
    requires Join(a, ',') == Join(b, ',')
    ensures a == b
  {
    if a != [] { SplitOfJoin(a, ','); }
    if b != [] { SplitOfJoin(b, ','); }
  }

  /** Comparing packed texts, as the cgroup verification does, compares the CPU sets. */
  lemma PackedTextComparesCpus(a: string, b: string)
    ensures PackedText(a) == PackedText(b) <==> Elements(UnpackText(a)) == Elements(UnpackText(b))
  {
    hide Unpack, Pack;
    var x, y := Split(StripQuotes(a), ','), Split(StripQuotes(b), ',');
    PackIsCanonical(x, y);
    PackTokensArePlain(Unpack(x));
    PackTokensArePlain(Unpack(y));
    if PackedText(a) == PackedText(b) {
      JoinInjective(Pack(Unpack(x)), Pack(Unpack(y)));
    }
  }

  // ----- Blanks before masks and negations -----

  /** The text of a mask or a negation. */
  predicate Marked(s: string) {
    IsHex(s) || IsNegation(s)
  }

  lemma {:induction false} BadDigit(s: string, i: nat)
    requires i < |s| && s[i] != '_' && DigitValue(s[i]) >= 10
    ensures ParseDigits(s, 10).None?
  {
    if i < |s| - 1 {
      BadDigit(if s[|s| - 2] == '_' then s[..|s| - 2] else s[..|s| - 1], i);
    }
  }

  lemma {:induction false} StripRightKeepsFront(s: string, i: nat)
    requires i < |s| && !IsSpace(s[i])
    ensures i < |StripRight(s)| && StripRight(s)[..i + 1] == s[..i + 1]
  {
    if IsSpace(s[|s| - 1]) { StripRightKeepsFront(s[..|s| - 1], i); }
  }

  lemma MarkedIsNoNumber(s: string)
    requires Marked(StripLeft(s))
    ensures ParseInt(s, 10).None?
  {
    hide StripLeft, StripRight, ParseDigits;
    var t := StripLeft(s);
    var i := if IsNegation(t) then 0 else 1;
    StripRightKeepsFront(t, i);
    var u := StripRight(t);
    assert u[0] == u[..i + 1][0] == t[0] && u[i] == u[..i + 1][i] == t[i];
    BadDigit(u, i);
  }

  lemma {:induction false} FirstPartMarked(s: string)
    requires Marked(StripLeft(s))
    ensures Marked(StripLeft(Split(s, '-')[0]))
  {
    if IsSpace(s[0]) {
      FirstPartMarked(s[1..]);
      var part := Split(s[1..], '-')[0];
      assert Split(s, '-')[0] == [s[0]] + part && ([s[0]] + part)[1..] == part;
    } else if IsHex(s) {
      var part := Split(s[1..][1..], '-')[0];
      assert Split(s[1..], '-')[0] == [s[1]] + part;
      assert Split(s, '-')[0] == [s[0]] + ([s[1]] + part);
    }
  }

  /** With or without blanks, a mask or a negation is not a decimal token. */
  lemma MarkedIsNoRange(s: string)
    requires Marked(StripLeft(s))
    ensures ParseRange(s).None?
  {
    hide ParseInt;
    FirstPartMarked(s);
    MarkedIsNoNumber(Split(s, '-')[0]);
  }

  /** Whether the scan is inside a mask when it comes to token i. */
  function InMask(inside: bool, tokens: seq<string>, i: nat): bool
    requires i <= |tokens|
    decreases i
  {
    if i == 0 then inside else InMask(if inside then tokens[0] != "" else IsHex(tokens[0]), tokens[1..], i - 1)
  }

  lemma {:induction false} InMaskNext(inside: bool, tokens: seq<string>, i: nat)
    requires i < |tokens|
    ensures InMask(inside, tokens, i + 1) == if InMask(inside, tokens, i) then tokens[i] != "" else IsHex(tokens[i])
    decreases i
  {
    if i > 0 { InMaskNext(if inside then tokens[0] != "" else IsHex(tokens[0]), tokens[1..], i - 1); }
  }

  /** One malformed token outside a mask spoils the list, wherever it stands. */
  lemma {:induction false} UnreadMalformed(inside: bool, hv: string, tokens: seq<string>, i: nat)
    requires i < |tokens| && !InMask(inside, tokens, i)
    requires tokens[i] != "" && !Marked(tokens[i]) && ParseRange(tokens[i]).None?
    ensures Unread(inside, hv, tokens).Malformed?
    decreases i
  {
    hide ParseRange, Denotes, HexMeaning, Marked;
    var sv, rest := tokens[0], tokens[1..];
    assert tokens == [sv] + rest;
    DenotesFirst(sv, rest);
    if i == 0 {
      NotMarked(sv);
    } else {
      var now := if inside then sv != "" else IsHex(sv);
      UnreadMalformed(now, if inside then hv + sv else sv, rest, i - 1);
      if inside {
        if sv == "" { UnreadEnds(hv, tokens); } else { UnreadGrows(hv, sv, rest); }
      } else if IsHex(sv) {
        DenotesMask(sv, rest);
      }
    }
  }

  lemma NotMarked(s: string)
    requires !Marked(s)
    ensures !IsHex(s) && !IsNegation(s)
  {
  }

  lemma StrippedMark(s: string)
    requires Marked(StripLeft(s))
    ensures s != "" && (Marked(s) <==> !IsSpace(s[0])) && (!IsSpace(s[0]) ==> StripLeft(s) == s)
  {
  }

  /** A mask or negation with blanks before it is read as one exactly when it has none: with one, the whole list
      is malformed and unpacks to nothing, wherever the token stands outside a mask. */
  lemma SpacedMaskIsMalformed(tokens: seq<string>, i: nat)
    requires i < |tokens| && !InMask(false, tokens, i) && Marked(StripLeft(tokens[i]))
    ensures tokens[i] != ""
    ensures Marked(tokens[i]) <==> !IsSpace(tokens[i][0])
    ensures IsHex(StripLeft(tokens[i])) ==> (InMask(false, tokens, i + 1) <==> !IsSpace(tokens[i][0]))
    ensures IsSpace(tokens[i][0]) ==> Denotes(tokens).Malformed? && Unpack(tokens) == []
  {
    hide ParseRange, Denotes, StripLeft;
    StrippedMark(tokens[i]);
    InMaskNext(false, tokens, i);
    if IsSpace(tokens[i][0]) {
      MarkedIsNoRange(tokens[i]);
      UnreadMalformed(false, "", tokens, i);
    }
  }

  /** The two examples of the documentation, with their blanks, are such lists. */
  lemma DocumentedListsAreMalformed()
    ensures Denotes(["0-3", " 0xf", "", " 6"]).Malformed? && Denotes(["0-5", " ^3"]).Malformed?
  {
    hide ParseRange, Denotes;
    var a, b := ["0-3", " 0xf", "", " 6"], ["0-5", " ^3"];
    assert a[1] == " 0xf" && " 0xf"[1..] == "0xf" && b[1] == " ^3" && " ^3"[1..] == "^3";
    assert StripLeft("0xf") == "0xf" && StripLeft("^3") == "^3";
    assert !InMask(false, a, 1) && !InMask(false, b, 1);
    SpacedMaskIsMalformed(a, 1);
    SpacedMaskIsMalformed(b, 1);
  }

  // ----- Hexadecimal masks -----

  function Zeros(n: nat): (z: string)
    ensures |z| == n && forall i :: 0 <= i < n ==> z[i] == '0'
  {
    if n == 0 then "" else "0" + Zeros(n - 1)
  }

  /** Leading zeros up to a multiple of eight digits. */
  function Padded(s: string): string {
    Zeros((8 - |s| % 8) % 8) + s
  }

  /** Pieces of eight characters. */
  function Groups(s: string): (g: seq<string>)
    ensures |s| % 8 == 0 ==> forall i :: 0 <= i < |g| ==> |g[i]| == 8
    decreases |s|
  {
    if s == "" then [] else if |s| < 8 then [s] else [s[..8]] + Groups(s[8..])
  }

  /** The mask of a list of CPUs, as groups of eight hexadecimal digits. */
  function HexGroups(cpus: seq<nat>): seq<string> {
    Groups(Padded(Print(ListToMask(cpus), 16)))
  }

  function CpusToHex(cpus: seq<nat>): string {
    Join(HexGroups(cpus), ',')
  }

  /** `cpulist2hex` of a list of tokens. */
  ghost function CpuListToHex(tokens: seq<string>): string {
    CpusToHex(Unpack(tokens))
  }

  lemma {:induction false} GroupsConcat(s: string)
    ensures Concat(Groups(s)) == s
    ensures forall c :: c !in s ==> forall i :: 0 <= i < |Groups(s)| ==> c !in Groups(s)[i]
    decreases |s|
  {
    if |s| >= 8 {
      GroupsConcat(s[8..]);
      assert s == s[..8] + s[8..];
    } else if s != "" {
      assert [s][1..] == [] && s + "" == s;
    }
  }

  lemma {:induction false} WithoutCommasAppend(a: string, b: string)
    ensures WithoutCommas(a + b) == WithoutCommas(a) + WithoutCommas(b)
  {
    if a == "" {
      assert a + b == b;
    } else {
      assert (a + b)[1..] == a[1..] + b;
      WithoutCommasAppend(a[1..], b);
    }
  }

  lemma {:induction false} WithoutCommasOfPlain(s: string)
    requires ',' !in s
    ensures WithoutCommas(s) == s
  {
    if s != "" { WithoutCommasOfPlain(s[1..]); }
  }

  lemma {:induction false} WithoutCommasOfJoin(parts: seq<string>)
    requires forall i :: 0 <= i < |parts| ==> ',' !in parts[i]
    ensures WithoutCommas(Join(parts, ',')) == Concat(parts)
  {
    if |parts| == 1 {
      WithoutCommasOfPlain(parts[0]);
      assert parts[1..] == [] && parts[0] + "" == parts[0];
    } else if |parts| > 1 {
      WithoutCommasOfJoin(parts[1..]);
      WithoutCommasOfPlain(parts[0]);
      WithoutCommasAppend(parts[0] + [','], Join(parts[1..], ','));
      WithoutCommasAppend(parts[0], [',']);
      assert [','][1..] == "";
    }
  }

  lemma PaddedDigits(m: nat)
    ensures var s := Padded(Print(m, 16));
            && |s| % 8 == 0 && s != "" && AllDigits(s, 16) && ParseDigits(s, 16) == Some(m)
  {
    hide Print, ParseDigits;
    var d := Print(m, 16);
    PrintIsDigits(m, 16);
    ParseDigitsOfPrint(m, 16);
    ParseDigitsOfZeros(Zeros((8 - |d| % 8) % 8), d, 16);
    assert IsDigit('0', 16);
  }

  lemma {:induction false} GroupsDigits(s: string, base: nat)
    ensures AllDigits(s, base) ==> forall i :: 0 <= i < |Groups(s)| ==> AllDigits(Groups(s)[i], base)
    decreases |s|
  {
    hide IsDigit;
    if |s| >= 8 { GroupsDigits(s[8..], base); }
  }

  lemma DigitsHaveNoComma(s: string)
    requires AllDigits(s, 16)
    ensures ',' !in s
  {
  }

  /** Every group of a printed mask has exactly eight hexadecimal digits. */
  lemma HexGroupsAreEight(cpus: seq<nat>)
    ensures HexGroups(cpus) != []
    ensures forall i :: 0 <= i < |HexGroups(cpus)| ==>
              |HexGroups(cpus)[i]| == 8 && AllDigits(HexGroups(cpus)[i], 16) && ',' !in HexGroups(cpus)[i]
  {
    hide Print, Padded, AllDigits;
    GroupsDigits(Padded(Print(ListToMask(cpus), 16)), 16);
    var s := Padded(Print(ListToMask(cpus), 16));
    PaddedDigits(ListToMask(cpus));
    DigitsHaveNoComma(s);
    GroupsConcat(s);
  }

  /** A printed mask reads back as the CPUs it was made from. */
  lemma HexRoundTrip(cpus: seq<nat>)
    requires Increasing(cpus)
    ensures HexToCpuList(CpusToHex(cpus)) == cpus
  {
    hide Print, Padded, ParseInt;
    var m := ListToMask(cpus);
    var s := Padded(Print(m, 16));
    PaddedDigits(m);
    DigitsHaveNoComma(s);
    GroupsConcat(s);
    WithoutCommasOfJoin(Groups(s));
    ParseIntOfDigits(s, 16);
    ListMaskList(cpus);
  }

  /** `hex2cpulist(cpulist2hex(l))` is the unpacked list, for every token list. */
  lemma HexOfTokensRoundTrip(tokens: seq<string>)
    ensures HexToCpuList(CpuListToHex(tokens)) == Unpack(tokens)
  {
    HexRoundTrip(Unpack(tokens));
  }
}
