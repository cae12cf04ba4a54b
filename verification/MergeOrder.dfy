/** The order of what is merged: units stay where they first occur, variables come in the order their units ask for,
    and the name and the options of the merged profile (tuned/profiles/merger.py). */
module MergeOrder {
  import opened Text
  import opened Lists
  import opened Merger

  // ----- Name and options -----

  lemma {:induction false} MergeUnitsKeep(p: Profile, b: Profile, k: nat)
    requires Proper(b.units) && k <= |b.units.keys|
    ensures MergeUnits(p, b, k).name == p.name && MergeUnits(p, b, k).options == p.options
    decreases |b.units.keys| - k
  {
    hide MergedVariables, Overlay;
    if k < |b.units.keys| {
      var n := b.units.keys[k];
      MergeUnitsKeep(MergeUnit(p, n, b.units.vals[n]), b, k + 1);
    }
  }

  /** The merged profile has the name of the first profile with one, and each option from the last profile that sets
      it. */
  lemma {:induction false} MergedHead(ps: seq<Profile>, m: nat, o: string)
    requires forall i :: 0 <= i < |ps| ==> Proper(ps[i].units)
    ensures m < |ps| && ps[m].name.Some? && (forall j :: 0 <= j < m ==> ps[j].name.None?) ==> Merge(ps).name == ps[m].name
    ensures (forall j :: 0 <= j < |ps| ==> ps[j].name.None?) ==> Merge(ps).name.None?
    ensures m < |ps| && o in ps[m].options && (forall j :: m < j < |ps| ==> o !in ps[j].options) ==>
              o in Merge(ps).options && Merge(ps).options[o] == ps[m].options[o]
    ensures (forall j :: 0 <= j < |ps| ==> o !in ps[j].options) ==> o !in Merge(ps).options
  {
    hide MergeUnits;
    if ps != [] {
      var front, b := ps[..|ps| - 1], ps[|ps| - 1];
      MergedHead(front, m, o);
      var a := Merge(front);
      MergeUnitsKeep(a.(name := if a.name.None? then b.name else a.name, options := a.options + b.options), b, 0);
    }
  }

  // ----- The order of the units -----

  /** The names of the units, but for variables units, from position k on. */
  function UnitNames(b: Profile, k: nat): seq<string>
    requires Proper(b.units) && k <= |b.units.keys|
    decreases |b.units.keys| - k
  {
    if k == |b.units.keys| then []
    else (if b.units.vals[b.units.keys[k]].kind == "variables" then [] else [b.units.keys[k]]) + UnitNames(b, k + 1)
  }

  /** The same over all profiles, oldest first. */
  function AllUnitNames(ps: seq<Profile>): seq<string>
    requires forall i :: 0 <= i < |ps| ==> Proper(ps[i].units)
  {
    if ps == [] then [] else AllUnitNames(ps[..|ps| - 1]) + UnitNames(ps[|ps| - 1], 0)
  }

  /** Each name where it first occurs. */
  function Firsts(l: seq<string>): seq<string> {
    if l == [] then []
    else Firsts(l[..|l| - 1]) + if l[|l| - 1] in l[..|l| - 1] then [] else [l[|l| - 1]]
  }

  lemma FirstsSnoc(l: seq<string>, x: string)
    ensures Firsts(l + [x]) == Firsts(l) + if x in l then [] else [x]
  {
    assert (l + [x])[..|l|] == l;
  }

  lemma {:induction false} FirstsHas(l: seq<string>, x: string)
    ensures x in Firsts(l) <==> x in l
  {
    if l != [] {
      FirstsHas(l[..|l| - 1], x);
      assert l == l[..|l| - 1] + [l[|l| - 1]];
    }
  }

  /** A name comes before another one there exactly when it occurs before the other one's first occurrence. */
  lemma {:induction false} FirstsOrder(l: seq<string>, a: string, b: string)
    requires a != b
    ensures Distinct(Firsts(l))
    ensures Ahead(Firsts(l), a, b) <==> b in l && exists i :: 0 <= i < |l| && l[i] == a && b !in l[..i]
  {
    if l != [] {
      hide Firsts, Ahead;
      var front, x := l[..|l| - 1], l[|l| - 1];
      assert l == front + [x];
      FirstsOrder(front, a, b);
      FirstsSnoc(front, x);
      FirstsHas(front, x);
      FirstsHas(front, a);
      if x in front {
        assert Firsts(front) + [] == Firsts(front);
        SameBefore(front, x, a, b);
      } else {
        LaterBefore(front, x, a, b);
        SnocAhead(Firsts(front), x, a, b);
        DistinctSnoc(Firsts(front), x);
      }
    } else {
      NotAhead(a, b);
    }
  }

  lemma NotAhead(a: string, b: string)
    ensures !Ahead<string>([], a, b) && Firsts([]) == []
  {
  }

  lemma DistinctSnoc(l: seq<string>, x: string)
    requires Distinct(l) && x !in l
    ensures Distinct(l + [x])
  {
  }

  lemma SnocAhead(l: seq<string>, x: string, a: string, b: string)
    requires x !in l && a != b
    ensures Ahead(l + [x], a, b) <==> Ahead(l, a, b) || (a in l && b == x)
  {
    if Ahead(l + [x], a, b) { AheadSnoc(l, x, a, b); }
    if Ahead(l, a, b) { AheadGrows(l, [x], a, b); }
    if a in l && b == x { AheadJoint(l, [x], a, b); }
  }

  /** Whether a occurs before b first does, with one more element at the end. */
  lemma SameBefore(front: seq<string>, x: string, a: string, b: string)
    requires x in front && a != b
    ensures var l := front + [x];
            (b in l && exists i :: 0 <= i < |l| && l[i] == a && b !in l[..i]) <==>
            (b in front && exists i :: 0 <= i < |front| && front[i] == a && b !in front[..i])
  {
    var l := front + [x];
    assert forall i :: 0 <= i <= |front| ==> l[..i] == front[..i];
    if i :| 0 <= i < |front| && front[i] == a && b !in front[..i] { assert l[i] == a && b !in l[..i]; }
    if b in l {
      if i :| 0 <= i < |l| && l[i] == a && b !in l[..i] {
        assert b in front && l[..|front|] == front;
        assert front[i] == a && b !in front[..i];
      }
    }
  }

  lemma LaterBefore(front: seq<string>, x: string, a: string, b: string)
    requires x !in front && a != b
    ensures var l := front + [x];
            (b in l && exists i :: 0 <= i < |l| && l[i] == a && b !in l[..i]) <==>
            (b in front && exists i :: 0 <= i < |front| && front[i] == a && b !in front[..i]) || (a in front && b == x)
  {
    var l := front + [x];
    assert forall i :: 0 <= i <= |front| ==> l[..i] == front[..i];
    if i :| 0 <= i < |front| && front[i] == a && b !in front[..i] { assert l[i] == a && b !in l[..i]; }
    if a in front && b == x {
      var i :| 0 <= i < |front| && front[i] == a;
      assert l[|front|] == x && l[i] == a && b !in l[..i];
    }
    if i :| 0 <= i < |l| && l[i] == a && b !in l[..i] {
      if i < |front| { assert front[i] == a && b !in front[..i]; }
    }
  }

  /** The units of the profile are those of the names, each where it first occurs. */
  ghost predicate HasUnits(p: Profile, names: seq<string>) {
    Proper(p.units) && p.units.keys == Firsts(names)
  }

  lemma MergeUnitHas(p: Profile, n: string, u: Unit, names: seq<string>)
    requires HasUnits(p, names)
    ensures HasUnits(MergeUnit(p, n, u), names + if u.kind == "variables" then [] else [n])
  {
    hide MergedVariables, Overlay, Firsts;
    FirstsHas(names, n);
    FirstsSnoc(names, n);
    assert names + [] == names;
    if u.kind != "variables" {
      if n in p.units.vals { assert Firsts(names) + [] == Firsts(names); } else { DistinctSnoc(p.units.keys, n); }
    }
  }

  lemma {:induction false} MergeUnitsHas(p: Profile, b: Profile, k: nat, names: seq<string>)
    requires Proper(b.units) && k <= |b.units.keys| && HasUnits(p, names)
    ensures HasUnits(MergeUnits(p, b, k), names + UnitNames(b, k))
    decreases |b.units.keys| - k
  {
    hide MergeUnit, HasUnits;
    if k == |b.units.keys| {
      assert names + [] == names;
    } else {
      var n := b.units.keys[k];
      var u := b.units.vals[n];
      var own := if u.kind == "variables" then [] else [n];
      MergeUnitHas(p, n, u, names);
      MergeUnitsHas(MergeUnit(p, n, u), b, k + 1, names + own);
      assert names + own + UnitNames(b, k + 1) == names + (own + UnitNames(b, k + 1));
    }
  }

  lemma {:induction false} MergeHas(ps: seq<Profile>)
    requires forall i :: 0 <= i < |ps| ==> Proper(ps[i].units)
    ensures HasUnits(Merge(ps), AllUnitNames(ps))
  {
    hide MergeUnits;
    if ps != [] {
      var front, b := ps[..|ps| - 1], ps[|ps| - 1];
      MergeHas(front);
      var a := Merge(front);
      MergeUnitsHas(a.(name := if a.name.None? then b.name else a.name, options := a.options + b.options), b, 0, AllUnitNames(front));
    }
  }

  /** Main result: over any profiles, the merged units are those of all names, once each, and one comes before another
      exactly when it occurs before the other one's first occurrence. */
  lemma MergedUnitOrder(ps: seq<Profile>, a: string, b: string)
    requires a != b && forall i :: 0 <= i < |ps| ==> Proper(ps[i].units)
    ensures var keys, l := Merge(ps).units.keys, AllUnitNames(ps);
            && Proper(Merge(ps).units)
            && (a in keys <==> a in l)
            && (Ahead(keys, a, b) <==> b in l && exists i :: 0 <= i < |l| && l[i] == a && b !in l[..i])
  {
    hide Merge, AllUnitNames, Ahead;
    MergeHas(ps);
    FirstsHas(AllUnitNames(ps), a);
    FirstsOrder(AllUnitNames(ps), a, b);
  }

  // ----- The order of the variables -----

  lemma {:induction false} NewKeysOrder(l: seq<string>, prev: map<string, Value>, a: string, b: string)
    requires Ahead(l, a, b) && a !in prev && b !in prev
    ensures Ahead(NewKeys(l, prev), a, b)
  {
    hide Ahead;
    NothingAhead(l, a, b);
    var front, x := l[..|l| - 1], l[|l| - 1];
    assert l == front + [x];
    AheadSnoc(front, x, a, b);
    var own := if x in prev then [] else [x];
    if Ahead(front, a, b) {
      NewKeysOrder(front, prev, a, b);
      AheadGrows(NewKeys(front, prev), own, a, b);
    } else {
      NewKeysAmong(front, prev, a);
      AheadJoint(NewKeys(front, prev), [x], a, b);
    }
  }

  /** Merging a variables unit keeps the known variables in their order and the new ones in the unit's; with `prepend`
      the new ones come before the known ones, without it after them. With `replace` nothing was known. */
  lemma VariablesOrder(prev: Ordered<Value>, u: Unit, k: string, l: string)
    requires Proper(prev) && Proper(u.options)
    ensures var known := if u.replace then [] else prev.keys;
            var t := MergedVariables(prev, u).keys;
            && Distinct(t) && (k in t <==> k in known || k in u.options.keys)
            && (Ahead(known, k, l) ==> Ahead(t, k, l))
            && (Ahead(u.options.keys, k, l) && k !in known && l !in known ==> Ahead(t, k, l))
            && (k in u.options.keys && k !in known && l in known ==> if u.prepend then Ahead(t, k, l) else Ahead(t, l, k))
  {
    hide Ahead, NewKeys;
    MergedVariablesProper(prev, u);
    var base := if u.replace then Ordered([], map[]) else prev;
    var added := NewKeys(u.options.keys, base.vals);
    NewKeysAmong(u.options.keys, base.vals, k);
    NewKeysAmong(u.options.keys, base.vals, l);
    if Ahead(base.keys, k, l) { AheadGrows(base.keys, added, k, l); }
    if Ahead(u.options.keys, k, l) && k !in base.keys && l !in base.keys {
      NewKeysOrder(u.options.keys, base.vals, k, l);
      AheadGrows(added, base.keys, k, l);
    }
    if k in added && l in base.keys {
      AheadJoint(added, base.keys, k, l);
      AheadJoint(base.keys, added, l, k);
    }
  }

  // ----- The merged options are well-formed -----

  lemma {:induction false} KeptAmong(keys: seq<string>, drop: seq<string>, k: string)
    ensures k in Kept(keys, drop) <==> k in keys && k !in drop
  {
    if keys != [] {
      KeptAmong(keys[..|keys| - 1], drop, k);
      assert keys == keys[..|keys| - 1] + [keys[|keys| - 1]];
    }
  }

  lemma {:induction false} KeptDistinct(keys: seq<string>, drop: seq<string>)
    requires Distinct(keys)
    ensures Distinct(Kept(keys, drop))
  {
    if keys != [] {
      var front, x := keys[..|keys| - 1], keys[|keys| - 1];
      KeptDistinct(front, drop);
      KeptAmong(front, drop, x);
      if x !in drop { DistinctSnoc(Kept(front, drop), x); }
    }
  }

  lemma UpdateProper(a: Ordered<Value>, b: Ordered<Value>)
    requires Proper(a) && Proper(b)
    ensures Proper(Update(a, b))
  {
    var added := NewKeys(b.keys, a.vals);
    forall k ensures k in added <==> k in b.vals && k !in a.vals { NewKeysAmong(b.keys, a.vals, k); }
    NewKeysDistinct(b.keys, a.vals);
    JoinDistinct(a.keys, added);
  }

  /** Overlaying a unit lists every option once, as the dictionaries of the source do. */
  lemma OverlaidProper(name: string, prev: Ordered<Value>, u: Unit)
    requires Proper(prev) && Proper(u.options)
    ensures Proper(OverlaidOptions(name, prev, u))
  {
    hide Update, Kept;
    var drop := Dropped(u.drop);
    var kept := WithoutKeys(prev, drop);
    forall k ensures k in kept.keys <==> k in prev.keys && k !in drop { KeptAmong(prev.keys, drop, k); }
    KeptDistinct(prev.keys, drop);
    UpdateProper(kept, u.options);
    UpdateIs(kept, u.options);
  }

  lemma {:induction false} MergedProper(name: string, us: seq<Unit>)
    requires us != [] && forall i :: 0 <= i < |us| ==> Proper(us[i].options)
    ensures MergedUnit(name, us).Some? && Proper(MergedUnit(name, us).value.options)
  {
    hide OverlaidOptions;
    var front := us[..|us| - 1];
    if front != [] {
      MergedProper(name, front);
      OverlaidProper(name, MergedUnit(name, front).value.options, us[|us| - 1]);
    } else {
      NothingMerged(name);
    }
  }
}
