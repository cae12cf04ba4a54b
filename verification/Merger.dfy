/** Merging of profiles: a fold whose step updates the merged units, options and ordered variables in place
    (tuned/profiles/merger.py). */
module Merger {
  import opened Text
  import CpuMask

  /** An ordered dictionary. */
  datatype Ordered<V> = Ordered(keys: seq<string>, vals: map<string, V>)

  /** Option values are texts, except `script`, which the loader makes a list of paths. */
  datatype Value = Plain(text: string) | Scripts(paths: seq<string>)

  /** `attrs` holds those of priority, devices_udev_regex, cpuinfo_regex, uname_regex, script_pre and
      script_post that are set. */
  datatype Unit = Unit(
    kind: string,
    enabled: bool,
    replace: bool,
    prepend: bool,
    drop: Option<seq<string>>,
    devices: string,
    attrs: map<string, string>,
    options: Ordered<Value>)

  datatype Profile = Profile(
    name: Option<string>,
    options: map<string, string>,
    units: Ordered<Unit>,
    variables: Ordered<Value>)

  ghost predicate Proper<V>(o: Ordered<V>) {
    && (forall k :: k in o.keys <==> k in o.vals)
    && Distinct(o.keys)
  }

  ghost predicate Distinct(l: seq<string>) {
    forall i, j :: 0 <= i < j < |l| ==> l[i] != l[j]
  }

  // ----- Ordered dictionaries -----

  function Put<V>(o: Ordered<V>, k: string, v: V): Ordered<V> {
    Ordered(if k in o.vals then o.keys else o.keys + [k], o.vals[k := v])
  }

  /** The keys of `l` that are not in the dictionary, in their order. */
  function NewKeys<V>(l: seq<string>, prev: map<string, V>): seq<string> {
    if l == [] then []
    else NewKeys(l[..|l| - 1], prev) + if l[|l| - 1] in prev then [] else [l[|l| - 1]]
  }

  /** `a.update(b)`: known keys keep their place, new ones follow in b's order. */
  function Update<V>(a: Ordered<V>, b: Ordered<V>): Ordered<V> {
    Ordered(a.keys + NewKeys(b.keys, a.vals), a.vals + b.vals)
  }

  // ----- Variables -----

  /** What a variables unit leaves: with `prepend` its new variables come first, in their own order. */
  function MergedVariables(prev: Ordered<Value>, u: Unit): Ordered<Value> {
    var base := if u.replace then Ordered([], map[]) else prev;
    var added := NewKeys(u.options.keys, base.vals);
    Ordered(if u.prepend then added + base.keys else base.keys + added, base.vals + u.options.vals)
  }

  // ----- Units -----

  function Dropped(drop: Option<seq<string>>): seq<string> {
    if drop.None? then [] else drop.value
  }

  function WithoutKeys(o: Ordered<Value>, drop: seq<string>): Ordered<Value> {
    Ordered(Kept(o.keys, drop), map k | k in o.vals && k !in drop :: o.vals[k])
  }

  function Kept(keys: seq<string>, drop: seq<string>): seq<string> {
    if keys == [] then []
    else Kept(keys[..|keys| - 1], drop) + if keys[|keys| - 1] in drop then [] else [keys[|keys| - 1]]
  }

  function Appended(a: Value, b: Value): Value {
    if a.Scripts? && b.Scripts? then Scripts(a.paths + b.paths) else b
  }

  /** The options of an older unit after a newer one: drop, then update; the script unit's list is put in
      front of whatever `script` then holds. */
  function OverlaidOptions(name: string, prev: Ordered<Value>, u: Unit): Ordered<Value> {
    var kept := WithoutKeys(prev, Dropped(u.drop));
    var updated := Update(kept, u.options);
    if name == "script" && "script" in kept.vals then
      Put(updated, "script", Appended(kept.vals["script"], updated.vals["script"]))
    else updated
  }

  function Overlay(name: string, prev: Unit, u: Unit): Unit {
    prev.(kind := u.kind, enabled := u.enabled, devices := u.devices, attrs := prev.attrs + u.attrs,
         options := OverlaidOptions(name, prev.options, u))
  }

  function MergeUnit(p: Profile, name: string, u: Unit): Profile {
    if u.kind == "variables" then p.(variables := MergedVariables(p.variables, u))
    else if u.replace || name !in p.units.vals then p.(units := Put(p.units, name, u))
    else p.(units := Put(p.units, name, Overlay(name, p.units.vals[name], u)))
  }

  /** Merge the units of b from position k on. */
  function MergeUnits(p: Profile, b: Profile, k: nat): Profile
    requires Proper(b.units) && k <= |b.units.keys|
    decreases |b.units.keys| - k
  {
    if k == |b.units.keys| then p
    else MergeUnits(MergeUnit(p, b.units.keys[k], b.units.vals[b.units.keys[k]]), b, k + 1)
  }

  function MergeTwo(a: Profile, b: Profile): Profile
    requires Proper(b.units)
  {
    MergeUnits(a.(name := if a.name.None? then b.name else a.name, options := a.options + b.options), b, 0)
  }

  const EMPTY := Profile(None, map[], Ordered([], map[]), Ordered([], map[]))

  function Merge(ps: seq<Profile>): Profile
    requires forall i :: 0 <= i < |ps| ==> Proper(ps[i].units)
  {
    if ps == [] then EMPTY else MergeTwo(Merge(ps[..|ps| - 1]), ps[|ps| - 1])
  }

  // ----- One unit through the whole fold -----

  /** The units of that name in the profiles, oldest first, without variables units. */
  function Occurrences(ps: seq<Profile>, name: string): seq<Unit> {
    if ps == [] then []
    else
      var p := ps[|ps| - 1];
      Occurrences(ps[..|ps| - 1], name) +
      if name in p.units.vals && p.units.vals[name].kind != "variables" then [p.units.vals[name]] else []
  }

  function MergedUnit(name: string, us: seq<Unit>): Option<Unit> {
    if us == [] then None
    else
      var prev, u := MergedUnit(name, us[..|us| - 1]), us[|us| - 1];
      if prev.None? || u.replace then Some(u) else Some(Overlay(name, prev.value, u))
  }

  function Lookup<V>(o: Ordered<V>, k: string): Option<V> {
    if k in o.vals then Some(o.vals[k]) else None
  }

  lemma MergeUnitLookup(p: Profile, n: string, u: Unit, name: string)
    ensures var prev := Lookup(p.units, name);
            Lookup(MergeUnit(p, n, u).units, name) ==
            if n != name || u.kind == "variables" then prev
            else if prev.None? || u.replace then Some(u) else Some(Overlay(name, prev.value, u))
  {
  }

  /** A profile touches the unit of each name once. */
  lemma {:induction false} MergeUnitsLookup(p: Profile, b: Profile, k: nat, name: string)
    requires Proper(b.units) && k <= |b.units.keys|
    ensures var prev := Lookup(p.units, name);
            Lookup(MergeUnits(p, b, k).units, name) ==
            if name !in b.units.keys[k..] || b.units.vals[name].kind == "variables" then prev
            else if prev.None? || b.units.vals[name].replace then Some(b.units.vals[name])
            else Some(Overlay(name, prev.value, b.units.vals[name]))
    decreases |b.units.keys| - k
  {
    hide Overlay, MergeUnit;
    if k < |b.units.keys| {
      var n := b.units.keys[k];
      MergeUnitLookup(p, n, b.units.vals[n], name);
      MergeUnitsLookup(MergeUnit(p, n, b.units.vals[n]), b, k + 1, name);
      assert b.units.keys[k..] == [n] + b.units.keys[k + 1..];
      if n == name { assert name !in b.units.keys[k + 1..]; }
    }
  }

  /** The merged unit depends only on the units of its name, oldest first. */
  lemma {:induction false} MergeLookup(ps: seq<Profile>, name: string)
    requires forall i :: 0 <= i < |ps| ==> Proper(ps[i].units)
    ensures Lookup(Merge(ps).units, name) == MergedUnit(name, Occurrences(ps, name))
  {
    hide Overlay, MergeUnits;
    if ps != [] {
      var front, b := ps[..|ps| - 1], ps[|ps| - 1];
      MergeLookup(front, name);
      var a := Merge(front);
      var start := a.(name := if a.name.None? then b.name else a.name, options := a.options + b.options);
      MergeUnitsLookup(start, b, 0, name);
      assert b.units.keys[0..] == b.units.keys;
      var us := Occurrences(front, name);
      if name in b.units.vals && b.units.vals[name].kind != "variables" {
        assert (us + [b.units.vals[name]])[..|us|] == us;
      } else {
        assert us + [] == us;
      }
    }
  }

  // ----- The closed form -----

  /** The last replacing occurrence, or the first one. */
  function StartOf(us: seq<Unit>): (k: nat)
    ensures us != [] ==> k < |us|
  {
    if |us| <= 1 then 0 else if us[|us| - 1].replace then |us| - 1 else StartOf(us[..|us| - 1])
  }

  /** Occurrence m defines the option, and no later one defines or drops it. */
  ghost predicate LastDefiner(us: seq<Unit>, o: string, m: nat) {
    && StartOf(us) <= m < |us|
    && o in us[m].options.vals
    && forall j :: m < j < |us| ==> o !in us[j].options.vals && o !in Dropped(us[j].drop)
  }

  lemma OverlaidOption(name: string, prev: Ordered<Value>, u: Unit, o: string)
    requires name != "script" || o != "script"
    ensures Lookup(OverlaidOptions(name, prev, u), o) ==
            if o in u.options.vals then Some(u.options.vals[o])
            else if o in Dropped(u.drop) then None else Lookup(prev, o)
  {
    hide Kept, NewKeys;
  }

  /** An option of a merged unit comes from its last definer since the last replacing occurrence (or the
      first one), unless a later occurrence drops it; without such a definer it is not set. */
  lemma {:induction false} OptionClosedForm(name: string, us: seq<Unit>, o: string)
    requires us != [] && (name != "script" || o != "script")
    ensures MergedUnit(name, us).Some?
    ensures var v := Lookup(MergedUnit(name, us).value.options, o);
            && (forall m: nat :: LastDefiner(us, o, m) ==> v == Some(us[m].options.vals[o]))
            && (v.Some? ==> exists m: nat :: LastDefiner(us, o, m))
  {
    hide OverlaidOptions, LastDefiner, Lookup;
    var n := |us| - 1;
    var front, u := us[..n], us[n];
    assert us == front + [u];
    NothingMerged(name);
    LookupOf(u.options, o);
    if n == 0 || u.replace {
      forall m: nat ensures LastDefiner(us, o, m) <==> m == n && o in u.options.vals { DefinerStarts(front, u, o, m); }
      if o in u.options.vals { assert LastDefiner(us, o, n); }
    } else {
      OptionClosedForm(name, front, o);
      OverlaidOption(name, MergedUnit(name, front).value.options, u, o);
      forall m: nat ensures LastDefiner(us, o, m) <==> DefinesAfter(front, u, o, m) { DefinerSnoc(front, u, o, m); }
      DefinesAfterLast(front, u, o);
      if m: nat :| DefinesAfter(front, u, o, m) { assert LastDefiner(us, o, m); }
    }
  }

  lemma LookupOf(options: Ordered<Value>, o: string)
    ensures Lookup(options, o) == if o in options.vals then Some(options.vals[o]) else None
  {
  }

  lemma DefinerStarts(front: seq<Unit>, u: Unit, o: string, m: nat)
    requires front == [] || u.replace
    ensures LastDefiner(front + [u], o, m) <==> m == |front| && o in u.options.vals
  {
    var us := front + [u];
    assert StartOf(us) == |front| && us[|front|] == u;
  }

  /** Occurrence m of a list that the unit ends is the last definer. */
  ghost predicate DefinesAfter(front: seq<Unit>, u: Unit, o: string, m: nat) {
    if m == |front| then o in u.options.vals
    else LastDefiner(front, o, m) && o !in u.options.vals && o !in Dropped(u.drop)
  }

  lemma DefinerSnoc(front: seq<Unit>, u: Unit, o: string, m: nat)
    requires front != [] && !u.replace
    ensures LastDefiner(front + [u], o, m) <==> DefinesAfter(front, u, o, m)
    ensures LastDefiner(front, o, m) ==> m < |front|
  {
    var us := front + [u];
    assert us[..|front|] == front;
    assert forall j :: 0 <= j < |front| ==> us[j] == front[j];
    assert us[|front|] == u;
  }

  lemma DefinesAfterLast(front: seq<Unit>, u: Unit, o: string)
    ensures (exists m: nat :: DefinesAfter(front, u, o, m)) <==>
            o in u.options.vals || (o !in Dropped(u.drop) && exists m: nat :: LastDefiner(front, o, m))
    ensures forall m: nat :: LastDefiner(front, o, m) ==> m < |front|
  {
    if o in u.options.vals {
      assert DefinesAfter(front, u, o, |front|);
    } else if m: nat :| LastDefiner(front, o, m) && o !in Dropped(u.drop) {
      assert DefinesAfter(front, u, o, m);
    }
  }

  /** Occurrence m sets the attribute, and no later one does. */
  ghost predicate LastSetter(us: seq<Unit>, a: string, m: nat) {
    StartOf(us) <= m < |us| && a in us[m].attrs && forall j :: m < j < |us| ==> a !in us[j].attrs
  }

  /** Type, enabling and device expression come from the last occurrence; the optional attributes from the
      last one that sets them, and they cannot be dropped. */
  lemma {:induction false} AttributesClosedForm(name: string, us: seq<Unit>, a: string)
    requires us != []
    ensures MergedUnit(name, us).Some?
    ensures var r, last := MergedUnit(name, us).value, us[|us| - 1];
            && r.kind == last.kind && r.enabled == last.enabled && r.devices == last.devices
            && (forall m: nat :: LastSetter(us, a, m) ==> a in r.attrs && r.attrs[a] == us[m].attrs[a])
            && (a in r.attrs ==> exists m: nat :: LastSetter(us, a, m))
  {
    hide OverlaidOptions, LastSetter;
    var n := |us| - 1;
    var front, u := us[..n], us[n];
    assert us == front + [u];
    NothingMerged(name);
    if n == 0 || u.replace {
      forall m: nat ensures LastSetter(us, a, m) <==> m == n && a in u.attrs { SetterStarts(front, u, a, m); }
      if a in u.attrs { assert LastSetter(us, a, n); }
    } else {
      AttributesClosedForm(name, front, a);
      forall m: nat ensures LastSetter(us, a, m) <==> SetsAfter(front, u, a, m) { SetterSnoc(front, u, a, m); }
      SetsAfterLast(front, u, a);
      if m: nat :| SetsAfter(front, u, a, m) { assert LastSetter(us, a, m); }
    }
  }

  lemma SetterStarts(front: seq<Unit>, u: Unit, a: string, m: nat)
    requires front == [] || u.replace
    ensures LastSetter(front + [u], a, m) <==> m == |front| && a in u.attrs
  {
    var us := front + [u];
    assert StartOf(us) == |front| && us[|front|] == u;
  }

  ghost predicate SetsAfter(front: seq<Unit>, u: Unit, a: string, m: nat) {
    if m == |front| then a in u.attrs else LastSetter(front, a, m) && a !in u.attrs
  }

  lemma SetterSnoc(front: seq<Unit>, u: Unit, a: string, m: nat)
    requires front != [] && !u.replace
    ensures LastSetter(front + [u], a, m) <==> SetsAfter(front, u, a, m)
    ensures LastSetter(front, a, m) ==> m < |front|
  {
    var us := front + [u];
    assert us[..|front|] == front;
    assert forall j :: 0 <= j < |front| ==> us[j] == front[j];
    assert us[|front|] == u;
  }

  lemma SetsAfterLast(front: seq<Unit>, u: Unit, a: string)
    ensures (exists m: nat :: SetsAfter(front, u, a, m)) <==> a in u.attrs || exists m: nat :: LastSetter(front, a, m)
    ensures forall m: nat :: LastSetter(front, a, m) ==> m < |front|
  {
    if a in u.attrs {
      assert SetsAfter(front, u, a, |front|);
    } else if m: nat :| LastSetter(front, a, m) {
      assert SetsAfter(front, u, a, m);
    }
  }

  // ----- The script unit -----

  function ScriptPaths(o: Ordered<Value>): seq<string> {
    if "script" in o.vals && o.vals["script"].Scripts? then o.vals["script"].paths else []
  }

  /** A newer script unit appends its scripts to the kept ones exactly when it has a `script` option or there
      is nothing to keep; without the option it doubles what is kept. */
  lemma ScriptsAppendIff(prev: Ordered<Value>, u: Unit)
    requires "script" in prev.vals ==> prev.vals["script"].Scripts?
    requires "script" in u.options.vals ==> u.options.vals["script"].Scripts?
    ensures var kept := ScriptPaths(WithoutKeys(prev, Dropped(u.drop)));
            var paths := ScriptPaths(OverlaidOptions("script", prev, u));
            && (paths == kept + ScriptPaths(u.options) <==> "script" in u.options.vals || kept == [])
            && ("script" !in u.options.vals ==> paths == kept + kept)
  {
    hide Kept, NewKeys;
    var kept := ScriptPaths(WithoutKeys(prev, Dropped(u.drop)));
    assert kept + kept == kept <==> kept == [] by {
      assert |kept + kept| == |kept| + |kept|;
    }
    assert kept + [] == kept;
  }

  /** Where the scripts that are still listed begin: the last replacing occurrence, the last one that drops
      `script`, or the first one. */
  function ScriptsFrom(us: seq<Unit>): (k: nat)
    ensures us != [] ==> k < |us|
  {
    if |us| <= 1 then 0
    else if us[|us| - 1].replace || "script" in Dropped(us[|us| - 1].drop) then |us| - 1
    else ScriptsFrom(us[..|us| - 1])
  }

  function PathsFrom(us: seq<Unit>, k: nat): seq<string> {
    if |us| <= k then [] else PathsFrom(us[..|us| - 1], k) + ScriptPaths(us[|us| - 1].options)
  }

  ghost predicate ListsScripts(us: seq<Unit>) {
    forall i :: 0 <= i < |us| ==> "script" in us[i].options.vals && us[i].options.vals["script"].Scripts?
  }

  /** The loader makes every `script` option a list. */
  ghost predicate Typed(us: seq<Unit>) {
    forall i :: 0 <= i < |us| && "script" in us[i].options.vals ==> us[i].options.vals["script"].Scripts?
  }

  function OwnScripts(u: Unit): Option<Value> {
    Lookup(u.options, "script")
  }

  /** What is listed after a newer unit: its scripts follow the kept ones; without a list of its own it doubles
      them. */
  function Listing(us: seq<Unit>): Option<Value> {
    if us == [] then None
    else
      var u := us[|us| - 1];
      var kept := if |us| == 1 || u.replace || "script" in Dropped(u.drop) then None else Listing(us[..|us| - 1]);
      if kept.None? then OwnScripts(u)
      else Some(Appended(kept.value, if OwnScripts(u).Some? then OwnScripts(u).value else kept.value))
  }

  lemma OverlaidListing(prev: Ordered<Value>, u: Unit)
    ensures var kept := if "script" in Dropped(u.drop) then None else Lookup(prev, "script");
            var own := OwnScripts(u);
            Lookup(OverlaidOptions("script", prev, u), "script") ==
            if kept.None? then own else Some(Appended(kept.value, if own.Some? then own.value else kept.value))
  {
    hide Kept, NewKeys;
  }

  /** The merged script unit has exactly these scripts, for all occurrences. */
  lemma {:induction false} ScriptsListed(us: seq<Unit>)
    requires us != []
    ensures MergedUnit("script", us).Some?
    ensures Lookup(MergedUnit("script", us).value.options, "script") == Listing(us)
  {
    hide OverlaidOptions, Appended;
    var n := |us| - 1;
    var front, u := us[..n], us[n];
    if n == 0 || u.replace {
      assert front == [] ==> MergedUnit("script", front).None?;
    } else {
      ScriptsListed(front);
      OverlaidListing(MergedUnit("script", front).value.options, u);
    }
  }

  function ScriptUnit(options: Ordered<Value>): Unit {
    Unit("script", true, false, false, None, "", map[], options)
  }

  /** A unit that lists one script and a later one without options: the script is listed twice. */
  lemma ScriptsDouble(path: string)
    ensures Listing([ScriptUnit(Ordered(["script"], map["script" := Scripts([path])])), ScriptUnit(Ordered([], map[]))]) ==
            Some(Scripts([path, path]))
  {
    var a, b := ScriptUnit(Ordered(["script"], map["script" := Scripts([path])])), ScriptUnit(Ordered([], map[]));
    assert [a, b][..1] == [a] && Listing([a]) == Some(Scripts([path]));
    assert [path] + [path] == [path, path];
  }

  function Paths(v: Option<Value>): seq<string> {
    if v.Some? && v.value.Scripts? then v.value.paths else []
  }

  /** Script units that all list scripts are merged by running every listed script, oldest profile first, from
      the last occurrence that starts the list anew. */
  lemma {:induction false} ScriptsConcatenate(us: seq<Unit>)
    requires us != [] && ListsScripts(us)
    ensures Listing(us).Some? && Listing(us).value.Scripts?
    ensures Paths(Listing(us)) == PathsFrom(us, ScriptsFrom(us))
  {
    var n := |us| - 1;
    var front, u := us[..n], us[n];
    var paths := ScriptPaths(u.options);
    assert [] + paths == paths && Paths(OwnScripts(u)) == paths;
    if n == 0 || u.replace || "script" in Dropped(u.drop) {
      assert PathsFrom(front, n) == [];
    } else {
      ScriptsConcatenate(front);
    }
  }

  /** How many occurrences after j have no list of their own. */
  function Doublings(us: seq<Unit>, j: nat): nat {
    if |us| <= j + 1 then 0
    else Doublings(us[..|us| - 1], j) + if OwnScripts(us[|us| - 1]).None? then 1 else 0
  }

  /** The scripts x of the occurrences from k on, each counted as often as it was doubled. */
  function Weighted(us: seq<Unit>, k: nat, x: string): nat
    decreases |us| - k
  {
    if |us| <= k then 0
    else CpuMask.Pow2(Doublings(us, k)) * multiset(Paths(OwnScripts(us[k])))[x] + Weighted(us, k + 1, x)
  }

  lemma DoublingsSnoc(front: seq<Unit>, u: Unit, k: nat)
    requires k <= |front|
    ensures Doublings(front + [u], k) ==
            if k < |front| then Doublings(front, k) + (if OwnScripts(u).None? then 1 else 0) else 0
  {
    assert (front + [u])[..|front|] == front;
  }

  lemma {:induction false} WeightedSnoc(front: seq<Unit>, u: Unit, k: nat, x: string)
    requires k <= |front|
    ensures Weighted(front + [u], k, x) ==
            (if OwnScripts(u).None? then 2 * Weighted(front, k, x) else Weighted(front, k, x)) + multiset(Paths(OwnScripts(u)))[x]
    decreases |front| - k
  {
    hide Paths, OwnScripts, Doublings, CpuMask.Pow2;
    var us := front + [u];
    DoublingsSnoc(front, u, k);
    if k == |front| {
      assert us[k] == u && Weighted(us, k + 1, x) == 0;
      OnceWithout(multiset(Paths(OwnScripts(u)))[x]);
    } else {
      WeightedSnoc(front, u, k + 1, x);
      assert us[k] == front[k];
      TwiceAsOften(Doublings(front, k), multiset(Paths(OwnScripts(front[k])))[x]);
    }
  }

  lemma OnceWithout(count: nat)
    ensures CpuMask.Pow2(0) * count == count
  {
  }

  lemma TwiceAsOften(d: nat, count: nat)
    ensures CpuMask.Pow2(d + 1) * count == 2 * (CpuMask.Pow2(d) * count)
  {
  }

  /** Closed form: since the list was last started anew, each script is listed once, doubled by every later
      occurrence that has no list of its own. */
  lemma {:induction false} ScriptsClosedForm(us: seq<Unit>, x: string)
    requires us != [] && Typed(us)
    ensures Listing(us).Some? ==> Listing(us).value.Scripts?
    ensures multiset(Paths(Listing(us)))[x] == Weighted(us, ScriptsFrom(us), x)
  {
    hide Weighted;
    var n := |us| - 1;
    var front, u := us[..n], us[n];
    assert us == front + [u];
    if n == 0 || u.replace || "script" in Dropped(u.drop) {
      WeightedSnoc(front, u, n, x);
      assert Weighted(front, n, x) == 0 by { NoneWeighted(front, x); }
      assert ScriptsFrom(us) == n;
    } else {
      ScriptsClosedForm(front, x);
      WeightedSnoc(front, u, ScriptsFrom(us), x);
    }
  }

  lemma NoneWeighted(us: seq<Unit>, x: string)
    ensures Weighted(us, |us|, x) == 0
  {
  }

  /** Main result: the fold over any profiles gives each option of each unit by the closed form; the list of the
      script unit is the one of `Listing`. */
  lemma MergeClosedForm(ps: seq<Profile>, name: string, o: string)
    requires forall i :: 0 <= i < |ps| ==> Proper(ps[i].units)
    ensures var us := Occurrences(ps, name);
            && (name in Merge(ps).units.vals <==> us != [])
            && (us != [] ==>
                  var v := Lookup(Merge(ps).units.vals[name].options, o);
                  if name == "script" && o == "script" then v == Listing(us)
                  else
                    && (forall m: nat :: LastDefiner(us, o, m) ==> v == Some(us[m].options.vals[o]))
                    && (v.Some? ==> exists m: nat :: LastDefiner(us, o, m)))
  {
    hide LastDefiner, Merge, Occurrences, Listing, MergedUnit;
    MergeLookup(ps, name);
    var us := Occurrences(ps, name);
    NothingMerged(name);
    if us != [] {
      if name == "script" && o == "script" { ScriptsListed(us); } else { OptionClosedForm(name, us, o); }
    }
  }

  lemma NothingMerged(name: string)
    ensures MergedUnit(name, []).None?
  {
  }

  // ----- The variables through the whole fold -----

  /** The variables units of a profile from position k on. */
  function VariablesUnits(b: Profile, k: nat): seq<Unit>
    requires Proper(b.units) && k <= |b.units.keys|
    decreases |b.units.keys| - k
  {
    if k == |b.units.keys| then []
    else
      var u := b.units.vals[b.units.keys[k]];
      (if u.kind == "variables" then [u] else []) + VariablesUnits(b, k + 1)
  }

  function AllVariablesUnits(ps: seq<Profile>): seq<Unit>
    requires forall i :: 0 <= i < |ps| ==> Proper(ps[i].units)
  {
    if ps == [] then [] else AllVariablesUnits(ps[..|ps| - 1]) + VariablesUnits(ps[|ps| - 1], 0)
  }

  function FoldVariables(v: Ordered<Value>, us: seq<Unit>): Ordered<Value> {
    if us == [] then v else MergedVariables(FoldVariables(v, us[..|us| - 1]), us[|us| - 1])
  }

  lemma {:induction false} FoldAppend(v: Ordered<Value>, a: seq<Unit>, b: seq<Unit>)
    ensures FoldVariables(v, a + b) == FoldVariables(FoldVariables(v, a), b)
  {
    hide MergedVariables;
    if b == [] {
      assert a + b == a;
    } else {
      FoldAppend(v, a, b[..|b| - 1]);
      assert (a + b)[..|a + b| - 1] == a + b[..|b| - 1];
    }
  }

  lemma MergeUnitVariables(p: Profile, n: string, u: Unit)
    ensures MergeUnit(p, n, u).variables == if u.kind == "variables" then MergedVariables(p.variables, u) else p.variables
  {
    hide MergedVariables, Overlay;
  }

  lemma FoldFirst(v: Ordered<Value>, u: Unit, rest: seq<Unit>)
    ensures FoldVariables(v, [u] + rest) == FoldVariables(MergedVariables(v, u), rest)
  {
    hide MergedVariables;
    FoldAppend(v, [u], rest);
    assert [u][..0] == [];
  }

  lemma {:induction false} MergeUnitsVariables(p: Profile, b: Profile, k: nat)
    requires Proper(b.units) && k <= |b.units.keys|
    ensures MergeUnits(p, b, k).variables == FoldVariables(p.variables, VariablesUnits(b, k))
    decreases |b.units.keys| - k
  {
    hide MergedVariables, MergeUnit, FoldVariables;
    if k == |b.units.keys| {
      FoldNothing(p.variables);
    } else {
      var n := b.units.keys[k];
      var u := b.units.vals[n];
      var rest := VariablesUnits(b, k + 1);
      MergeUnitVariables(p, n, u);
      MergeUnitsVariables(MergeUnit(p, n, u), b, k + 1);
      FoldFirst(p.variables, u, rest);
      assert [] + rest == rest;
    }
  }

  lemma {:induction false} MergeVariablesUnits(ps: seq<Profile>)
    requires forall i :: 0 <= i < |ps| ==> Proper(ps[i].units)
    ensures Merge(ps).variables == FoldVariables(EMPTY.variables, AllVariablesUnits(ps))
  {
    hide MergeUnits, FoldVariables, VariablesUnits;
    if ps == [] {
      FoldNothing(EMPTY.variables);
    } else {
      var front, b := ps[..|ps| - 1], ps[|ps| - 1];
      MergeVariablesUnits(front);
      var a := Merge(front);
      MergeUnitsVariables(a.(name := if a.name.None? then b.name else a.name, options := a.options + b.options), b, 0);
      FoldAppend(EMPTY.variables, AllVariablesUnits(front), VariablesUnits(b, 0));
    }
  }

  lemma FoldNothing(v: Ordered<Value>)
    ensures FoldVariables(v, []) == v
  {
  }

  /** The last replacing unit, or the first one. */
  function VariablesFrom(us: seq<Unit>): nat {
    if us == [] then 0 else if us[|us| - 1].replace then |us| - 1 else VariablesFrom(us[..|us| - 1])
  }

  /** Unit m sets the variable, and no later one does. */
  ghost predicate LastSets(us: seq<Unit>, x: string, m: nat) {
    VariablesFrom(us) <= m < |us| && x in us[m].options.vals && forall j :: m < j < |us| ==> x !in us[j].options.vals
  }

  lemma LastSetsSnoc(front: seq<Unit>, u: Unit, x: string, m: nat)
    ensures LastSets(front + [u], x, m) <==>
            if m == |front| then x in u.options.vals else !u.replace && x !in u.options.vals && LastSets(front, x, m)
    ensures LastSets(front, x, m) ==> m < |front|
  {
    var us := front + [u];
    assert us[..|front|] == front && us[|front|] == u;
    assert forall j :: 0 <= j < |front| ==> us[j] == front[j];
    VariablesFromBound(front);
  }

  lemma {:induction false} VariablesFromBound(us: seq<Unit>)
    ensures VariablesFrom(us) <= |us|
  {
    if us != [] { VariablesFromBound(us[..|us| - 1]); }
  }

  lemma MergedValue(prev: Ordered<Value>, u: Unit, x: string)
    ensures Lookup(MergedVariables(prev, u), x) ==
            if x in u.options.vals then Some(u.options.vals[x]) else if u.replace then None else Lookup(prev, x)
  {
    hide NewKeys;
  }

  lemma {:induction false} VariableClosedForm(us: seq<Unit>, x: string)
    ensures var v := Lookup(FoldVariables(EMPTY.variables, us), x);
            && (forall m: nat :: LastSets(us, x, m) ==> v == Some(us[m].options.vals[x]))
            && (v.Some? ==> exists m: nat :: LastSets(us, x, m))
  {
    if us != [] {
      hide LastSets, MergedVariables, Lookup;
      var n := |us| - 1;
      var front, u := us[..n], us[n];
      assert us == front + [u];
      VariableClosedForm(front, x);
      MergedValue(FoldVariables(EMPTY.variables, front), u, x);
      forall m: nat ensures LastSets(us, x, m) <==> SetsVariable(front, u, x, m) { LastSetsSnoc(front, u, x, m); }
      SetsVariableLast(front, u, x);
      if m: nat :| SetsVariable(front, u, x, m) { assert LastSets(us, x, m); }
    }
  }

  ghost predicate SetsVariable(front: seq<Unit>, u: Unit, x: string, m: nat) {
    if m == |front| then x in u.options.vals else !u.replace && x !in u.options.vals && LastSets(front, x, m)
  }

  lemma SetsVariableLast(front: seq<Unit>, u: Unit, x: string)
    ensures (exists m: nat :: SetsVariable(front, u, x, m)) <==>
            x in u.options.vals || (!u.replace && exists m: nat :: LastSets(front, x, m))
    ensures forall m: nat :: LastSets(front, x, m) ==> m < |front|
  {
    if x in u.options.vals {
      assert SetsVariable(front, u, x, |front|);
    } else if m: nat :| LastSets(front, x, m) && !u.replace {
      assert SetsVariable(front, u, x, m);
    }
  }

  /** Main result: over any profiles, the value of a variable comes from the last variables unit that sets it since
      the last replacing one; without such a unit it is not set. */
  lemma VariablesClosedForm(ps: seq<Profile>, x: string)
    requires forall i :: 0 <= i < |ps| ==> Proper(ps[i].units)
    ensures var us, v := AllVariablesUnits(ps), Lookup(Merge(ps).variables, x);
            && (forall m: nat :: LastSets(us, x, m) ==> v == Some(us[m].options.vals[x]))
            && (v.Some? ==> exists m: nat :: LastSets(us, x, m))
  {
    hide LastSets, Merge, AllVariablesUnits, FoldVariables, Lookup;
    MergeVariablesUnits(ps);
    VariableClosedForm(AllVariablesUnits(ps), x);
  }

  // ----- The loops -----

  lemma {:induction false} KeptKept(keys: seq<string>, a: seq<string>, d: string)
    ensures Kept(Kept(keys, a), [d]) == Kept(keys, a + [d])
  {
    if keys != [] {
      var front, k := keys[..|keys| - 1], keys[|keys| - 1];
      KeptKept(front, a, d);
      if k !in a {
        assert (Kept(front, a) + [k])[..|Kept(front, a)|] == Kept(front, a);
      } else {
        assert Kept(front, a) + [] == Kept(front, a);
      }
    }
  }

  lemma {:induction false} KeptAll(keys: seq<string>)
    ensures Kept(keys, []) == keys
  {
    if keys != [] { KeptAll(keys[..|keys| - 1]); }
  }

  /** Pop each dropped option. */
  method DropOptions(o: Ordered<Value>, drop: seq<string>) returns (r: Ordered<Value>)
    ensures r == WithoutKeys(o, drop)
  {
    r := o;
    KeptAll(o.keys);
    assert drop[..0] == [];
    for i := 0 to |drop|
      invariant r == WithoutKeys(o, drop[..i])
    {
      KeptKept(o.keys, drop[..i], drop[i]);
      assert drop[..i + 1] == drop[..i] + [drop[i]];
      r := WithoutKeys(r, [drop[i]]);
    }
    assert drop[..|drop|] == drop;
  }

  lemma {:induction false} NewKeysAppend<V>(a: seq<string>, b: seq<string>, prev: map<string, V>)
    ensures NewKeys(a + b, prev) == NewKeys(a, prev) + NewKeys(b, prev)
  {
    if b == [] {
      assert a + b == a;
    } else {
      NewKeysAppend(a, b[..|b| - 1], prev);
      assert (a + b)[..|a + b| - 1] == a + b[..|b| - 1];
    }
  }

  lemma {:induction false} NewKeysAmong<V>(l: seq<string>, prev: map<string, V>, k: string)
    ensures k in NewKeys(l, prev) <==> k in l && k !in prev
  {
    if l != [] {
      NewKeysAmong(l[..|l| - 1], prev, k);
      assert l == l[..|l| - 1] + [l[|l| - 1]];
    }
  }

  function MoveFirst(keys: seq<string>, k: string): seq<string> {
    [k] + Kept(keys, [k])
  }

  lemma {:induction false} KeptPlain(keys: seq<string>, k: string)
    requires k !in keys
    ensures Kept(keys, [k]) == keys
  {
    if keys != [] {
      var front, last := keys[..|keys| - 1], keys[|keys| - 1];
      assert keys == front + [last];
      KeptPlain(front, k);
    }
  }

  /** Moving the last key to the front. */
  lemma MoveLast(front: seq<string>, k: string)
    requires k !in front
    ensures MoveFirst(front + [k], k) == [k] + front
  {
    KeptPlain(front, k);
    assert (front + [k])[..|front|] == front;
  }

  /** The dictionary after the first i entries were put. */
  ghost function Updated(base: Ordered<Value>, o: Ordered<Value>, i: nat): Ordered<Value>
    requires Proper(o) && i <= |o.keys|
  {
    Ordered(base.keys + NewKeys(o.keys[..i], base.vals), base.vals + FirstEntries(o, i))
  }

  ghost function FirstEntries(o: Ordered<Value>, i: nat): map<string, Value>
    requires Proper(o) && i <= |o.keys|
  {
    if i == 0 then map[] else FirstEntries(o, i - 1)[o.keys[i - 1] := o.vals[o.keys[i - 1]]]
  }

  lemma NewKeysOne(k: string, prev: map<string, Value>)
    ensures NewKeys([k], prev) == if k in prev then [] else [k]
  {
    assert [k][..0] == [];
  }

  lemma UpdatedNext(base: Ordered<Value>, o: Ordered<Value>, i: nat)
    requires Proper(o) && i < |o.keys|
    ensures Put(Updated(base, o, i), o.keys[i], o.vals[o.keys[i]]) == Updated(base, o, i + 1)
  {
    hide NewKeys, FirstEntries;
    var k := o.keys[i];
    assert o.keys[..i + 1] == o.keys[..i] + [k];
    NewKeysAppend(o.keys[..i], [k], base.vals);
    NewKeysOne(k, base.vals);
    FirstEntriesNext(base.vals, o, i);
    var a, b, c := base.keys, NewKeys(o.keys[..i], base.vals), NewKeys([k], base.vals);
    assert a + (b + c) == (a + b) + c && (a + b) + [] == a + b;
  }

  lemma FirstEntriesNext(base: map<string, Value>, o: Ordered<Value>, i: nat)
    requires Proper(o) && i < |o.keys|
    ensures var k := o.keys[i];
            && base + FirstEntries(o, i + 1) == (base + FirstEntries(o, i))[k := o.vals[k]]
            && (k in base + FirstEntries(o, i) <==> k in base)
  {
    FirstEntriesKeys(o, i);
  }

  lemma {:induction false} FirstEntriesKeys(o: Ordered<Value>, i: nat)
    requires Proper(o) && i <= |o.keys|
    ensures forall j :: 0 <= j < |o.keys| ==> (o.keys[j] in FirstEntries(o, i) <==> j < i)
    ensures forall k :: k in FirstEntries(o, i) ==> k in o.vals && FirstEntries(o, i)[k] == o.vals[k]
  {
    if i > 0 {
      FirstEntriesKeys(o, i - 1);
    }
  }

  lemma UpdatedEnds(base: Ordered<Value>, o: Ordered<Value>)
    requires Proper(o)
    ensures Updated(base, o, 0) == base && Updated(base, o, |o.keys|) == Update(base, o)
  {
    NoNewKeys(base.vals);
    assert o.keys[..0] == [] && base.keys + [] == base.keys;
    assert FirstEntries(o, 0) == map[] && base.vals + map[] == base.vals;
    assert o.keys[..|o.keys|] == o.keys;
    FirstEntriesKeys(o, |o.keys|);
    assert FirstEntries(o, |o.keys|) == o.vals;
  }

  method UpdateVariables(base: Ordered<Value>, o: Ordered<Value>) returns (r: Ordered<Value>)
    requires Proper(o)
    ensures r == Update(base, o)
  {
    hide Update, Updated, Put;
    r := base;
    UpdatedEnds(base, o);
    for i := 0 to |o.keys|
      invariant r == Updated(base, o, i)
    {
      UpdatedNext(base, o, i);
      r := Put(r, o.keys[i], o.vals[o.keys[i]]);
    }
  }

  /** The variables unit: clear, update, then move the new variables to the front, last one first. */
  method MergeVariables(variables: Ordered<Value>, u: Unit) returns (r: Ordered<Value>)
    requires Proper(u.options) && Proper(variables)
    ensures r == MergedVariables(variables, u)
  {
    hide Update, NewKeys, Proper;
    var base := if u.replace then Ordered([], map[]) else variables;
    assert Proper(base) by { EmptyIsProper(); }
    r := UpdateVariables(base, u.options);
    UpdateIs(base, u.options);
    if u.prepend {
      r := PrependNew(base, u.options, r);
    }
  }

  lemma EmptyIsProper()
    ensures Proper<Value>(Ordered([], map[]))
  {
  }

  method PrependNew(base: Ordered<Value>, o: Ordered<Value>, updated: Ordered<Value>) returns (r: Ordered<Value>)
    requires Proper(base) && Proper(o) && updated.keys == base.keys + NewKeys(o.keys, base.vals)
    ensures r == updated.(keys := NewKeys(o.keys, base.vals) + base.keys)
  {
    hide NewKeys, MoveFirst;
    var overwritten := base.vals.Keys * o.vals.Keys;
    var keys := o.keys;
    var j := |keys|;
    r := updated;
    NoNewKeys(base.vals);
    assert keys[..j] == keys && keys[j..] == [] && [] + base.keys == base.keys;
    while j > 0
      invariant 0 <= j <= |keys| && r.vals == updated.vals
      invariant r.keys == NewKeys(keys[j..], base.vals) + base.keys + NewKeys(keys[..j], base.vals)
    {
      var k := keys[j - 1];
      PrependStep(base, keys, j);
      if k !in overwritten {
        r := r.(keys := MoveFirst(r.keys, k));
      }
      j := j - 1;
    }
    assert keys[0..] == keys && keys[..0] == [];
  }

  lemma UpdateIs(a: Ordered<Value>, b: Ordered<Value>)
    ensures Update(a, b) == Ordered(a.keys + NewKeys(b.keys, a.vals), a.vals + b.vals)
  {
  }

  lemma NoNewKeys(prev: map<string, Value>)
    ensures NewKeys([], prev) == []
  {
  }

  /** One step of moving new variables to the front. */
  lemma PrependStep(base: Ordered<Value>, o: seq<string>, j: nat)
    requires Proper(base) && 0 < j <= |o| && Distinct(o)
    ensures var k := o[j - 1];
            var now, next := NewKeys(o[j..], base.vals) + base.keys + NewKeys(o[..j], base.vals),
                             NewKeys(o[j - 1..], base.vals) + base.keys + NewKeys(o[..j - 1], base.vals);
            next == if k in base.vals then now else MoveFirst(now, k)
  {
    hide NewKeys, Kept;
    var k := o[j - 1];
    var tail, front := o[j..], o[..j - 1];
    assert o[j - 1..] == [k] + tail && o[..j] == front + [k];
    NewKeysAppend([k], tail, base.vals);
    NewKeysAppend(front, [k], base.vals);
    NewKeysOne(k, base.vals);
    NewKeysAmong(tail, base.vals, k);
    NewKeysAmong(front, base.vals, k);
    var a, b, c := NewKeys(tail, base.vals), base.keys, NewKeys(front, base.vals);
    if k !in base.vals {
      MoveLast(a + b + c, k);
      assert a + b + (c + [k]) == (a + b + c) + [k];
      assert [k] + (a + b + c) == ([k] + a) + b + c;
    } else {
      assert [] + a == a && c + [] == c;
    }
  }

  /** The profile that is being merged. */
  class MergedProfile {
    var name: Option<string>
    var options: map<string, string>
    var units: Ordered<Unit>
    var variables: Ordered<Value>

    ghost function View(): Profile
      reads this
    {
      Profile(name, options, units, variables)
    }

    constructor ()
      ensures View() == EMPTY
    {
      name, options, units, variables := None, map[], Ordered([], map[]), Ordered([], map[]);
    }

    method AddUnit(n: string, u: Unit)
      requires Proper(variables) && Proper(u.options)
      modifies this`units, this`variables
      ensures View() == MergeUnit(old(View()), n, u)
    {
      if u.kind == "variables" {
        variables := MergeVariables(variables, u);
      } else if u.replace || n !in units.vals {
        units := Put(units, n, u);
      } else {
        var unit := units.vals[n];
        unit := unit.(kind := u.kind, enabled := u.enabled, devices := u.devices);
        unit := unit.(attrs := unit.attrs + u.attrs);
        var kept := DropOptions(unit.options, Dropped(u.drop));
        var updated := Update(kept, u.options);
        if n == "script" && "script" in kept.vals {
          updated := Put(updated, "script", Appended(kept.vals["script"], updated.vals["script"]));
        }
        units := Put(units, n, unit.(options := updated));
      }
    }

    /** `_merge_two`. */
    method Add(b: Profile)
      requires Proper(variables) && ProperProfile(b)
      modifies this
      ensures View() == MergeTwo(old(View()), b) && Proper(variables)
    {
      hide MergeUnit;
      if name.None? {
        name := b.name;
      }
      options := options + b.options;
      ghost var start := View();
      for k := 0 to |b.units.keys|
        invariant Proper(variables)
        invariant MergeUnits(start, b, 0) == MergeUnits(View(), b, k)
      {
        var n := b.units.keys[k];
        VariablesStayProper(View(), n, b.units.vals[n]);
        AddUnit(n, b.units.vals[n]);
      }
    }
  }

  ghost predicate ProperProfile(p: Profile) {
    Proper(p.units) && forall n :: n in p.units.vals ==> Proper(p.units.vals[n].options)
  }

  /** `merge`: reduce the profiles, oldest first. */
  method MergeAll(ps: seq<Profile>) returns (merged: MergedProfile)
    requires forall i :: 0 <= i < |ps| ==> Proper(ps[i].units) && ProperProfile(ps[i])
    ensures fresh(merged) && merged.View() == Merge(ps)
  {
    hide MergeTwo;
    merged := new MergedProfile();
    assert ps[..0] == [];
    for i := 0 to |ps|
      invariant fresh(merged) && Proper(merged.variables)
      invariant merged.View() == Merge(ps[..i])
    {
      merged.Add(ps[i]);
      assert ps[..i + 1][..i] == ps[..i];
    }
    assert ps[..|ps|] == ps;
  }

  lemma VariablesStayProper(p: Profile, n: string, u: Unit)
    requires Proper(p.variables) && Proper(u.options)
    ensures Proper(MergeUnit(p, n, u).variables)
  {
    if u.kind == "variables" { MergedVariablesProper(p.variables, u); }
  }

  lemma {:induction false} NewKeysDistinct(l: seq<string>, prev: map<string, Value>)
    requires Distinct(l)
    ensures Distinct(NewKeys(l, prev))
  {
    if l != [] {
      NewKeysDistinct(l[..|l| - 1], prev);
      NewKeysAmong(l[..|l| - 1], prev, l[|l| - 1]);
    }
  }

  /** Merged variables are listed once each, with the newer values. */
  lemma MergedVariablesProper(prev: Ordered<Value>, u: Unit)
    requires Proper(prev) && Proper(u.options)
    ensures Proper(MergedVariables(prev, u))
  {
    hide NewKeys, Distinct;
    var base := if u.replace then Ordered([], map[]) else prev;
    EmptyIsDistinct();
    var added := NewKeys(u.options.keys, base.vals);
    NewKeysDistinct(u.options.keys, base.vals);
    forall k ensures k in added <==> k in u.options.vals && k !in base.vals { NewKeysAmong(u.options.keys, base.vals, k); }
    JoinDistinct(base.keys, added);
    JoinDistinct(added, base.keys);
  }

  lemma EmptyIsDistinct()
    ensures Distinct([])
  {
  }

  lemma JoinDistinct(a: seq<string>, b: seq<string>)
    requires Distinct(a) && Distinct(b) && forall k :: k in a ==> k !in b
    ensures Distinct(a + b)
  {
    var c := a + b;
    forall i, j | 0 <= i < j < |c| ensures c[i] != c[j] {
      if i < |a| <= j { assert c[i] in a && c[j] in b; }
    }
  }
}
