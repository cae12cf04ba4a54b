/** What an explicit acquire does: which devices move, when the call succeeds, and when the priority
    order survives it (tuned/daemon/controller.py). */
module AcquireCalls {
  import opened Text
  import opened PluginModel
  import opened PluginInvariants
  import opened DeviceSystem
  import opened RollbackRuns
  import opened PriorityRuns

  /** Where the list, from position k on, first has an instance that has processed the device; the end of the
      list when there is none. */
  ghost function HolderAt(f: Fixed, sys: System, k: nat, d: Device): (h: nat)
    requires WellFormed(f, sys) && k <= |sys.refs|
    ensures k <= h <= |sys.refs|
    decreases |sys.refs| - k
  {
    if k == |sys.refs| || d in Processed(sys, sys.refs[k]) then k else HolderAt(f, sys, k + 1, d)
  }

  /** The first instance of the list, from position k on, that has processed the device. */
  ghost function FirstHolder(f: Fixed, sys: System, k: nat, d: Device): Option<Ref>
    requires WellFormed(f, sys) && k <= |sys.refs|
  {
    var h := HolderAt(f, sys, k, d);
    if h == |sys.refs| then None else Some(sys.refs[h])
  }

  /** The device can be taken by the target: its first holder is an instance of the target's plugin. */
  ghost predicate Takeable(f: Fixed, sys: System, k: nat, target: Ref, d: Device)
    requires WellFormed(f, sys) && k <= |sys.refs|
  {
    var h := FirstHolder(f, sys, k, d);
    h.Some? && h.value.plugin == target.plugin
  }

  /** The devices that the call moves: those whose first holder is of the target's plugin and comes before the
      first holder of any wanted device that is of another plugin. */
  ghost function Taken(f: Fixed, sys: System, k: nat, target: Ref, devs: set<Device>): set<Device>
    requires WellFormed(f, sys) && k <= |sys.refs|
  {
    set d | d in devs && Takes(f, sys, k, target, devs, d)
  }

  ghost predicate Takes(f: Fixed, sys: System, k: nat, target: Ref, devs: set<Device>, d: Device)
    requires WellFormed(f, sys) && k <= |sys.refs|
  {
    && Takeable(f, sys, k, target, d)
    && forall e :: e in devs && HolderAt(f, sys, k, e) < HolderAt(f, sys, k, d) ==> Takeable(f, sys, k, target, e)
  }

  /** The devices M went to instance n, and nothing else changed hands. */
  ghost predicate Moved(s: Plugin, t: Plugin, n: Name, M: set<Device>) {
    && SameInstances(s, t)
    && t.free == s.free
    && (forall m :: m in s.inst ==>
          && t.inst[m].pending == s.inst[m].pending
          && t.inst[m].processed == if m == n then s.inst[m].processed + M else s.inst[m].processed - M)
  }

  lemma {:induction false} HolderFrame(f: Fixed, sys: System, u: System, k: nat, d: Device)
    requires WellFormed(f, sys) && WellFormed(f, u) && u.refs == sys.refs && k <= |sys.refs|
    requires forall r :: r in sys.refs ==> (d in Processed(u, r) <==> d in Processed(sys, r))
    ensures HolderAt(f, u, k, d) == HolderAt(f, sys, k, d)
    decreases |sys.refs| - k
  {
    hide Ordered;
    if k < |sys.refs| && d !in Processed(sys, sys.refs[k]) {
      HolderFrame(f, sys, u, k + 1, d);
    }
  }

  lemma MovedOnce(cfg: Config, s: Plugin, a: Name, b: Name, D: set<Device>)
    requires a in s.inst && b in s.inst && D <= s.inst[a].processed && Owned(s)
    ensures Moved(s, Move(cfg, s, a, b, D), b, D)
  {
    hide Move;
    MoveDevices(cfg, s, a, b, D);
    forall m | m in s.inst && m != a ensures s.inst[m].processed !! D {
      assert Devices(s.inst[m]) !! Devices(s.inst[a]);
    }
  }

  lemma MovedTwice(s: Plugin, t: Plugin, u: Plugin, n: Name, D: set<Device>, M: set<Device>)
    requires n in s.inst && Moved(s, t, n, D) && Moved(t, u, n, M)
    ensures Moved(s, u, n, D + M)
  {
  }

  /** The step of the loop that moves devices leaves the holders of the devices still wanted alone. */
  lemma MoveKeepsHolders(f: Fixed, sys: System, k: nat, target: Ref, moving: set<Device>, d: Device)
    requires WellFormed(f, sys) && k < |sys.refs| && target in sys.refs && sys.refs[k].plugin == target.plugin
    requires Owned(sys.plugins[target.plugin]) && moving <= Processed(sys, sys.refs[k]) && d !in moving
    ensures WellFormed(f, MoveIn(f, sys, target.plugin, sys.refs[k].name, target.name, moving))
    ensures HolderAt(f, MoveIn(f, sys, target.plugin, sys.refs[k].name, target.name, moving), k + 1, d) ==
            HolderAt(f, sys, k + 1, d)
  {
    hide Move, Ordered, Owned;
    var p, r := target.plugin, sys.refs[k];
    MoveWellFormed(f, sys, p, r.name, target.name, moving);
    MovedOnce(f.cfg[p], sys.plugins[p], r.name, target.name, moving);
    var u := MoveIn(f, sys, p, r.name, target.name, moving);
    forall q | q in sys.refs ensures d in Processed(u, q) <==> d in Processed(sys, q) {
      assert Listed(sys, q) && Listed(u, q);
    }
    HolderFrame(f, sys, u, k + 1, d);
  }

  /** After an instance of the same plugin gave its wanted devices, the others can be taken as before. */
  lemma TakeableAfterMove(f: Fixed, sys: System, k: nat, target: Ref, devs: set<Device>)
    requires WellFormed(f, sys) && k < |sys.refs| && target in sys.refs && sys.refs[k].plugin == target.plugin
    requires Owned(sys.plugins[target.plugin])
    ensures var moving := Processed(sys, sys.refs[k]) * devs;
            var u := MoveIn(f, sys, target.plugin, sys.refs[k].name, target.name, moving);
            && WellFormed(f, u) && u.refs == sys.refs
            && ((forall d :: d in devs ==> Takeable(f, sys, k, target, d)) <==>
                (forall d :: d in devs - moving ==> Takeable(f, u, k + 1, target, d)))
  {
    hide MoveIn, Ordered, Owned;
    var moving := Processed(sys, sys.refs[k]) * devs;
    MoveWellFormed(f, sys, target.plugin, sys.refs[k].name, target.name, moving);
    var u := MoveIn(f, sys, target.plugin, sys.refs[k].name, target.name, moving);
    forall d | d in devs ensures Takeable(f, sys, k, target, d) <==> d in moving || Takeable(f, u, k + 1, target, d) {
      if d !in moving { MoveKeepsHolders(f, sys, k, target, moving, d); }
    }
    hide Takeable;
    if forall d :: d in devs - moving ==> Takeable(f, u, k + 1, target, d) {
      forall d | d in devs ensures Takeable(f, sys, k, target, d) {
        if d !in moving { assert d in devs - moving; }
      }
    }
  }

  /** The loop succeeds exactly when every wanted device can be taken. */
  lemma {:induction false} AcquireFromDoneIff(f: Fixed, sys: System, k: nat, target: Ref, devs: set<Device>, orig: Originals)
    requires SysInv(f, sys, orig) && k <= |sys.refs| && target in sys.refs
    ensures AcquireFrom(f, sys, k, target, devs).1 == Done <==> forall d :: d in devs ==> Takeable(f, sys, k, target, d)
    decreases |sys.refs| - k
  {
    hide Move, Ordered, Owned, Saved;
    if k == |sys.refs| {
      if devs != {} {
        var d :| d in devs;
        assert !Takeable(f, sys, k, target, d);
      }
    } else {
      var r := sys.refs[k];
      assert Listed(sys, r) && Listed(sys, target);
      var moving := Processed(sys, r) * devs;
      if moving == {} {
        AcquireFromDoneIff(f, sys, k + 1, target, devs, orig);
        forall d | d in devs ensures Takeable(f, sys, k, target, d) <==> Takeable(f, sys, k + 1, target, d) {
          assert d !in moving;
        }
      } else if r.plugin != target.plugin {
        var d :| d in moving;
        assert !Takeable(f, sys, k, target, d);
      } else {
        hide Takeable;
        TakeableAfterMove(f, sys, k, target, devs);
        MoveInInv(f, sys, r.plugin, r.name, target.name, moving, orig);
        AcquireFromDoneIff(f, MoveIn(f, sys, r.plugin, r.name, target.name, moving), k + 1, target, devs - moving, orig);
      }
    }
  }

  /** Nothing is moved from an instance without wanted devices. */
  lemma TakenSkips(f: Fixed, sys: System, k: nat, target: Ref, devs: set<Device>)
    requires WellFormed(f, sys) && k < |sys.refs| && Processed(sys, sys.refs[k]) * devs == {}
    ensures Taken(f, sys, k, target, devs) == Taken(f, sys, k + 1, target, devs)
  {
    hide Ordered;
    forall d | d in devs ensures HolderAt(f, sys, k, d) == HolderAt(f, sys, k + 1, d) {
      assert d !in Processed(sys, sys.refs[k]) * devs;
    }
  }

  /** Nothing is moved once an instance of another plugin has a wanted device. */
  lemma TakenStops(f: Fixed, sys: System, k: nat, target: Ref, devs: set<Device>)
    requires WellFormed(f, sys) && k < |sys.refs| && Processed(sys, sys.refs[k]) * devs != {}
    requires sys.refs[k].plugin != target.plugin
    ensures Taken(f, sys, k, target, devs) == {}
  {
    hide Ordered;
    var e :| e in Processed(sys, sys.refs[k]) * devs;
    assert HolderAt(f, sys, k, e) == k && !Takeable(f, sys, k, target, e);
  }

  /** The devices of an instance of the same plugin are moved, then the others. */
  lemma TakenMoves(f: Fixed, sys: System, k: nat, target: Ref, devs: set<Device>)
    requires WellFormed(f, sys) && k < |sys.refs| && target in sys.refs && sys.refs[k].plugin == target.plugin
    requires Owned(sys.plugins[target.plugin])
    ensures var moving := Processed(sys, sys.refs[k]) * devs;
            var u := MoveIn(f, sys, target.plugin, sys.refs[k].name, target.name, moving);
            && WellFormed(f, u) && u.refs == sys.refs
            && Taken(f, sys, k, target, devs) == moving + Taken(f, u, k + 1, target, devs - moving)
  {
    hide MoveIn, Ordered, Owned;
    var moving := Processed(sys, sys.refs[k]) * devs;
    MoveWellFormed(f, sys, target.plugin, sys.refs[k].name, target.name, moving);
    var u := MoveIn(f, sys, target.plugin, sys.refs[k].name, target.name, moving);
    forall d | d in devs - moving
      ensures HolderAt(f, sys, k, d) == HolderAt(f, u, k + 1, d)
      ensures Takeable(f, sys, k, target, d) <==> Takeable(f, u, k + 1, target, d)
    {
      MoveKeepsHolders(f, sys, k, target, moving, d);
    }
    forall d | d in moving ensures HolderAt(f, sys, k, d) == k && Takeable(f, sys, k, target, d) {
    }
    hide HolderAt, Takeable;
    forall d | d in devs - moving ensures Takes(f, sys, k, target, devs, d) <==> Takes(f, u, k + 1, target, devs - moving, d) {
    }
  }

  /** The loop moves exactly those devices to the target, whether it succeeds or not; no other device changes
      hands and no other plugin changes. */
  lemma {:induction false} AcquireFromMoves(f: Fixed, sys: System, k: nat, target: Ref, devs: set<Device>, orig: Originals)
    requires SysInv(f, sys, orig) && k <= |sys.refs| && target in sys.refs
    ensures var t := AcquireFrom(f, sys, k, target, devs).0;
            && t.refs == sys.refs && t.plugins.Keys == sys.plugins.Keys
            && (forall p :: p in sys.plugins && p != target.plugin ==> t.plugins[p] == sys.plugins[p])
            && Moved(sys.plugins[target.plugin], t.plugins[target.plugin], target.name, Taken(f, sys, k, target, devs))
    decreases |sys.refs| - k
  {
    hide Move, Ordered, Owned, Saved, Taken;
    assert Listed(sys, target);
    if k == |sys.refs| {
      NoneTaken(f, sys, target, devs);
    } else {
      var r := sys.refs[k];
      assert Listed(sys, r);
      var moving := Processed(sys, r) * devs;
      if moving == {} {
        TakenSkips(f, sys, k, target, devs);
        AcquireFromMoves(f, sys, k + 1, target, devs, orig);
      } else if r.plugin != target.plugin {
        TakenStops(f, sys, k, target, devs);
      } else {
        AcquireFromMovesOn(f, sys, k, target, devs, orig);
      }
    }
  }

  lemma NoneTaken(f: Fixed, sys: System, target: Ref, devs: set<Device>)
    requires WellFormed(f, sys)
    ensures Taken(f, sys, |sys.refs|, target, devs) == {}
  {
  }

  lemma {:induction false} AcquireFromMovesOn(f: Fixed, sys: System, k: nat, target: Ref, devs: set<Device>, orig: Originals)
    requires SysInv(f, sys, orig) && k < |sys.refs| && target in sys.refs && sys.refs[k].plugin == target.plugin
    requires Processed(sys, sys.refs[k]) * devs != {}
    ensures var t := AcquireFrom(f, sys, k, target, devs).0;
            && t.refs == sys.refs && t.plugins.Keys == sys.plugins.Keys
            && (forall p :: p in sys.plugins && p != target.plugin ==> t.plugins[p] == sys.plugins[p])
            && Moved(sys.plugins[target.plugin], t.plugins[target.plugin], target.name, Taken(f, sys, k, target, devs))
    decreases |sys.refs| - k, 0
  {
    hide Move, Ordered, Owned, Saved, Taken, Moved;
    var r, p := sys.refs[k], target.plugin;
    assert Listed(sys, r) && Listed(sys, target);
    var moving := Processed(sys, r) * devs;
    var u := MoveIn(f, sys, p, r.name, target.name, moving);
    TakenMoves(f, sys, k, target, devs);
    MoveInInv(f, sys, p, r.name, target.name, moving, orig);
    MovedOnce(f.cfg[p], sys.plugins[p], r.name, target.name, moving);
    AcquireFromMoves(f, u, k + 1, target, devs - moving, orig);
    MovedTwice(sys.plugins[p], u.plugins[p], AcquireFrom(f, u, k + 1, target, devs - moving).0.plugins[p],
               target.name, moving, Taken(f, u, k + 1, target, devs - moving));
  }

  lemma AllTaken(f: Fixed, sys: System, k: nat, target: Ref, devs: set<Device>)
    requires WellFormed(f, sys) && k <= |sys.refs| && forall d :: d in devs ==> Takeable(f, sys, k, target, d)
    ensures Taken(f, sys, k, target, devs) == devs
  {
    hide Takeable, HolderAt, Ordered;
  }

  /** The call reaches the loop. */
  ghost predicate Acquires(f: Fixed, sys: System, name: Name) {
    FindName(sys.refs, name).Some? && FindName(sys.refs, name).value.plugin in f.hotplug
  }

  /** Main result: an acquire call succeeds exactly when the instance exists, its plugin supports
      hot-plugging and every requested device is held first by an instance of that plugin. Then every
      requested device ends up in the target. Failing or not, exactly the devices of `Taken` change hands. */
  lemma AcquireMoves(f: Fixed, sys: System, devs: set<Device>, name: Name, orig: Originals)
    requires SysInv(f, sys, orig)
    ensures var (t, o) := Acquire(f, sys, devs, name);
            && (!Acquires(f, sys, name) ==> t == sys && o != Done)
            && (Acquires(f, sys, name) ==>
                  var target := FindName(sys.refs, name).value;
                  var p, M := target.plugin, Taken(f, sys, 0, target, devs);
                  && (o == Done <==> forall d :: d in devs ==> Takeable(f, sys, 0, target, d))
                  && (o == Done ==> M == devs)
                  && t.refs == sys.refs && t.plugins.Keys == sys.plugins.Keys && p in sys.plugins
                  && (forall q :: q in sys.plugins && q != p ==> t.plugins[q] == sys.plugins[q])
                  && name in sys.plugins[p].inst && Moved(sys.plugins[p], t.plugins[p], name, M))
  {
    hide AcquireFrom, Moved, Takeable, Inv, Ordered, Taken;
    FindNameListed(sys.refs, name);
    if Acquires(f, sys, name) {
      var target := FindName(sys.refs, name).value;
      AcquireFromDoneIff(f, sys, 0, target, devs, orig);
      AcquireFromMoves(f, sys, 0, target, devs, orig);
      assert Listed(sys, target);
      if forall d :: d in devs ==> Takeable(f, sys, 0, target, d) { AllTaken(f, sys, 0, target, devs); }
    }
  }

  /** A move keeps the priority order of a plugin exactly when the target is a best instance for each device
      moved. */
  lemma MovedBestIff(cfg: Config, s: Plugin, t: Plugin, n: Name, M: set<Device>)
    requires n in s.inst && Moved(s, t, n, M) && Settled(s) && Best(cfg, s)
    ensures Settled(t)
    ensures Best(cfg, t) <==> forall d :: d in M ==> BestFor(cfg, s, n, d)
  {
    forall m, d | m in s.inst
      ensures BestFor(cfg, t, m, d) <==> BestFor(cfg, s, m, d)
      ensures Wants(cfg, t, m, d) <==> Wants(cfg, s, m, d)
    {
      SameBestFor(cfg, s, t, m, d);
    }
    if forall d :: d in M ==> BestFor(cfg, s, n, d) {
      forall m, d | m in t.inst && d in Devices(t.inst[m]) ensures BestFor(cfg, t, m, d) {
        if m != n || d !in M {
          assert d in Devices(s.inst[m]);
        }
      }
    } else {
      var d :| d in M && !BestFor(cfg, s, n, d);
      assert d in Devices(t.inst[n]);
    }
  }

  /** Main result: an acquire call keeps the priority order of the whole system exactly when the target is a
      best instance for each device that the call moves: every requested device if it succeeds, those of
      `Taken` if it fails. */
  lemma AcquireBestIff(f: Fixed, sys: System, devs: set<Device>, name: Name, orig: Originals)
    requires SysInv(f, sys, orig) && SysBest(f, sys)
    ensures var (t, o) := Acquire(f, sys, devs, name);
            && t.plugins.Keys == f.cfg.Keys
            && (!Acquires(f, sys, name) ==> SysBest(f, t))
            && (Acquires(f, sys, name) ==>
                  var target := FindName(sys.refs, name).value;
                  var p, M := target.plugin, Taken(f, sys, 0, target, devs);
                  && p in sys.plugins && name in sys.plugins[p].inst && (o == Done ==> M == devs)
                  && (SysBest(f, t) <==> forall d :: d in M ==> BestFor(f.cfg[p], sys.plugins[p], name, d)))
  {
    hide Acquire, Moved, Settled, Best, BestFor, Inv, Ordered, Taken, Takeable;
    AcquireMoves(f, sys, devs, name, orig);
    if Acquires(f, sys, name) {
      var t := Acquire(f, sys, devs, name).0;
      var target := FindName(sys.refs, name).value;
      var p := target.plugin;
      MovedBestIff(f.cfg[p], sys.plugins[p], t.plugins[p], name, Taken(f, sys, 0, target, devs));
    }
  }

  /** The first holder of the device is of another plugin than the target. */
  ghost predicate Foreign(f: Fixed, sys: System, k: nat, target: Ref, d: Device)
    requires WellFormed(f, sys) && k <= |sys.refs|
  {
    var h := FirstHolder(f, sys, k, d);
    h.Some? && h.value.plugin != target.plugin
  }

  lemma {:induction false} AcquireFromWrongIff(f: Fixed, sys: System, k: nat, target: Ref, devs: set<Device>, orig: Originals)
    requires SysInv(f, sys, orig) && k <= |sys.refs| && target in sys.refs
    ensures AcquireFrom(f, sys, k, target, devs).1 == WrongType <==> exists d :: d in devs && Foreign(f, sys, k, target, d)
    ensures AcquireFrom(f, sys, k, target, devs).1 in {Done, Leftover, WrongType}
    decreases |sys.refs| - k
  {
    hide Move, Ordered, Owned, Saved;
    if k < |sys.refs| {
      var r := sys.refs[k];
      assert Listed(sys, r) && Listed(sys, target);
      var moving := Processed(sys, r) * devs;
      if moving == {} {
        AcquireFromWrongIff(f, sys, k + 1, target, devs, orig);
        forall d | d in devs ensures Foreign(f, sys, k, target, d) <==> Foreign(f, sys, k + 1, target, d) {
          assert d !in moving;
        }
      } else if r.plugin != target.plugin {
        var d :| d in moving;
        assert Foreign(f, sys, k, target, d);
      } else {
        var u := MoveIn(f, sys, r.plugin, r.name, target.name, moving);
        MoveWellFormed(f, sys, r.plugin, r.name, target.name, moving);
        MoveInInv(f, sys, r.plugin, r.name, target.name, moving, orig);
        AcquireFromWrongIff(f, u, k + 1, target, devs - moving, orig);
        ForeignAfterMove(f, sys, k, target, devs);
      }
    }
  }

  lemma ForeignAfterMove(f: Fixed, sys: System, k: nat, target: Ref, devs: set<Device>)
    requires WellFormed(f, sys) && k < |sys.refs| && target in sys.refs && sys.refs[k].plugin == target.plugin
    requires Owned(sys.plugins[target.plugin])
    ensures var moving := Processed(sys, sys.refs[k]) * devs;
            var u := MoveIn(f, sys, target.plugin, sys.refs[k].name, target.name, moving);
            && WellFormed(f, u) && u.refs == sys.refs
            && ((exists d :: d in devs && Foreign(f, sys, k, target, d)) <==>
                (exists d :: d in devs - moving && Foreign(f, u, k + 1, target, d)))
  {
    hide MoveIn, Ordered, Owned;
    var moving := Processed(sys, sys.refs[k]) * devs;
    MoveWellFormed(f, sys, target.plugin, sys.refs[k].name, target.name, moving);
    var u := MoveIn(f, sys, target.plugin, sys.refs[k].name, target.name, moving);
    forall d | d in devs ensures Foreign(f, sys, k, target, d) <==> d !in moving && Foreign(f, u, k + 1, target, d) {
      if d !in moving { MoveKeepsHolders(f, sys, k, target, moving, d); }
    }
    hide Foreign;
    if d :| d in devs && Foreign(f, sys, k, target, d) {
      assert d in devs - moving;
    }
  }

  /** How an acquire call answers: there is no such instance, its plugin does not support hot-plugging, some device is
      held first by another plugin, or some device is held by nobody. */
  lemma AcquireOutcome(f: Fixed, sys: System, devs: set<Device>, name: Name, orig: Originals)
    requires SysInv(f, sys, orig)
    ensures var o := Acquire(f, sys, devs, name).1;
            var found := FindName(sys.refs, name);
            o == if found.None? then NotFound
                 else if found.value.plugin !in f.hotplug then NotHotplug
                 else if exists d :: d in devs && Foreign(f, sys, 0, found.value, d) then WrongType
                 else if exists d :: d in devs && FirstHolder(f, sys, 0, d).None? then Leftover
                 else Done
  {
    hide AcquireFrom, Inv, Ordered, FirstHolder;
    FindNameListed(sys.refs, name);
    if Acquires(f, sys, name) {
      var target := FindName(sys.refs, name).value;
      AcquireFromDoneIff(f, sys, 0, target, devs, orig);
      AcquireFromWrongIff(f, sys, 0, target, devs, orig);
    }
  }

  // ----- An acquire that breaks the order -----

  /** One plugin that supports hot-plugging and matches every device by the expression "all". */
  ghost function ExampleFixed(p: PluginName): Fixed {
    Fixed(map[p := Config([], (expression: string, d: Device) => expression == "all")], {p})
  }

  /** Instance `a` wants every device and has tuned the device d; instance `b` wants none. */
  ghost function ExamplePlugin(a: Name, b: Name, d: Device): Plugin {
    Plugin({}, {d}, [a, b],
           map[a := Instance(0, "all", map[], true, {}, {d}), b := Instance(0, "none", map[], false, {}, {})],
           map[], map[])
  }

  ghost function ExampleSystem(p: PluginName, a: Name, b: Name, d: Device): System {
    System(map[p := ExamplePlugin(a, b, d)], [Ref(p, a), Ref(p, b)])
  }

  lemma ExampleOwned(a: Name, b: Name, d: Device)
    requires a != b
    ensures Owned(ExamplePlugin(a, b, d))
  {
    assert d in Devices(ExamplePlugin(a, b, d).inst[a]);
  }

  lemma ExampleOrdered(a: Name, b: Name, d: Device)
    requires a != b
    ensures Ordered(ExamplePlugin(a, b, d))
  {
    var order := ExamplePlugin(a, b, d).order;
    assert order[0] == a && order[1] == b;
  }

  lemma ExampleBest(p: PluginName, a: Name, b: Name, d: Device)
    requires a != b
    ensures var cfg, s := ExampleFixed(p).cfg[p], ExamplePlugin(a, b, d);
            Saved(cfg, s, map[]) && Settled(s) && Best(cfg, s)
  {
  }

  lemma ExampleInv(p: PluginName, a: Name, b: Name, d: Device)
    requires a != b
    ensures SysInv(ExampleFixed(p), ExampleSystem(p, a, b, d), map[p := map[]])
    ensures SysBest(ExampleFixed(p), ExampleSystem(p, a, b, d))
  {
    hide Owned, Ordered, Saved, Settled, Best;
    ExampleOwned(a, b, d);
    ExampleOrdered(a, b, d);
    ExampleBest(p, a, b, d);
    var sys := ExampleSystem(p, a, b, d);
    assert sys.refs[0] == Ref(p, a) && sys.refs[1] == Ref(p, b);
  }

  /** Acquiring the device for the instance that does not want it succeeds and breaks the order. */
  lemma AcquireCanBreakPriority(p: PluginName, a: Name, b: Name, d: Device)
    requires a != b
    ensures var f, sys := ExampleFixed(p), ExampleSystem(p, a, b, d);
            && WellFormed(f, sys) && SysBest(f, sys)
            && Acquire(f, sys, {d}, b).1 == Done
            && Acquire(f, sys, {d}, b).0.plugins.Keys == f.cfg.Keys && !SysBest(f, Acquire(f, sys, {d}, b).0)
  {
    hide SysInv, SysBest, Acquire, Taken, Takeable, Moved, BestFor, FindName, Acquires;
    var f, sys := ExampleFixed(p), ExampleSystem(p, a, b, d);
    ExampleInv(p, a, b, d);
    ExampleCall(p, a, b, d);
    AcquireMoves(f, sys, {d}, b, map[p := map[]]);
    AcquireBestIff(f, sys, {d}, b, map[p := map[]]);
  }

  lemma ExampleCall(p: PluginName, a: Name, b: Name, d: Device)
    requires a != b && WellFormed(ExampleFixed(p), ExampleSystem(p, a, b, d))
    ensures var f, sys := ExampleFixed(p), ExampleSystem(p, a, b, d);
            && FindName(sys.refs, b) == Some(Ref(p, b)) && Acquires(f, sys, b)
            && Takeable(f, sys, 0, Ref(p, b), d) && !BestFor(f.cfg[p], sys.plugins[p], b, d)
  {
    hide WellFormed;
    var f, sys := ExampleFixed(p), ExampleSystem(p, a, b, d);
    assert sys.refs[1..] == [Ref(p, b)];
    assert sys.refs[0] == Ref(p, a) && d in Processed(sys, Ref(p, a));
  }
}
