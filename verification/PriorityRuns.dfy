/** Which instance owns a device: start-up and every event but an explicit acquire keep each device with
    a matching instance of the best priority, and leave no device free that an instance wants. */
module PriorityRuns {
  import opened Text
  import opened PluginModel
  import opened PluginInvariants
  import opened DeviceSystem
  import opened RollbackRuns
  import opened DeviceRuns

  ghost predicate Wants(cfg: Config, s: Plugin, n: Name, d: Device)
    requires n in s.inst
  {
    cfg.matches(s.inst[n].expression, d)
  }

  /** Instance n matches the device and no matching instance has a strictly smaller priority number. */
  ghost predicate BestFor(cfg: Config, s: Plugin, n: Name, d: Device)
    requires n in s.inst
  {
    Wants(cfg, s, n, d) &&
    forall m :: m in s.inst && Wants(cfg, s, m, d) ==> s.inst[n].priority <= s.inst[m].priority
  }

  ghost predicate Settled(s: Plugin) {
    forall n :: n in s.inst ==> s.inst[n].pending == {}
  }

  ghost predicate Best(cfg: Config, s: Plugin) {
    && (forall d, n :: d in s.free && n in s.inst ==> !Wants(cfg, s, n, d))
    && (forall n, d :: n in s.inst && d in Devices(s.inst[n]) ==> BestFor(cfg, s, n, d))
  }

  ghost predicate SysBest(f: Fixed, sys: System)
    requires sys.plugins.Keys == f.cfg.Keys
  {
    forall p :: p in sys.plugins ==> Settled(sys.plugins[p]) && Best(f.cfg[p], sys.plugins[p])
  }

  lemma SameBestFor(cfg: Config, s: Plugin, t: Plugin, n: Name, d: Device)
    requires SameInstances(s, t) && n in s.inst
    ensures BestFor(cfg, t, n, d) <==> BestFor(cfg, s, n, d)
    ensures Wants(cfg, t, n, d) <==> Wants(cfg, s, n, d)
  {
    assert forall m :: m in s.inst ==> (Wants(cfg, s, m, d) <==> Wants(cfg, t, m, d));
  }

  // ----- Hot-plug -----

  lemma {:induction false} FirstMatchBest(cfg: Config, s: Plugin, order: seq<Name>, d: Device)
    requires (forall n :: n in order ==> n in s.inst) && ByPriority(order, s.inst)
    ensures var r := FirstMatch(cfg, s, order, d);
            r.Some? ==>
              && r.value in order
              && forall m :: m in order && Wants(cfg, s, m, d) ==> s.inst[r.value].priority <= s.inst[m].priority
  {
    if order != [] {
      if !Wants(cfg, s, order[0], d) {
        FirstMatchBest(cfg, s, order[1..], d);
      } else {
        assert forall m :: m in order ==> s.inst[order[0]].priority <= s.inst[m].priority;
      }
    }
  }

  lemma AddDeviceBest(cfg: Config, s: Plugin, d: Device)
    requires Ordered(s) && Settled(s) && Best(cfg, s)
    ensures var t := AddDevice(cfg, s, d); Settled(t) && Best(cfg, t)
  {
    hide TuneKnobs, TuneStore;
    if d !in s.claimed + s.free {
      FirstMatchListed(cfg, s, s.order, d);
      FirstMatchBest(cfg, s, s.order, d);
      EventsKeepInstances(cfg, s, d);
      var t := AddDevice(cfg, s, d);
      forall n, e | n in t.inst && e in Devices(t.inst[n]) ensures BestFor(cfg, t, n, e) {
        SameBestFor(cfg, s, t, n, e);
      }
      forall e, n | e in t.free && n in t.inst ensures !Wants(cfg, t, n, e) {
        SameBestFor(cfg, s, t, n, e);
      }
    }
  }

  /** Taking devices away keeps the order. */
  lemma ShrinkBest(cfg: Config, s: Plugin, t: Plugin)
    requires SameInstances(s, t) && Settled(s) && Best(cfg, s) && t.free <= s.free
    requires forall n :: n in s.inst ==> t.inst[n].pending == {} && t.inst[n].processed <= s.inst[n].processed
    ensures Settled(t) && Best(cfg, t)
  {
    forall n, e | n in t.inst && e in Devices(t.inst[n]) ensures BestFor(cfg, t, n, e) {
      SameBestFor(cfg, s, t, n, e);
      assert e in Devices(s.inst[n]);
    }
    forall e, n | e in t.free && n in t.inst ensures !Wants(cfg, t, n, e) {
      SameBestFor(cfg, s, t, n, e);
    }
  }

  lemma RemoveDeviceBest(cfg: Config, s: Plugin, d: Device)
    requires Ordered(s) && Settled(s) && Best(cfg, s)
    ensures var t := RemoveDevice(cfg, s, d); Settled(t) && Best(cfg, t)
  {
    hide UntuneKnobs, UntuneStore, FirstOwner, Best;
    EventsKeepInstances(cfg, s, d);
    FirstOwnerListed(s, s.order, d);
    ShrinkBest(cfg, s, RemoveDevice(cfg, s, d));
  }

  // ----- Creation -----

  /** Best for every device among the instances other than n, and n is best for what it has. */
  ghost predicate BestBut(cfg: Config, s: Plugin, n: Name)
    requires n in s.inst
  {
    && (forall d, m :: d in s.free && m in s.inst ==> !Wants(cfg, s, m, d))
    && (forall d :: d in Devices(s.inst[n]) ==> BestFor(cfg, s, n, d))
    && (forall o, d :: o in s.inst && o != n && d in Devices(s.inst[o]) ==>
          Wants(cfg, s, o, d) &&
          forall m :: m in s.inst && m != n && Wants(cfg, s, m, d) ==> s.inst[o].priority <= s.inst[m].priority)
  }

  /** Instance o holds nothing that instance n would take over. */
  ghost predicate Cleared(cfg: Config, s: Plugin, n: Name, o: Name)
    requires n in s.inst && o in s.inst
  {
    forall d :: d in s.inst[o].processed && Wants(cfg, s, n, d) ==> s.inst[o].priority < s.inst[n].priority
  }

  /** The new instance has the free devices it matches, and the others are as they were. */
  lemma CreatedShape(cfg: Config, s: Plugin, n: Name, priority: int, expression: string, options: map<Command, Value>)
    requires OrderListed(s) && n !in s.inst
    ensures var t := Created(cfg, s, n, priority, expression, options);
            var D := Matching(cfg, Instance(priority, expression, options, true, {}, {}), s.free);
            && t.inst == s.inst[n := Instance(priority, expression, options, D != {}, {}, D)]
            && t.free == s.free - D
  {
    hide TuneKnobs, TuneStore, InsertByPriority, Matching;
    var D := Matching(cfg, Instance(priority, expression, options, true, {}, {}), s.free);
    var c := CreateInstance(s, n, priority, expression, options);
    SameMatching(cfg, c.inst[n], Instance(priority, expression, options, true, {}, {}), s.free);
    assert {} + D == D;
  }

  lemma SameMatching(cfg: Config, i: Instance, j: Instance, D: set<Device>)
    requires i.expression == j.expression
    ensures Matching(cfg, i, D) == Matching(cfg, j, D)
  {
  }

  lemma CreatedBest(cfg: Config, s: Plugin, n: Name, priority: int, expression: string, options: map<Command, Value>)
    requires Ordered(s) && n !in s.inst && Settled(s) && Best(cfg, s)
    ensures var t := Created(cfg, s, n, priority, expression, options); Settled(t) && BestBut(cfg, t, n)
  {
    hide Created, Distinct, ByPriority;
    CreatedShape(cfg, s, n, priority, expression, options);
    var t := Created(cfg, s, n, priority, expression, options);
    assert forall m, d :: m in s.inst ==> (Wants(cfg, t, m, d) <==> Wants(cfg, s, m, d));
    forall d | d in Devices(t.inst[n]) ensures BestFor(cfg, t, n, d) {
      assert forall m :: m in s.inst ==> !Wants(cfg, s, m, d);
    }
    forall o, d | o in t.inst && o != n && d in Devices(t.inst[o])
      ensures Wants(cfg, t, o, d)
      ensures forall m :: m in t.inst && m != n && Wants(cfg, t, m, d) ==> t.inst[o].priority <= t.inst[m].priority
    {
      assert BestFor(cfg, s, o, d);
    }
  }

  lemma MoveDevices(cfg: Config, s: Plugin, a: Name, b: Name, D: set<Device>)
    requires a in s.inst && b in s.inst && D <= s.inst[a].processed
    ensures var t := Move(cfg, s, a, b, D);
            && SameInstances(s, t) && t.free == s.free
            && forall n :: n in s.inst ==>
                 t.inst[n].pending == s.inst[n].pending &&
                 t.inst[n].processed == if n == b then s.inst[n].processed + D
                                        else if n == a then s.inst[n].processed - D else s.inst[n].processed
  {
    hide TuneKnobs, TuneStore, UntuneKnobs, UntuneStore;
    MoveKeepsInstances(cfg, s, a, b, D);
    assert D * s.inst[a].processed == D;
  }

  /** Taking over matching devices from an instance of equal or worse priority. */
  lemma TakeOverBest(cfg: Config, s: Plugin, o: Name, n: Name)
    requires o in s.inst && n in s.inst && o != n && s.inst[n].priority <= s.inst[o].priority
    requires Settled(s) && BestBut(cfg, s, n)
    ensures var t := Move(cfg, s, o, n, Matching(cfg, s.inst[n], s.inst[o].processed));
            && Settled(t) && BestBut(cfg, t, n) && Cleared(cfg, t, n, o)
            && forall q :: q in s.inst && q != n && Cleared(cfg, s, n, q) ==> Cleared(cfg, t, n, q)
  {
    hide Move;
    var D := Matching(cfg, s.inst[n], s.inst[o].processed);
    MoveDevices(cfg, s, o, n, D);
    var t := Move(cfg, s, o, n, D);
    assert forall m, d :: m in s.inst ==> (Wants(cfg, t, m, d) <==> Wants(cfg, s, m, d));
    forall d | d in Devices(t.inst[n]) ensures BestFor(cfg, t, n, d) {
      if d in D {
        assert d in Devices(s.inst[o]);
      } else {
        assert BestFor(cfg, s, n, d);
      }
    }
  }

  /** The loop of a creation has cleared the listed instances before position k. */
  ghost predicate Progress(f: Fixed, sys: System, k: nat, target: Ref)
    requires WellFormed(f, sys) && k <= |sys.refs| && target in sys.refs
  {
    && Settled(sys.plugins[target.plugin]) && BestBut(f.cfg[target.plugin], sys.plugins[target.plugin], target.name)
    && forall i :: 0 <= i < k && sys.refs[i] != target && sys.refs[i].plugin == target.plugin ==>
         Listed(sys, sys.refs[i]) &&
         Cleared(f.cfg[target.plugin], sys.plugins[target.plugin], target.name, sys.refs[i].name)
  }

  lemma ProgressSkips(f: Fixed, sys: System, k: nat, target: Ref)
    requires WellFormed(f, sys) && k < |sys.refs| && target in sys.refs && Progress(f, sys, k, target)
    requires var r := sys.refs[k];
             r == target || r.plugin != target.plugin ||
             (Listed(sys, r) && Listed(sys, target) &&
              var s := sys.plugins[target.plugin];
              s.inst[target.name].priority > s.inst[r.name].priority ||
              Matching(f.cfg[target.plugin], s.inst[target.name], s.inst[r.name].processed) == {})
    ensures Progress(f, sys, k + 1, target)
  {
    hide Ordered, BestBut, Matching, Cleared, Settled;
    var r := sys.refs[k];
    if r != target && r.plugin == target.plugin {
      NothingToMove(f.cfg[target.plugin], sys.plugins[target.plugin], target.name, r.name);
    }
  }

  lemma ProgressTakes(f: Fixed, sys: System, k: nat, target: Ref)
    requires WellFormed(f, sys) && k < |sys.refs| && target in sys.refs && Progress(f, sys, k, target)
    requires var r := sys.refs[k];
             && r != target && r.plugin == target.plugin && Listed(sys, r) && Listed(sys, target)
             && sys.plugins[r.plugin].inst[target.name].priority <= sys.plugins[r.plugin].inst[r.name].priority
    ensures var r := sys.refs[k];
            var s := sys.plugins[r.plugin];
            var u := MoveIn(f, sys, r.plugin, r.name, target.name,
                            Matching(f.cfg[r.plugin], s.inst[target.name], s.inst[r.name].processed));
            WellFormed(f, u) && u.refs == sys.refs && Progress(f, u, k + 1, target)
  {
    hide Move, Ordered, BestBut, Matching, Cleared, Settled;
    var r := sys.refs[k];
    var p := r.plugin;
    var cfg, s := f.cfg[p], sys.plugins[p];
    var moving := Matching(cfg, s.inst[target.name], s.inst[r.name].processed);
    TakeOverBest(cfg, s, r.name, target.name);
    MoveWellFormed(f, sys, p, r.name, target.name, moving);
    MoveKeepsInstances(cfg, s, r.name, target.name, moving);
  }

  lemma {:induction false} TransferFromBest(f: Fixed, sys: System, k: nat, target: Ref)
    requires WellFormed(f, sys) && k <= |sys.refs| && target in sys.refs && Progress(f, sys, k, target)
    ensures var t := TransferFrom(f, sys, k, target);
            && t.plugins.Keys == sys.plugins.Keys
            && (forall p :: p in sys.plugins && p != target.plugin ==> t.plugins[p] == sys.plugins[p])
            && Settled(t.plugins[target.plugin]) && Best(f.cfg[target.plugin], t.plugins[target.plugin])
    decreases |sys.refs| - k
  {
    hide Move, Ordered, Best, Matching, Settled, Progress;
    if k == |sys.refs| {
      AllCleared(f, sys, target);
    } else {
      var r := sys.refs[k];
      assert Listed(sys, r) && Listed(sys, target);
      var s := sys.plugins[target.plugin];
      if r == target || r.plugin != target.plugin || s.inst[target.name].priority > s.inst[r.name].priority {
        ProgressSkips(f, sys, k, target);
        TransferFromBest(f, sys, k + 1, target);
      } else {
        var moving := Matching(f.cfg[r.plugin], s.inst[target.name], s.inst[r.name].processed);
        if moving == {} {
          ProgressSkips(f, sys, k, target);
          TransferFromBest(f, sys, k + 1, target);
        } else {
          ProgressTakes(f, sys, k, target);
          TransferFromBest(f, MoveIn(f, sys, r.plugin, r.name, target.name, moving), k + 1, target);
        }
      }
    }
  }

  lemma NothingToMove(cfg: Config, s: Plugin, n: Name, o: Name)
    requires n in s.inst && o in s.inst
    requires Matching(cfg, s.inst[n], s.inst[o].processed) == {} || s.inst[n].priority > s.inst[o].priority
    ensures Cleared(cfg, s, n, o)
  {
    forall d | d in s.inst[o].processed && Wants(cfg, s, n, d) ensures s.inst[o].priority < s.inst[n].priority {
      assert d in Matching(cfg, s.inst[n], s.inst[o].processed);
    }
  }

  /** Once every other instance is cleared, the plugin is best throughout. */
  lemma AllCleared(f: Fixed, sys: System, target: Ref)
    requires WellFormed(f, sys) && target in sys.refs && Progress(f, sys, |sys.refs|, target)
    ensures Settled(sys.plugins[target.plugin]) && Best(f.cfg[target.plugin], sys.plugins[target.plugin])
  {
    var cfg, s := f.cfg[target.plugin], sys.plugins[target.plugin];
    forall o, d | o in s.inst && d in Devices(s.inst[o]) ensures BestFor(cfg, s, o, d) {
      if o != target.name {
        assert Listed(sys, Ref(target.plugin, o));
        var i :| 0 <= i < |sys.refs| && sys.refs[i] == Ref(target.plugin, o);
        assert Cleared(cfg, s, target.name, sys.refs[i].name);
      }
    }
  }

  // ----- Destruction -----

  lemma DestroyedBest(cfg: Config, s: Plugin, n: Name)
    requires n in s.inst && Ordered(s) && Settled(s) && Best(cfg, s)
    ensures var t := Destroyed(cfg, s, n); Settled(t) && Best(cfg, t)
  {
    hide UntuneKnobs, UntuneStore, Ordered;
    var t := Destroyed(cfg, s, n);
    assert t.free == s.free;
    assert forall m :: m in t.inst ==> m in s.inst && t.inst[m] == s.inst[m];
    assert forall m, d :: m in t.inst ==> (Wants(cfg, t, m, d) <==> Wants(cfg, s, m, d));
    forall o, d | o in t.inst && d in Devices(t.inst[o]) ensures BestFor(cfg, t, o, d) {
      assert BestFor(cfg, s, o, d);
    }
  }

  lemma {:induction false} AddAllBest(cfg: Config, s: Plugin, ds: seq<Device>)
    requires Ordered(s) && Settled(s) && Best(cfg, s)
    ensures var t := AddAll(cfg, s, ds); Settled(t) && Best(cfg, t)
    decreases |ds|
  {
    hide AddDevice, Settled, Best;
    if ds != [] {
      EventsKeepInstances(cfg, s, ds[0]);
      SameInstancesOrdered(s, AddDevice(cfg, s, ds[0]));
      AddDeviceBest(cfg, s, ds[0]);
      AddAllBest(cfg, AddDevice(cfg, s, ds[0]), ds[1..]);
    }
  }

  // ----- Runs without acquire -----

  lemma CreateBest(f: Fixed, sys: System, r: Ref, priority: int, expression: string, options: map<Command, Value>)
    requires WellFormed(f, sys) && SysBest(f, sys)
    ensures var t := Create(f, sys, r, priority, expression, options).0;
            t.plugins.Keys == f.cfg.Keys && SysBest(f, t)
  {
    hide Created, TransferFrom, Ordered, Settled, Best, BestBut;
    if r.plugin in sys.plugins && r.plugin in f.hotplug && !Listed(sys, r) {
      var u := WithCreated(f, sys, r, priority, expression, options);
      WithCreatedWellFormed(f, sys, r, priority, expression, options);
      CreatedBest(f.cfg[r.plugin], sys.plugins[r.plugin], r.name, priority, expression, options);
      TransferFromBest(f, u, 0, r);
    }
  }

  lemma DestroyKeepsBest(f: Fixed, sys: System, name: Name, ds: seq<Device>)
    requires WellFormed(f, sys) && SysBest(f, sys)
    ensures var t := Destroy(f, sys, name, ds).0;
            t.plugins.Keys == f.cfg.Keys && SysBest(f, t)
  {
    hide Destroyed, AddAll, Ordered, Settled, Best;
    FindNameListed(sys.refs, name);
    var r := FindName(sys.refs, name);
    if r.Some? && r.value.plugin in f.hotplug {
      var cfg, s, n := f.cfg[r.value.plugin], sys.plugins[r.value.plugin], r.value.name;
      DestroyedOrdered(cfg, s, n);
      DestroyedBest(cfg, s, n);
      AddAllBest(cfg, Destroyed(cfg, s, n), ds);
    }
  }

  /** Destroying an instance hands each of its devices to a best remaining instance, or leaves it free if none
      matches it. */
  lemma DestroyBest(f: Fixed, sys: System, name: Name, ds: seq<Device>, orig: Originals)
    requires SysInv(f, sys, orig) && SysBest(f, sys)
    requires var r := FindName(sys.refs, name);
             r.Some? ==> Listed(sys, r.value) && Enumerates(ds, Processed(sys, r.value))
    ensures var t := Destroy(f, sys, name, ds).0;
            && t.plugins.Keys == f.cfg.Keys && SysBest(f, t)
            && var r := FindName(sys.refs, name);
               r.Some? && r.value.plugin in f.hotplug ==>
                 forall d :: d in Processed(sys, r.value) ==> HandedOn(f.cfg[r.value.plugin], t.plugins[r.value.plugin], d)
  {
    hide Destroy, Ordered, Saved, Owned, Settled, Best, HandedOn, All;
    DestroyKeepsBest(f, sys, name, ds);
    DestroyDevices(f, sys, name, ds, orig);
    DestroyInv(f, sys, name, ds, orig);
    var r := FindName(sys.refs, name);
    if r.Some? && r.value.plugin in f.hotplug {
      var p, t := r.value.plugin, Destroy(f, sys, name, ds).0;
      assert Inv(f.cfg[p], sys.plugins[p], orig[p]) && Inv(f.cfg[p], t.plugins[p], orig[p]);
      ProcessedKnown(sys.plugins[p], r.value.name);
      forall d | d in Processed(sys, r.value) ensures HandedOn(f.cfg[p], t.plugins[p], d) {
        assert d in All(t.plugins[p]);
        BestHolds(f.cfg[p], t.plugins[p], d);
      }
    }
  }

  /** The device is with a best instance, or free because no instance matches it. */
  ghost predicate HandedOn(cfg: Config, s: Plugin, d: Device) {
    || (d in s.free && forall n :: n in s.inst ==> !Wants(cfg, s, n, d))
    || exists n :: n in s.inst && d in Devices(s.inst[n]) && BestFor(cfg, s, n, d)
  }

  lemma BestHolds(cfg: Config, s: Plugin, d: Device)
    requires Owned(s) && Best(cfg, s) && d in All(s)
    ensures HandedOn(cfg, s, d)
  {
    if d !in s.free {
      var n :| n in s.inst && d in Devices(s.inst[n]);
      assert BestFor(cfg, s, n, d);
    }
  }

  lemma ApplySettledBest(cfg: Config, s: Plugin, n: Name)
    requires n in s.inst && Settled(s) && Best(cfg, s)
    ensures var t := ApplyTuning(cfg, s, n); Settled(t) && Best(cfg, t)
  {
    hide TuneKnobs, TuneStore, Best;
    ShrinkBest(cfg, s, ApplyTuning(cfg, s, n));
  }

  lemma {:induction false} StartAgainBest(f: Fixed, sys: System, k: nat)
    requires WellFormed(f, sys) && k <= |sys.refs| && SysBest(f, sys)
    ensures SysBest(f, StartTuning(f, sys, k))
    decreases |sys.refs| - k
  {
    hide ApplyTuning, Ordered, Settled, Best;
    if k < |sys.refs| {
      var r := sys.refs[k];
      assert Listed(sys, r);
      var s := sys.plugins[r.plugin];
      var t := ApplyTuning(f.cfg[r.plugin], s, r.name);
      ApplySettledBest(f.cfg[r.plugin], s, r.name);
      ApplyKeepsInstances(f.cfg[r.plugin], s, r.name);
      WithPluginWellFormed(f, sys, r.plugin, t);
      StartAgainBest(f, WithPlugin(sys, r.plugin, t), k + 1);
    }
  }

  /** Every event but an explicit acquire keeps each device with a best instance. */
  lemma StepBest(f: Fixed, sys: System, e: Event)
    requires WellFormed(f, sys) && SysBest(f, sys) && !e.AcquireCall?
    ensures var t := Step(f, sys, e); t.plugins.Keys == f.cfg.Keys && SysBest(f, t)
  {
    hide Settled, Best, AddDevice, RemoveDevice, Create, Destroy, StartTuning, AcquireFrom;
    match e {
      case HotAdd(p, d, values) =>
        if Arrives(f, sys, e) {
          var s := sys.plugins[p];
          var t := s.(knobs := Appear(s.knobs, d, values));
          assert SameInstances(s, t);
          SettledFrame(f.cfg[p], s, t);
          AddDeviceBest(f.cfg[p], t, d);
        }
      case HotRemove(p, d) =>
        if p in sys.plugins { RemoveDeviceBest(f.cfg[p], sys.plugins[p], d); }
      case CreateCall(r, priority, expression, options) => CreateBest(f, sys, r, priority, expression, options);
      case DestroyCall(name, ds) => DestroyKeepsBest(f, sys, name, ds);
      case StartCall => StartAgainBest(f, sys, 0);
    }
  }

  lemma SettledFrame(cfg: Config, s: Plugin, t: Plugin)
    requires Settled(s) && Best(cfg, s) && t.inst == s.inst && t.free == s.free && t.order == s.order
    ensures Settled(t) && Best(cfg, t)
  {
    ShrinkBest(cfg, s, t);
  }

  /** Main result: in every state reached without an explicit acquire, no free device matches a live
      instance, and each owned device belongs to a matching instance of the best priority. */
  lemma {:induction false} RunBest(f: Fixed, sys: System, orig: Originals, es: seq<Event>)
    requires SysInv(f, sys, orig) && SysBest(f, sys)
    requires forall i :: 0 <= i < |es| ==> !es[i].AcquireCall?
    ensures var last := Run(f, sys, orig, es).0; last.plugins.Keys == f.cfg.Keys && SysBest(f, last)
    decreases |es|
  {
    hide SysBest, Step, StepOrig, Inv;
    if es != [] {
      StepBest(f, sys, es[0]);
      StepInv(f, sys, orig, es[0]);
      RunBest(f, Step(f, sys, es[0]), StepOrig(f, sys, orig, es[0]), es[1..]);
    }
  }
}
