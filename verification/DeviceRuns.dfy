/** No device is lost: whatever the daemon does with its instances, every device that it has found stays in the
    free pool or with exactly one instance, until the device is removed
    (tuned/plugins/hotplug.py, tuned/plugins/base.py, tuned/daemon/controller.py). */
module DeviceRuns {
  import opened Text
  import opened PluginModel
  import opened PluginInvariants
  import opened DeviceSystem
  import opened RollbackRuns

  /** Every device the plugin knows. */
  function All(s: Plugin): set<Device> {
    s.free + s.claimed
  }

  /** The device is assigned to an instance that has not tuned it yet. */
  ghost predicate Waits(s: Plugin, d: Device) {
    exists n :: n in s.inst && d in s.inst[n].pending
  }

  /** Where a known device is: free, or with one instance only. */
  ghost predicate AtOnePlace(s: Plugin, d: Device) {
    || (d in s.free && forall n :: n in s.inst ==> d !in Devices(s.inst[n]))
    || (d !in s.free && exists n :: n in s.inst && d in Devices(s.inst[n]) &&
                          forall m :: m in s.inst && d in Devices(s.inst[m]) ==> m == n)
  }

  lemma OneOwner(s: Plugin, d: Device, n: Name)
    requires Owned(s) && n in s.inst && d in Devices(s.inst[n])
    ensures forall m :: m in s.inst && d in Devices(s.inst[m]) ==> m == n
  {
  }

  lemma KnownAtOnePlace(s: Plugin, d: Device)
    requires Owned(s) && d in All(s)
    ensures AtOnePlace(s, d)
  {
    if d in s.free {
      forall n | n in s.inst ensures d !in Devices(s.inst[n]) { assert Devices(s.inst[n]) <= s.claimed; }
    } else {
      var n :| n in s.inst && d in Devices(s.inst[n]);
      OneOwner(s, d, n);
    }
  }

  // ----- Operations of a plugin -----

  lemma RemoveDevicesAll(cfg: Config, s: Plugin, n: Name, D: set<Device>)
    requires n in s.inst && Owned(s)
    ensures All(RemoveDevices(cfg, s, n, D)) == All(s) - D * s.inst[n].processed
  {
    hide UntuneKnobs, UntuneStore;
    assert Devices(s.inst[n]) <= s.claimed;
  }

  lemma AddDevicesAll(cfg: Config, s: Plugin, n: Name, D: set<Device>)
    requires n in s.inst
    ensures All(AddDevices(cfg, s, n, D)) == All(s) + D
    ensures All(AddDevicesNocheck(cfg, s, n, D)) == All(s) + D
  {
    hide TuneKnobs, TuneStore;
  }

  /** Handing devices on loses none. */
  lemma MoveAll(cfg: Config, s: Plugin, a: Name, b: Name, D: set<Device>)
    requires a in s.inst && b in s.inst && Owned(s) && D <= s.inst[a].processed
    ensures All(Move(cfg, s, a, b, D)) == All(s)
  {
    hide RemoveDevices, AddDevicesNocheck, Owned;
    RemoveDevicesKeepInstances(cfg, s, a, D);
    RemoveDevicesAll(cfg, s, a, D);
    AddDevicesAll(cfg, RemoveDevices(cfg, s, a, D), b, D);
    assert D * s.inst[a].processed == D;
    ProcessedKnown(s, a);
  }

  lemma ProcessedKnown(s: Plugin, n: Name)
    requires n in s.inst && Owned(s)
    ensures s.inst[n].processed <= All(s)
  {
    assert Devices(s.inst[n]) <= s.claimed;
  }

  lemma AddDeviceAll(cfg: Config, s: Plugin, d: Device)
    requires OrderListed(s)
    ensures All(AddDevice(cfg, s, d)) == All(s) + {d}
  {
    hide AddDevices, FirstMatch;
    FirstMatchListed(cfg, s, s.order, d);
    var n := FirstMatch(cfg, s, s.order, d);
    if n.Some? { AddDevicesAll(cfg, s, n.value, {d}); }
  }

  /** A removed device is gone, unless an instance has yet to tune it. */
  lemma RemoveDeviceAll(cfg: Config, s: Plugin, d: Device)
    requires OrderListed(s) && Owned(s) && forall n :: n in s.inst ==> n in s.order
    ensures All(RemoveDevice(cfg, s, d)) == if Waits(s, d) then All(s) else All(s) - {d}
  {
    hide RemoveDevices, FirstOwner, Owned;
    FirstOwnerListed(s, s.order, d);
    var n := FirstOwner(s, s.order, d);
    OwnedPlaces(s, d);
    if n.Some? {
      RemoveDevicesAll(cfg, s, n.value, {d});
      assert {d} * s.inst[n.value].processed == {d};
    }
  }

  lemma OwnedPlaces(s: Plugin, d: Device)
    requires Owned(s)
    ensures Waits(s, d) ==> d in s.claimed && d !in s.free && forall n :: n in s.inst ==> d !in s.inst[n].processed
    ensures d in s.claimed ==> d !in s.free && (Waits(s, d) || exists n :: n in s.inst && d in s.inst[n].processed)
  {
    if Waits(s, d) {
      var m :| m in s.inst && d in s.inst[m].pending;
      assert d in Devices(s.inst[m]) && Devices(s.inst[m]) <= s.claimed;
      forall n | n in s.inst ensures d !in s.inst[n].processed {
        if n != m { assert Devices(s.inst[m]) !! Devices(s.inst[n]); }
      }
    }
    if d in s.claimed {
      var n :| n in s.inst && d in Devices(s.inst[n]);
    }
  }

  lemma CreatedAll(cfg: Config, s: Plugin, n: Name, priority: int, expression: string, options: map<Command, Value>)
    requires OrderListed(s) && n !in s.inst
    ensures All(Created(cfg, s, n, priority, expression, options)) == All(s)
  {
    hide TuneKnobs, TuneStore, InsertByPriority, ApplyTuning;
    var c := CreateInstance(s, n, priority, expression, options);
    var a := AssignFree(cfg, c, n);
    assert Matching(cfg, c.inst[n], c.free) <= c.free;
    ApplyAll(cfg, a, n);
  }

  lemma ApplyAll(cfg: Config, s: Plugin, n: Name)
    requires n in s.inst
    ensures All(ApplyTuning(cfg, s, n)) == All(s)
  {
    hide TuneKnobs, TuneStore;
  }

  lemma DestroyedAll(cfg: Config, s: Plugin, n: Name)
    requires n in s.inst && Owned(s)
    ensures All(Destroyed(cfg, s, n)) == All(s) - s.inst[n].processed
  {
    hide RemoveDevices, UnapplyTuning, Owned;
    var t := RemoveDevices(cfg, s, n, s.inst[n].processed);
    RemoveDevicesAll(cfg, s, n, s.inst[n].processed);
    RemoveDevicesKeepInstances(cfg, s, n, s.inst[n].processed);
    UnapplyAll(cfg, t, n);
    assert s.inst[n].processed * s.inst[n].processed == s.inst[n].processed;
    DestroyAll(UnapplyTuning(cfg, t, n), n);
  }

  lemma UnapplyAll(cfg: Config, s: Plugin, n: Name)
    requires n in s.inst
    ensures All(UnapplyTuning(cfg, s, n)) == All(s) && UnapplyTuning(cfg, s, n).inst == s.inst
  {
    hide UntuneKnobs, UntuneStore;
  }

  lemma DestroyAll(s: Plugin, n: Name)
    requires n in s.inst
    ensures All(DestroyInstance(s, n)) == All(s)
  {
  }

  lemma {:induction false} AddAllAll(cfg: Config, s: Plugin, ds: seq<Device>)
    requires Ordered(s)
    ensures All(AddAll(cfg, s, ds)) == All(s) + (set d | d in ds)
    decreases |ds|
  {
    hide AddDevice, Ordered;
    if ds != [] {
      OrderedLists(s);
      EventsKeepInstances(cfg, s, ds[0]);
      SameInstancesOrdered(s, AddDevice(cfg, s, ds[0]));
      AddDeviceAll(cfg, s, ds[0]);
      AddAllAll(cfg, AddDevice(cfg, s, ds[0]), ds[1..]);
      assert (set d | d in ds) == {ds[0]} + (set d | d in ds[1..]) by { assert ds == [ds[0]] + ds[1..]; }
    }
  }

  lemma OrderedLists(s: Plugin)
    requires Ordered(s)
    ensures OrderListed(s) && forall n :: n in s.inst ==> n in s.order
  {
  }

  // ----- Events -----

  ghost predicate SameDevices(sys: System, t: System) {
    t.plugins.Keys == sys.plugins.Keys && forall p :: p in sys.plugins ==> All(t.plugins[p]) == All(sys.plugins[p])
  }

  lemma MoveInDevices(f: Fixed, sys: System, p: PluginName, a: Name, b: Name, D: set<Device>, orig: Originals)
    requires SysInv(f, sys, orig) && Listed(sys, Ref(p, a)) && Listed(sys, Ref(p, b)) && D <= Processed(sys, Ref(p, a))
    ensures SameDevices(sys, MoveIn(f, sys, p, a, b, D))
  {
    hide Move, Ordered, Owned, Saved;
    assert Inv(f.cfg[p], sys.plugins[p], orig[p]);
    MoveAll(f.cfg[p], sys.plugins[p], a, b, D);
  }

  /** An acquire loses or duplicates no device, whatever its outcome. */
  lemma {:induction false} AcquireFromDevices(f: Fixed, sys: System, k: nat, target: Ref, devs: set<Device>, orig: Originals)
    requires SysInv(f, sys, orig) && k <= |sys.refs| && target in sys.refs
    ensures SameDevices(sys, AcquireFrom(f, sys, k, target, devs).0)
    decreases |sys.refs| - k
  {
    hide Move, Ordered, Owned, Saved, All;
    if k < |sys.refs| {
      var r := sys.refs[k];
      assert Listed(sys, r) && Listed(sys, target);
      var moving := Processed(sys, r) * devs;
      if moving == {} {
        AcquireFromDevices(f, sys, k + 1, target, devs, orig);
      } else if r.plugin == target.plugin {
        MoveWellFormed(f, sys, r.plugin, r.name, target.name, moving);
        MoveInInv(f, sys, r.plugin, r.name, target.name, moving, orig);
        MoveInDevices(f, sys, r.plugin, r.name, target.name, moving, orig);
        AcquireFromDevices(f, MoveIn(f, sys, r.plugin, r.name, target.name, moving), k + 1, target, devs - moving, orig);
      }
    }
  }

  lemma {:induction false} TransferFromDevices(f: Fixed, sys: System, k: nat, target: Ref, orig: Originals)
    requires SysInv(f, sys, orig) && k <= |sys.refs| && target in sys.refs
    ensures SameDevices(sys, TransferFrom(f, sys, k, target))
    decreases |sys.refs| - k
  {
    hide Move, Ordered, Owned, Saved, All;
    if k < |sys.refs| {
      var r := sys.refs[k];
      assert Listed(sys, r) && Listed(sys, target);
      var s := sys.plugins[target.plugin];
      if r == target || r.plugin != target.plugin || s.inst[target.name].priority > s.inst[r.name].priority {
        TransferFromDevices(f, sys, k + 1, target, orig);
      } else {
        var moving := Matching(f.cfg[target.plugin], s.inst[target.name], s.inst[r.name].processed);
        if moving == {} {
          TransferFromDevices(f, sys, k + 1, target, orig);
        } else {
          MoveWellFormed(f, sys, r.plugin, r.name, target.name, moving);
          MoveInInv(f, sys, r.plugin, r.name, target.name, moving, orig);
          MoveInDevices(f, sys, r.plugin, r.name, target.name, moving, orig);
          TransferFromDevices(f, MoveIn(f, sys, r.plugin, r.name, target.name, moving), k + 1, target, orig);
        }
      }
    }
  }

  /** Creating an instance loses or duplicates no device. */
  lemma CreateDevices(f: Fixed, sys: System, r: Ref, priority: int, expression: string, options: map<Command, Value>,
                      orig: Originals)
    requires SysInv(f, sys, orig)
    ensures SameDevices(sys, Create(f, sys, r, priority, expression, options).0)
  {
    hide Inv, Created, TransferFrom, Ordered, All;
    if r.plugin in sys.plugins && r.plugin in f.hotplug && !Listed(sys, r) {
      var u := WithCreated(f, sys, r, priority, expression, options);
      var s := sys.plugins[r.plugin];
      WithCreatedWellFormed(f, sys, r, priority, expression, options);
      CreatedInv(f.cfg[r.plugin], s, r.name, priority, expression, options, orig[r.plugin]);
      OrderedLists(s);
      CreatedAll(f.cfg[r.plugin], s, r.name, priority, expression, options);
      assert SysInv(f, u, orig);
      TransferFromDevices(f, u, 0, r, orig);
    }
  }

  /** The devices of a destroyed instance are all handed on. */
  lemma DestroyDevices(f: Fixed, sys: System, name: Name, ds: seq<Device>, orig: Originals)
    requires SysInv(f, sys, orig)
    requires var r := FindName(sys.refs, name);
             r.Some? ==> Listed(sys, r.value) && Enumerates(ds, Processed(sys, r.value))
    ensures SameDevices(sys, Destroy(f, sys, name, ds).0)
  {
    hide Destroyed, AddAll, Ordered, Saved, Owned;
    FindNameListed(sys.refs, name);
    var r := FindName(sys.refs, name);
    if r.Some? && r.value.plugin in f.hotplug {
      var q := r.value;
      var cfg, s := f.cfg[q.plugin], sys.plugins[q.plugin];
      assert Inv(cfg, s, orig[q.plugin]);
      DestroyedOrdered(cfg, s, q.name);
      DestroyedAll(cfg, s, q.name);
      AddAllAll(cfg, Destroyed(cfg, s, q.name), ds);
      ProcessedKnown(s, q.name);
      assert (set d | d in ds) == s.inst[q.name].processed;
    }
  }

  lemma {:induction false} StartDevices(f: Fixed, sys: System, k: nat, orig: Originals)
    requires SysInv(f, sys, orig) && k <= |sys.refs|
    ensures SameDevices(sys, StartTuning(f, sys, k))
    decreases |sys.refs| - k
  {
    hide Inv, ApplyTuning, Ordered, All;
    if k < |sys.refs| {
      var r := sys.refs[k];
      assert Listed(sys, r);
      var t := ApplyTuning(f.cfg[r.plugin], sys.plugins[r.plugin], r.name);
      ApplyTuningInv(f.cfg[r.plugin], sys.plugins[r.plugin], r.name, orig[r.plugin]);
      WithPluginInv(f, sys, r.plugin, t, orig);
      ApplyAll(f.cfg[r.plugin], sys.plugins[r.plugin], r.name);
      StartDevices(f, WithPlugin(sys, r.plugin, t), k + 1, orig);
    }
  }

  /** The event brings the device to the plugin. */
  ghost predicate Brings(f: Fixed, sys: System, e: Event, p: PluginName, d: Device) {
    Arrives(f, sys, e) && e.plugin == p && e.device == d
  }

  /** The event takes the device away from the plugin. */
  ghost predicate Drops(f: Fixed, sys: System, e: Event, p: PluginName, d: Device) {
    e.HotRemove? && p in sys.plugins && e.plugin == p && p in f.hotplug && e.device == d && !Waits(sys.plugins[p], d)
  }

  /** Every event keeps exactly the devices it found, but for one that arrives or is removed. */
  lemma StepDevices(f: Fixed, sys: System, orig: Originals, e: Event, p: PluginName, d: Device)
    requires SysInv(f, sys, orig) && p in sys.plugins
    ensures var t := Step(f, sys, e);
            && p in t.plugins
            && (d in All(t.plugins[p]) <==> (d in All(sys.plugins[p]) || Brings(f, sys, e, p, d)) && !Drops(f, sys, e, p, d))
  {
    hide Inv, AddDevice, RemoveDevice, Appear, StartTuning, AcquireFrom, Create, Destroy, Waits, All;
    match e {
      case HotAdd(q, b, values) => AddStep(f, sys, orig, e, p, d);
      case HotRemove(q, b) => RemoveStep(f, sys, orig, e, p, d);
      case AcquireCall(devs, name) =>
        FindNameListed(sys.refs, name);
        var t := FindName(sys.refs, name);
        if t.Some? { AcquireFromDevices(f, sys, 0, t.value, devs, orig); }
      case CreateCall(r, priority, expression, options) =>
        CreateDevices(f, sys, r, priority, expression, options, orig);
      case DestroyCall(name, ds) =>
        FindNameListed(sys.refs, name);
        var r := FindName(sys.refs, name);
        if r.Some? && Enumerates(ds, Processed(sys, r.value)) { DestroyDevices(f, sys, name, ds, orig); }
      case StartCall => StartDevices(f, sys, 0, orig);
    }
  }

  lemma AddStep(f: Fixed, sys: System, orig: Originals, e: Event, p: PluginName, d: Device)
    requires SysInv(f, sys, orig) && p in sys.plugins && e.HotAdd?
    ensures var t := Step(f, sys, e);
            p in t.plugins && (d in All(t.plugins[p]) <==> d in All(sys.plugins[p]) || Brings(f, sys, e, p, d))
  {
    hide AddDevice, Appear, Owned, Saved, Ordered;
    if Arrives(f, sys, e) {
      var s := sys.plugins[e.plugin];
      OrderedLists(s);
      AddDeviceAll(f.cfg[e.plugin], s.(knobs := Appear(s.knobs, e.device, e.values)), e.device);
    }
  }

  lemma RemoveStep(f: Fixed, sys: System, orig: Originals, e: Event, p: PluginName, d: Device)
    requires SysInv(f, sys, orig) && p in sys.plugins && e.HotRemove?
    ensures var t := Step(f, sys, e);
            p in t.plugins && (d in All(t.plugins[p]) <==> d in All(sys.plugins[p]) && !Drops(f, sys, e, p, d))
  {
    hide RemoveDevice, Owned, Saved, Ordered, Waits;
    if e.plugin in sys.plugins {
      var s := sys.plugins[e.plugin];
      assert Inv(f.cfg[e.plugin], s, orig[e.plugin]);
      OrderedLists(s);
      RemoveDeviceAll(f.cfg[e.plugin], s, e.device);
    }
  }

  // ----- Runs -----

  /** The state after the first i events. */
  ghost function At(f: Fixed, sys: System, orig: Originals, es: seq<Event>, i: nat): System
    requires SysInv(f, sys, orig) && i <= |es|
  {
    Run(f, sys, orig, es[..i]).0
  }

  lemma {:induction false} RunSnoc(f: Fixed, sys: System, orig: Originals, es: seq<Event>, e: Event)
    requires SysInv(f, sys, orig)
    ensures Run(f, sys, orig, es + [e]).0 == Step(f, Run(f, sys, orig, es).0, e)
    decreases |es|
  {
    hide Step, StepOrig, Inv, Ordered;
    StepInv(f, sys, orig, if es == [] then e else es[0]);
    if es == [] {
      assert es + [e] == [e] && [e][1..] == [];
    } else {
      assert (es + [e])[1..] == es[1..] + [e];
      RunSnoc(f, Step(f, sys, es[0]), StepOrig(f, sys, orig, es[0]), es[1..], e);
    }
  }

  /** The device was there from the start or was brought by event i, and no event took it away since. */
  ghost predicate Stayed(f: Fixed, sys: System, orig: Originals, es: seq<Event>, p: PluginName, d: Device, n: nat)
    requires SysInv(f, sys, orig) && p in sys.plugins && n <= |es|
  {
    || (d in All(sys.plugins[p]) && NotDropped(f, sys, orig, es, p, d, 0, n))
    || exists i :: 0 <= i < n && Brings(f, At(f, sys, orig, es, i), es[i], p, d) && NotDropped(f, sys, orig, es, p, d, i, n)
  }

  ghost predicate NotDropped(f: Fixed, sys: System, orig: Originals, es: seq<Event>, p: PluginName, d: Device, i: nat, n: nat)
    requires SysInv(f, sys, orig) && n <= |es|
  {
    forall j :: i <= j < n ==> !Drops(f, At(f, sys, orig, es, j), es[j], p, d)
  }

  lemma DevicesNext(f: Fixed, sys: System, orig: Originals, es: seq<Event>, p: PluginName, d: Device, n: nat)
    requires SysInv(f, sys, orig) && 0 < n <= |es| && p in At(f, sys, orig, es, n - 1).plugins
    ensures var s, t := At(f, sys, orig, es, n - 1), At(f, sys, orig, es, n);
            && p in t.plugins
            && (d in All(t.plugins[p]) <==>
                (d in All(s.plugins[p]) || Brings(f, s, es[n - 1], p, d)) && !Drops(f, s, es[n - 1], p, d))
  {
    hide Run, Step, All, Brings, Drops, Inv, Ordered;
    assert es[..n] == es[..n - 1] + [es[n - 1]];
    RunSnoc(f, sys, orig, es[..n - 1], es[n - 1]);
    var (s, first) := Run(f, sys, orig, es[..n - 1]);
    StepDevices(f, s, first, es[n - 1], p, d);
  }

  lemma StayedAtStart(f: Fixed, sys: System, orig: Originals, es: seq<Event>, p: PluginName, d: Device)
    requires SysInv(f, sys, orig) && p in sys.plugins
    ensures At(f, sys, orig, es, 0) == sys && (Stayed(f, sys, orig, es, p, d, 0) <==> d in All(sys.plugins[p]))
  {
    hide Run, All, Inv, Ordered;
    RunNothing(f, sys, orig);
    assert es[..0] == [];
  }

  /** In every state of every run a plugin knows exactly the devices that it had or got and that were not taken
      away since. */
  lemma {:induction false} KnownStayed(f: Fixed, sys: System, orig: Originals, es: seq<Event>, p: PluginName, d: Device, n: nat)
    requires SysInv(f, sys, orig) && p in sys.plugins && n <= |es|
    ensures var t := At(f, sys, orig, es, n);
            p in t.plugins && (d in All(t.plugins[p]) <==> Stayed(f, sys, orig, es, p, d, n))
  {
    hide At, Stayed, All, Brings, Drops, SysInv;
    if n == 0 {
      StayedAtStart(f, sys, orig, es, p, d);
    } else {
      KnownStayed(f, sys, orig, es, p, d, n - 1);
      DevicesNext(f, sys, orig, es, p, d, n);
      NothingBothWays(f, At(f, sys, orig, es, n - 1), es[n - 1], p, d);
      StayedNext(f, sys, orig, es, p, d, n);
    }
  }

  lemma RunNothing(f: Fixed, sys: System, orig: Originals)
    requires SysInv(f, sys, orig)
    ensures Run(f, sys, orig, []) == (sys, orig)
  {
  }

  lemma NothingBothWays(f: Fixed, sys: System, e: Event, p: PluginName, d: Device)
    ensures !(Brings(f, sys, e, p, d) && Drops(f, sys, e, p, d))
  {
  }

  lemma StayedNext(f: Fixed, sys: System, orig: Originals, es: seq<Event>, p: PluginName, d: Device, n: nat)
    requires SysInv(f, sys, orig) && p in sys.plugins && 0 < n <= |es|
    requires var s := At(f, sys, orig, es, n - 1);
             !(Brings(f, s, es[n - 1], p, d) && Drops(f, s, es[n - 1], p, d))
    ensures var s := At(f, sys, orig, es, n - 1);
            Stayed(f, sys, orig, es, p, d, n) <==>
            (Stayed(f, sys, orig, es, p, d, n - 1) || Brings(f, s, es[n - 1], p, d)) && !Drops(f, s, es[n - 1], p, d)
  {
    hide At, Brings, Drops, All, SysInv;
    var s, e := At(f, sys, orig, es, n - 1), es[n - 1];
    if Stayed(f, sys, orig, es, p, d, n) {
      assert NotDropped(f, sys, orig, es, p, d, n - 1, n);
    }
    if Brings(f, s, e, p, d) && !Drops(f, s, e, p, d) {
      assert NotDropped(f, sys, orig, es, p, d, n - 1, n);
    }
    if Stayed(f, sys, orig, es, p, d, n - 1) && !Drops(f, s, e, p, d) {
      if d in All(sys.plugins[p]) && NotDropped(f, sys, orig, es, p, d, 0, n - 1) {
        assert NotDropped(f, sys, orig, es, p, d, 0, n);
      } else {
        var i :| 0 <= i < n - 1 && Brings(f, At(f, sys, orig, es, i), es[i], p, d) && NotDropped(f, sys, orig, es, p, d, i, n - 1);
        assert NotDropped(f, sys, orig, es, p, d, i, n);
      }
    }
  }

  /** Main result: after any run, the devices of a plugin are exactly those that it had or got and that were not
      taken away since, and each of them is free or with exactly one instance. */
  lemma RunDevices(f: Fixed, sys: System, orig: Originals, es: seq<Event>, p: PluginName, d: Device)
    requires SysInv(f, sys, orig) && p in sys.plugins
    ensures var last := Run(f, sys, orig, es).0;
            && p in last.plugins
            && (d in All(last.plugins[p]) <==> Stayed(f, sys, orig, es, p, d, |es|))
            && (Stayed(f, sys, orig, es, p, d, |es|) ==> AtOnePlace(last.plugins[p], d))
  {
    hide Run, Stayed, All, AtOnePlace, Owned, Ordered, Saved;
    KnownStayed(f, sys, orig, es, p, d, |es|);
    assert es[..|es|] == es;
    var (last, first) := Run(f, sys, orig, es);
    assert Inv(f.cfg[p], last.plugins[p], first[p]);
    if d in All(last.plugins[p]) { KnownAtOnePlace(last.plugins[p], d); }
  }
}
