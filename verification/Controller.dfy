/** The daemon's view of its plugins: the unit manager's start and stop loops and the D-Bus calls that
    move devices between instances, on plugin objects updated in place
    (tuned/units/manager.py, tuned/daemon/controller.py). */
module Controller {
  import opened Text
  import opened PluginModel
  import opened PluginInvariants
  import opened DeviceSystem
  import opened RollbackRuns
  import opened StartUp
  import opened Owners
  import H = HotplugPlugin

  class Controller {
    const plugins: map<PluginName, H.Plugin>
    const hotplug: set<PluginName>
    var refs: seq<Ref>

    ghost function Fixed(): DeviceSystem.Fixed {
      DeviceSystem.Fixed(map p | p in plugins :: plugins[p].cfg, hotplug)
    }

    ghost function View(): System
      reads this, plugins.Values
    {
      System(map p | p in plugins :: plugins[p].View(), refs)
    }

    ghost predicate Valid()
      reads this, plugins.Values
    {
      && (forall p, q :: p in plugins && q in plugins && p != q ==> plugins[p] != plugins[q])
      && (forall p :: p in plugins ==> plugins[p].Valid())
      && WellFormed(Fixed(), View())
    }

    constructor (plugins: map<PluginName, H.Plugin>, hotplug: set<PluginName>)
      requires forall p, q :: p in plugins && q in plugins && p != q ==> plugins[p] != plugins[q]
      requires forall p :: p in plugins ==> plugins[p].Valid() && plugins[p].inst == map[]
      ensures Valid() && this.plugins == plugins && this.hotplug == hotplug && refs == []
    {
      hide Owned, Ordered, WellFormed, H.Plugin.Valid;
      this.plugins, this.hotplug, this.refs := plugins, hotplug, [];
      new;
      forall p | p in plugins ensures Ordered(plugins[p].View()) { ValidIsOrdered(plugins[p]); }
      BlankIsWellFormed(Fixed(), View());
    }

    /** Changing one plugin changes the system there and nowhere else. */
    lemma ViewWith(w: System, p: PluginName)
      requires p in plugins && w.plugins.Keys == plugins.Keys
      requires forall q :: q in plugins && q != p ==> plugins[q].View() == w.plugins[q]
      ensures View() == System(w.plugins[p := plugins[p].View()], refs)
    {
      hide H.Plugin.View;
      assert View().plugins == w.plugins[p := plugins[p].View()];
    }

    method CreateUnitAt(u: Unit)
      requires Valid() && !Listed(View(), u.ref)
      modifies this, plugins.Values
      ensures Valid() && View() == CreateUnit(Fixed(), old(View()), u)
    {
      hide Ordered, Owned, CreateInstance, WellFormed, H.Plugin.Valid;
      ghost var w := View();
      CreateUnitWellFormed(Fixed(), w, u);
      if u.ref.plugin in plugins {
        var p := plugins[u.ref.plugin];
        var ok := p.CreateInstance(u.ref.name, u.priority, u.expression, u.options);
        refs := refs + [u.ref];
        ViewWith(w, u.ref.plugin);
      }
    }

    method AssignAt(r: Ref)
      requires Valid() && r in refs
      modifies plugins.Values
      ensures Valid() && refs == old(refs)
      ensures Listed(old(View()), r)
      ensures View() == WithPlugin(old(View()), r.plugin,
                                   AssignFree(Fixed().cfg[r.plugin], old(View()).plugins[r.plugin], r.name))
    {
      hide Ordered, AssignFree, Owned, WellFormed, H.Plugin.Valid;
      ghost var w := View();
      ListedRefs(Fixed(), w, r);
      var p := plugins[r.plugin];
      ValidIsOrdered(p);
      AssignKeepsInstances(p.cfg, p.View(), r.name);
      p.AssignFreeDevices(r.name);
      ValidIsOrdered(p);
      WithPluginWellFormed(Fixed(), w, r.plugin, p.View());
      ViewWith(w, r.plugin);
    }

    /** The unit manager's `create`: keep the enabled units that fit the machine, sort them, create an instance
        for each whose plugin is supported, then let the instances take the free devices in that order. */
    method Configure(configs: seq<UnitConfig>, defaultPriority: int)
      requires Valid() && refs == [] && DistinctConfigs(configs)
      modifies this, plugins.Values
      ensures Valid()
      ensures var units := SortUnits(Admitted(configs, defaultPriority));
              && DistinctUnits(units) && (forall u :: u in units ==> !Listed(old(View()), u.ref))
              && View() == AssignAll(Fixed(), CreateUnits(Fixed(), old(View()), units), 0)
      ensures forall orig :: Pristine(Fixed(), old(View()), orig) ==>
                View() == Prepared(Fixed(), old(View()), orig, configs, defaultPriority)
    {
      hide Ordered, Owned, WellFormed, SortUnits, CreateUnits, AssignAll, Valid, Pristine;
      assert WellFormed(Fixed(), View()) by { ValidIsWellFormed(); }
      NoneListed(Fixed(), View());
      AdmittedDistinct(configs, defaultPriority);
      SortUnitsDistinct(Admitted(configs, defaultPriority));
      var admitted := Admit(configs, defaultPriority);
      CreateAll(SortUnits(admitted));
      AssignEach();
    }

    lemma ValidIsWellFormed()
      requires Valid()
      ensures WellFormed(Fixed(), View())
    {
    }

    method CreateAll(units: seq<Unit>)
      requires Valid() && DistinctUnits(units) && forall u :: u in units ==> !Listed(View(), u.ref)
      modifies this, plugins.Values
      ensures Valid() && View() == CreateUnits(Fixed(), old(View()), units)
    {
      hide Ordered, Owned, WellFormed, CreateUnit, Listed, Valid;
      assert WellFormed(Fixed(), View()) by { ValidIsWellFormed(); }
      var i := 0;
      assert units[0..] == units;
      while i < |units|
        invariant 0 <= i <= |units| && Valid() && WellFormed(Fixed(), View())
        invariant forall u :: u in units[i..] ==> !Listed(View(), u.ref)
        invariant CreateUnits(Fixed(), old(View()), units) == CreateUnits(Fixed(), View(), units[i..])
      {
        RestOfUnits(units, i);
        CreateNext(Fixed(), View(), units[i..]);
        CreateUnitAt(units[i]);
        i := i + 1;
      }
    }

    method AssignEach()
      requires Valid()
      modifies plugins.Values
      ensures Valid() && WellFormed(Fixed(), old(View())) && View() == AssignAll(Fixed(), old(View()), 0)
    {
      hide Ordered, Owned, WellFormed, AssignFree, Valid;
      assert WellFormed(Fixed(), View()) by { ValidIsWellFormed(); }
      var k := 0;
      while k < |refs|
        invariant 0 <= k <= |refs| && Valid() && refs == old(refs) && WellFormed(Fixed(), View())
        invariant AssignAll(Fixed(), old(View()), 0) == AssignAll(Fixed(), View(), k)
      {
        AssignAt(refs[k]);
        assert WellFormed(Fixed(), View()) by { ValidIsWellFormed(); }
        k := k + 1;
      }
    }

    /** Apply the tuning of one listed instance. */
    method ApplyAt(r: Ref)
      requires Valid() && r in refs
      modifies plugins.Values
      ensures Valid() && refs == old(refs)
      ensures Listed(old(View()), r)
      ensures View() == WithPlugin(old(View()), r.plugin,
                                   ApplyTuning(Fixed().cfg[r.plugin], old(View()).plugins[r.plugin], r.name))
    {
      hide Ordered, ApplyTuning, Owned, WellFormed, H.Plugin.Valid;
      ghost var w := View();
      ListedRefs(Fixed(), w, r);
      var p := plugins[r.plugin];
      ValidIsOrdered(p);
      ApplyKeepsInstances(p.cfg, p.View(), r.name);
      p.InstanceApplyTuning(r.name);
      ValidIsOrdered(p);
      WithPluginWellFormed(Fixed(), w, r.plugin, p.View());
      ViewWith(w, r.plugin);
    }

    /** `start_tuning`. */
    method StartTuning()
      requires Valid()
      modifies plugins.Values
      ensures Valid() && View() == DeviceSystem.StartTuning(Fixed(), old(View()), 0)
    {
      hide Ordered, ApplyTuning, Owned, WellFormed, Valid;
      assert WellFormed(Fixed(), View()) by { ValidIsWellFormed(); }
      var k := 0;
      while k < |refs|
        invariant 0 <= k <= |refs| && Valid() && refs == old(refs) && WellFormed(Fixed(), View())
        invariant DeviceSystem.StartTuning(Fixed(), old(View()), 0) == DeviceSystem.StartTuning(Fixed(), View(), k)
      {
        ApplyAt(refs[k]);
        assert WellFormed(Fixed(), View()) by { ValidIsWellFormed(); }
        k := k + 1;
      }
    }

    /** Undo the tuning of one listed instance. */
    method UnapplyAt(r: Ref)
      requires Valid() && r in refs
      modifies plugins.Values
      ensures Valid() && refs == old(refs)
      ensures Listed(old(View()), r)
      ensures View() == WithPlugin(old(View()), r.plugin,
                                   UnapplyTuning(Fixed().cfg[r.plugin], old(View()).plugins[r.plugin], r.name))
    {
      hide Ordered, UnapplyTuning, Owned, WellFormed, H.Plugin.Valid;
      ghost var w := View();
      ListedRefs(Fixed(), w, r);
      var p := plugins[r.plugin];
      UnapplyKeys(p.cfg, p.View(), r.name);
      p.InstanceUnapplyTuning(r.name, true);
      ValidIsOrdered(p);
      WithPluginWellFormed(Fixed(), w, r.plugin, p.View());
      ViewWith(w, r.plugin);
    }

    /** `stop_tuning`: the instances in reverse order. Without a rollback nothing is undone. */
    method StopTuning(rollback: bool)
      requires Valid()
      modifies plugins.Values
      ensures Valid()
      ensures View() == if rollback then DeviceSystem.StopTuning(Fixed(), old(View()), |old(refs)|) else old(View())
    {
      hide Ordered, UnapplyTuning, Owned, WellFormed, Valid, DeviceSystem.StopTuning;
      assert WellFormed(Fixed(), View()) by { ValidIsWellFormed(); }
      if !rollback {
        return;
      }
      var k := |refs|;
      while k > 0
        invariant 0 <= k <= |refs| && Valid() && refs == old(refs) && WellFormed(Fixed(), View())
        invariant DeviceSystem.StopTuning(Fixed(), old(View()), |refs|) == DeviceSystem.StopTuning(Fixed(), View(), k)
      {
        StopNext(Fixed(), View(), k);
        UnapplyAt(refs[k - 1]);
        assert WellFormed(Fixed(), View()) by { ValidIsWellFormed(); }
        k := k - 1;
      }
      StopNone(Fixed(), View());
    }

    /** Hand processed devices from one instance to another of the same plugin. */
    method MoveAt(p: PluginName, a: Name, b: Name, moving: set<Device>)
      requires Valid() && Ref(p, a) in refs && Ref(p, b) in refs
      requires Listed(View(), Ref(p, a)) && moving <= plugins[p].inst[a].processed
      modifies plugins.Values
      ensures Valid() && refs == old(refs)
      ensures Listed(old(View()), Ref(p, a)) && Listed(old(View()), Ref(p, b))
      ensures View() == MoveIn(Fixed(), old(View()), p, a, b, moving)
    {
      hide Ordered, Owned, Move, WellFormed, H.Plugin.Valid;
      ghost var w := View();
      ListedRefs(Fixed(), w, Ref(p, a));
      ListedRefs(Fixed(), w, Ref(p, b));
      MoveWellFormed(Fixed(), w, p, a, b, moving);
      MoveWithin(plugins[p], a, b, moving);
      ViewWith(w, p);
    }

    static method MoveWithin(p: H.Plugin, a: Name, b: Name, moving: set<Device>)
      requires p.Valid() && a in p.inst && b in p.inst && moving <= p.inst[a].processed
      modifies p
      ensures p.Valid() && p.View() == Move(p.cfg, old(p.View()), a, b, moving)
    {
      hide Ordered, Owned, RemoveDevices, PluginModel.AddDevicesNocheck;
      RemovedDevices(p.cfg, p.View(), a, moving);
      p.RemoveDevicesNocheck(a, moving);
      p.AddDevicesNocheck(b, moving);
    }

    method FindInstance(name: Name) returns (target: Option<Ref>)
      ensures target == FindName(refs, name)
      ensures if target.None? then forall i :: 0 <= i < |refs| ==> refs[i].name != name
              else exists i :: 0 <= i < |refs| && target == Some(refs[i]) && refs[i].name == name &&
                               forall j :: 0 <= j < i ==> refs[j].name != name
    {
      var k := 0;
      while k < |refs|
        invariant 0 <= k <= |refs|
        invariant forall j :: 0 <= j < k ==> refs[j].name != name
      {
        if refs[k].name == name {
          FindNameFirst(refs, name, k);
          return Some(refs[k]);
        }
        k := k + 1;
      }
      FindNameFirst(refs, name, k);
      target := None;
    }

    /** `instance_acquire_devices`. */
    method InstanceAcquireDevices(devices: set<Device>, name: Name) returns (outcome: Outcome)
      requires Valid()
      modifies plugins.Values
      ensures Valid() && (View(), outcome) == Acquire(Fixed(), old(View()), devices, name)
    {
      hide Ordered, Move, Owned, WellFormed, H.Plugin.Valid;
      var found := FindInstance(name);
      if found.None? {
        return NotFound;
      }
      FindNameListed(refs, name);
      var target := found.value;
      if target.plugin !in hotplug {
        return NotHotplug;
      }
      var devs := devices;
      var k := 0;
      while k < |refs|
        invariant 0 <= k <= |refs| && Valid() && refs == old(refs) && target in refs
        invariant AcquireFrom(Fixed(), old(View()), 0, target, devices) == AcquireFrom(Fixed(), View(), k, target, devs)
      {
        var r := refs[k];
        ListedRefs(Fixed(), View(), r);
        var moving := plugins[r.plugin].inst[r.name].processed * devs;
        if moving != {} {
          if r.plugin != target.plugin {
            return WrongType;
          }
          devs := devs - moving;
          MoveAt(r.plugin, r.name, target.name, moving);
        }
        k := k + 1;
      }
      outcome := if devs == {} then DeviceSystem.Done else Leftover;
    }

    /** A new instance of a plugin, with the matching free devices tuned, at the end of the list. */
    method CreateAt(r: Ref, priority: int, expression: string, options: map<Command, Value>)
      requires Valid() && r.plugin in plugins && r.name !in plugins[r.plugin].inst
      modifies this, plugins.Values
      ensures Valid() && refs == old(refs) + [r]
      ensures !Listed(old(View()), r)
      ensures View() == WithCreated(Fixed(), old(View()), r, priority, expression, options)
    {
      hide Ordered, Created, Owned, WellFormed, H.Plugin.Valid;
      ghost var w := View();
      var p := plugins[r.plugin];
      WithCreatedWellFormed(Fixed(), w, r, priority, expression, options);
      CreateWithin(p, r.name, priority, expression, options);
      refs := refs + [r];
      ViewWith(w, r.plugin);
    }

    static method CreateWithin(p: H.Plugin, n: Name, priority: int, expression: string, options: map<Command, Value>)
      requires p.Valid() && n !in p.inst
      modifies p
      ensures p.Valid() && OrderListed(old(p.View()))
      ensures p.View() == Created(p.cfg, old(p.View()), n, priority, expression, options)
    {
      hide Ordered, AssignFree, ApplyTuning, CreateInstance, Owned;
      OrderedIsListed(p.View());
      CreateInstanceKeys(p.View(), n, priority, expression, options);
      var ok := p.CreateInstance(n, priority, expression, options);
      AssignKeepsInstances(p.cfg, p.View(), n);
      p.AssignFreeDevices(n);
      p.InstanceApplyTuning(n);
    }

    /** Take the matching devices over from the instance at position k, unless its priority is better. */
    method TakeOverFrom(k: nat, r: Ref)
      requires Valid() && k < |refs| && r in refs
      modifies plugins.Values
      ensures Valid() && refs == old(refs) && WellFormed(Fixed(), old(View())) && WellFormed(Fixed(), View())
      ensures TransferFrom(Fixed(), old(View()), k, r) == TransferFrom(Fixed(), View(), k + 1, r)
    {
      hide Ordered, Move, Owned, WellFormed, TransferFrom, Matching, H.Plugin.Valid;
      var other := refs[k];
      TransferNext(Fixed(), View(), k, r);
      ListedRefs(Fixed(), View(), other);
      ListedRefs(Fixed(), View(), r);
      var p := plugins[r.plugin];
      if other != r && other.plugin == r.plugin && p.inst[r.name].priority <= p.inst[other.name].priority {
        var moving := Matching(p.cfg, p.inst[r.name], p.inst[other.name].processed);
        MatchingAmong(p.cfg, p.inst[r.name], p.inst[other.name].processed);
        if moving != {} {
          MoveAt(r.plugin, other.name, r.name, moving);
        }
      }
    }

    /** `instance_create`. */
    method InstanceCreate(r: Ref, priority: int, expression: string, options: map<Command, Value>) returns (outcome: Outcome)
      requires Valid()
      modifies this, plugins.Values
      ensures Valid() && (View(), outcome) == Create(Fixed(), old(View()), r, priority, expression, options)
    {
      hide Ordered, Owned, WellFormed, Created, TransferFrom, H.Plugin.Valid;
      if r.plugin !in plugins {
        return NotFound;
      }
      if r.plugin !in hotplug {
        return NotHotplug;
      }
      if r.name in plugins[r.plugin].inst {
        return NameTaken;
      }
      CreateAt(r, priority, expression, options);
      outcome := DeviceSystem.Done;
      ghost var w := View();
      var k := 0;
      while k < |refs|
        invariant 0 <= k <= |refs| && Valid() && refs == w.refs && r in refs
        invariant TransferFrom(Fixed(), w, 0, r) == TransferFrom(Fixed(), View(), k, r)
      {
        TakeOverFrom(k, r);
        k := k + 1;
      }
      TransferDone(Fixed(), View(), r);
    }

    /** The devices go back through `_add_device` in any order, here `ds`. */
    method DestroyAt(r: Ref) returns (ghost ds: seq<Device>)
      requires Valid() && r in refs
      modifies this, plugins.Values
      ensures Valid() && refs == WithoutRef(old(refs), r)
      ensures Listed(old(View()), r) && Enumerates(ds, Processed(old(View()), r))
      ensures Ordered(Destroyed(Fixed().cfg[r.plugin], old(View()).plugins[r.plugin], r.name))
      ensures View().plugins == old(View()).plugins[r.plugin :=
                AddAll(Fixed().cfg[r.plugin], Destroyed(Fixed().cfg[r.plugin], old(View()).plugins[r.plugin], r.name), ds)]
    {
      hide Ordered, Owned, Destroyed, AddAll, WellFormed, H.Plugin.Valid;
      ghost var w := View();
      ListedRefs(Fixed(), w, r);
      var p := plugins[r.plugin];
      refs := WithoutRef(refs, r);
      ds := DestroyIn(p, r.name);
      ValidIsOrdered(p);
      DestroyWellFormed(Fixed(), w, r, p.View());
      ViewWith(w, r.plugin);
    }

    static method DestroyIn(p: H.Plugin, n: Name) returns (ghost ds: seq<Device>)
      requires p.Valid() && n in p.inst
      modifies p
      ensures p.Valid() && Enumerates(ds, old(p.inst)[n].processed)
      ensures Ordered(Destroyed(p.cfg, old(p.View()), n))
      ensures p.View() == AddAll(p.cfg, Destroyed(p.cfg, old(p.View()), n), ds)
      ensures p.inst.Keys == old(p.inst).Keys - {n}
    {
      hide Ordered, Owned, RemoveDevices, UnapplyTuning, PluginModel.DestroyInstance, PluginModel.AddDevice;
      var devices := p.inst[n].processed;
      ghost var s := p.View();
      DestroyedOrdered(p.cfg, s, n);
      H.RemoveKeys(p.cfg, s, n, devices);
      p.RemoveDevicesNocheck(n, devices);
      UnapplyKeys(p.cfg, p.View(), n);
      p.InstanceUnapplyTuning(n, true);
      p.DestroyInstance(n);
      ghost var t := p.View();
      var left := devices;
      ds := [];
      while left != {}
        invariant left <= devices && p.Valid() && p.inst.Keys == t.inst.Keys
        invariant Enumerates(ds, devices - left)
        invariant p.View() == AddAll(p.cfg, t, ds)
        decreases left
      {
        var d :| d in left;
        AddAllSnoc(p.cfg, t, ds, d);
        AddDeviceKeys(p.cfg, p.View(), d);
        p.AddDevice(d);
        ds := ds + [d];
        left := left - {d};
      }
      assert devices - left == devices;
    }

    /** `instance_destroy`. */
    method InstanceDestroy(name: Name) returns (outcome: Outcome, ghost ds: seq<Device>)
      requires Valid()
      modifies this, plugins.Values
      ensures Valid() && (View(), outcome) == Destroy(Fixed(), old(View()), name, ds)
      ensures outcome == DeviceSystem.Done ==>
                FindName(old(refs), name).Some? && Listed(old(View()), FindName(old(refs), name).value) &&
                Enumerates(ds, Processed(old(View()), FindName(old(refs), name).value))
    {
      hide Ordered, Owned, Destroyed, AddAll, WellFormed, Enumerates;
      ds := [];
      var found := FindInstance(name);
      if found.None? {
        return NotFound, ds;
      }
      FindNameListed(refs, name);
      if found.value.plugin !in hotplug {
        return NotHotplug, ds;
      }
      ds := DestroyAt(found.value);
      outcome := DeviceSystem.Done;
    }
  }

  /** Keep the enabled units that fit the machine, with their priority or the default one. */
  method Admit(configs: seq<UnitConfig>, defaultPriority: int) returns (units: seq<Unit>)
    ensures units == Admitted(configs, defaultPriority)
  {
    units := [];
    for i := 0 to |configs|
      invariant units == Admitted(configs[..i], defaultPriority)
    {
      assert configs[..i + 1][..i] == configs[..i];
      var u := configs[i];
      if u.enabled && u.fitsCpu && u.fitsUname {
        units := units + [Unit(u.ref, if u.priority.Some? then u.priority.value else defaultPriority, u.expression, u.options)];
      }
    }
    assert configs[..|configs|] == configs;
  }

  // ----- Facts the methods need -----

  lemma ValidIsOrdered(p: H.Plugin)
    requires p.Valid()
    ensures Ordered(p.View())
  {
  }

  /** One step of the stopping loop. */
  lemma StopNext(f: Fixed, sys: System, k: nat)
    requires WellFormed(f, sys) && 0 < k <= |sys.refs|
    ensures var r := sys.refs[k - 1];
            && Listed(sys, r)
            && var t := WithPlugin(sys, r.plugin, UnapplyTuning(f.cfg[r.plugin], sys.plugins[r.plugin], r.name));
               WellFormed(f, t) && StopTuning(f, sys, k) == StopTuning(f, t, k - 1)
  {
    hide UnapplyTuning, Ordered;
    var r := sys.refs[k - 1];
    assert Listed(sys, r);
    UnapplyKeys(f.cfg[r.plugin], sys.plugins[r.plugin], r.name);
    UnapplyOrdered(f.cfg[r.plugin], sys.plugins[r.plugin], r.name);
    WithPluginWellFormed(f, sys, r.plugin, UnapplyTuning(f.cfg[r.plugin], sys.plugins[r.plugin], r.name));
  }

  lemma UnapplyOrdered(cfg: Config, s: Plugin, n: Name)
    requires Ordered(s) && n in s.inst
    ensures Ordered(UnapplyTuning(cfg, s, n))
  {
    hide UntuneKnobs, UntuneStore;
  }

  lemma StopNone(f: Fixed, sys: System)
    requires WellFormed(f, sys)
    ensures StopTuning(f, sys, 0) == sys
  {
  }

  /** One step of the creating loop. */
  lemma CreateNext(f: Fixed, sys: System, rest: seq<Unit>)
    requires WellFormed(f, sys) && rest != [] && DistinctUnits(rest) && forall u :: u in rest ==> !Listed(sys, u.ref)
    ensures var t := CreateUnit(f, sys, rest[0]);
            && WellFormed(f, t) && DistinctUnits(rest[1..]) && (forall u :: u in rest[1..] ==> !Listed(t, u.ref))
            && CreateUnits(f, sys, rest) == CreateUnits(f, t, rest[1..])
  {
    hide WellFormed, CreateUnit, Listed;
    CreateUnitWellFormed(f, sys, rest[0]);
    forall u | u in rest[1..] ensures !Listed(CreateUnit(f, sys, rest[0]), u.ref) {
      assert u in rest && u.ref != rest[0].ref;
    }
  }

  /** One step of the loop that takes devices over. */
  lemma TransferNext(f: Fixed, sys: System, k: nat, target: Ref)
    requires WellFormed(f, sys) && k < |sys.refs| && target in sys.refs
    ensures Listed(sys, sys.refs[k]) && Listed(sys, target)
    ensures var r := sys.refs[k];
            var s := sys.plugins[target.plugin];
            if r == target || r.plugin != target.plugin || s.inst[target.name].priority > s.inst[r.name].priority then
              TransferFrom(f, sys, k, target) == TransferFrom(f, sys, k + 1, target)
            else
              var moving := Matching(f.cfg[target.plugin], s.inst[target.name], s.inst[r.name].processed);
              if moving == {} then TransferFrom(f, sys, k, target) == TransferFrom(f, sys, k + 1, target)
              else
                var t := MoveIn(f, sys, r.plugin, r.name, target.name, moving);
                WellFormed(f, t) && t.refs == sys.refs && TransferFrom(f, sys, k, target) == TransferFrom(f, t, k + 1, target)
  {
    hide Move, Ordered, Matching;
    var r := sys.refs[k];
    assert Listed(sys, r) && Listed(sys, target);
    if r.plugin == target.plugin {
      var s := sys.plugins[target.plugin];
      MoveWellFormed(f, sys, r.plugin, r.name, target.name,
                     Matching(f.cfg[target.plugin], s.inst[target.name], s.inst[r.name].processed));
    }
  }

  lemma BlankIsWellFormed(f: Fixed, sys: System)
    requires sys.plugins.Keys == f.cfg.Keys && sys.refs == []
    requires forall p :: p in sys.plugins ==> Ordered(sys.plugins[p]) && sys.plugins[p].inst == map[]
    ensures WellFormed(f, sys)
  {
  }

  lemma MatchingAmong(cfg: Config, i: Instance, D: set<Device>)
    ensures Matching(cfg, i, D) <= D
  {
  }

  lemma TransferDone(f: Fixed, sys: System, target: Ref)
    requires WellFormed(f, sys) && target in sys.refs
    ensures TransferFrom(f, sys, |sys.refs|, target) == sys
  {
  }

  lemma RestOfUnits(units: seq<Unit>, i: nat)
    requires DistinctUnits(units) && i < |units|
    ensures units[i..][0] == units[i] && units[i..][1..] == units[i + 1..] && units[i] in units[i..]
    ensures DistinctUnits(units[i..])
  {
    assert units[i..][0] == units[i];
  }

  lemma UnapplyKeys(cfg: Config, s: Plugin, n: Name)
    requires n in s.inst
    ensures UnapplyTuning(cfg, s, n).inst == s.inst
  {
    hide UntuneKnobs, UntuneStore;
  }

  lemma RemovedDevices(cfg: Config, s: Plugin, a: Name, D: set<Device>)
    requires a in s.inst && D <= s.inst[a].processed && Owned(s)
    ensures var t := RemoveDevices(cfg, s, a, D);
            D !! t.free && D !! t.claimed && t.inst.Keys == s.inst.Keys
  {
    hide UntuneKnobs, UntuneStore;
    RemoveDevicesOwned(cfg, s, a, D);
    assert Devices(s.inst[a]) <= s.claimed;
    assert D * s.inst[a].processed == D;
  }

  lemma ListedRefs(f: Fixed, sys: System, r: Ref)
    requires WellFormed(f, sys) && r in sys.refs
    ensures Listed(sys, r)
  {
  }

  lemma NoneListed(f: Fixed, sys: System)
    requires WellFormed(f, sys) && sys.refs == []
    ensures forall r :: !Listed(sys, r)
  {
  }

  lemma OrderedIsListed(s: Plugin)
    requires Ordered(s)
    ensures OrderListed(s)
  {
  }

  lemma AddDeviceKeys(cfg: Config, s: Plugin, d: Device)
    requires Ordered(s)
    ensures OrderListed(s) && AddDevice(cfg, s, d).inst.Keys == s.inst.Keys
  {
    hide AddDevice;
    EventsKeepInstances(cfg, s, d);
  }

  lemma {:induction false} AddAllSnoc(cfg: Config, s: Plugin, ds: seq<Device>, d: Device)
    requires Ordered(s)
    ensures Ordered(AddAll(cfg, s, ds))
    ensures AddAll(cfg, s, ds + [d]) == AddDevice(cfg, AddAll(cfg, s, ds), d)
    decreases |ds|
  {
    hide AddDevice;
    if ds == [] {
      assert (ds + [d])[1..] == [];
    } else {
      EventsKeepInstances(cfg, s, ds[0]);
      SameInstancesOrdered(s, AddDevice(cfg, s, ds[0]));
      AddAllSnoc(cfg, AddDevice(cfg, s, ds[0]), ds[1..], d);
      assert (ds + [d])[1..] == ds[1..] + [d];
    }
  }

  lemma DestroyWellFormed(f: Fixed, sys: System, r: Ref, t: Plugin)
    requires WellFormed(f, sys) && r in sys.refs && Listed(sys, r)
    requires Ordered(t) && t.inst.Keys == sys.plugins[r.plugin].inst.Keys - {r.name}
    ensures WellFormed(f, System(sys.plugins[r.plugin := t], WithoutRef(sys.refs, r)))
  {
    hide Ordered;
    WithoutRefDistinct(sys.refs, r);
    var u := System(sys.plugins[r.plugin := t], WithoutRef(sys.refs, r));
    assert forall q :: Listed(u, q) <==> Listed(sys, q) && q != r;
  }
}
