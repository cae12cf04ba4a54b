/** The plugin object: its device sets, instances, knobs and storage, updated in place by loops over
    commands and devices. Each method is proved to compute its specification function
    (tuned/plugins/base.py, tuned/plugins/hotplug.py). */
module HotplugPlugin {
  import opened Text
  import opened PluginModel
  import opened PluginInvariants

  // ----- Tuning in pieces -----

  /** The knobs of the third rectangle are those of the first two, which share none. */
  ghost predicate Splits(D1: set<Device>, C1: set<Command>, D2: set<Device>, C2: set<Command>, D3: set<Device>, C3: set<Command>) {
    forall k :: (Covers(k, D3, C3) <==> Covers(k, D1, C1) || Covers(k, D2, C2)) && !(Covers(k, D1, C1) && Covers(k, D2, C2))
  }

  lemma TuneKnobsInPieces(knobs: Knobs, o: map<Command, Value>, D1: set<Device>, C1: set<Command>,
                          D2: set<Device>, C2: set<Command>, D3: set<Device>, C3: set<Command>)
    requires Splits(D1, C1, D2, C2, D3, C3)
    ensures TuneKnobs(TuneKnobs(knobs, o, D1, C1), o, D2, C2) == TuneKnobs(knobs, o, D3, C3)
  {
    hide Written, Covers;
  }

  lemma TuneInPieces(knobs: Knobs, store: Store, n: Name, o: map<Command, Value>, D1: set<Device>, C1: set<Command>,
                     D2: set<Device>, C2: set<Command>, D3: set<Device>, C3: set<Command>)
    requires Splits(D1, C1, D2, C2, D3, C3)
    ensures TuneKnobs(TuneKnobs(knobs, o, D1, C1), o, D2, C2) == TuneKnobs(knobs, o, D3, C3)
    ensures TuneStore(TuneStore(store, knobs, n, o, D1, C1), TuneKnobs(knobs, o, D1, C1), n, o, D2, C2) ==
            TuneStore(store, knobs, n, o, D3, C3)
  {
    hide Written, Covers, TuneStore, Saves;
    TuneKnobsInPieces(knobs, o, D1, C1, D2, C2, D3, C3);
    var mid := TuneKnobs(knobs, o, D1, C1);
    var first := TuneStore(store, knobs, n, o, D1, C1);
    TuneStoreMembers(store, knobs, n, o, D1, C1);
    TuneStoreMembers(first, mid, n, o, D2, C2);
    TuneStoreMembers(store, knobs, n, o, D3, C3);
    var a, b := TuneStore(first, mid, n, o, D2, C2), TuneStore(store, knobs, n, o, D3, C3);
    forall key
      ensures SavedBy(key, knobs, n, o, D3, C3) <==> SavedBy(key, knobs, n, o, D1, C1) || SavedBy(key, mid, n, o, D2, C2)
      ensures SavedBy(key, mid, n, o, D2, C2) ==> mid[key.knob] == knobs[key.knob]
      ensures !(SavedBy(key, knobs, n, o, D1, C1) && SavedBy(key, mid, n, o, D2, C2))
    {
    }
    assert a.Keys == b.Keys;
    assert forall key :: key in a ==> a[key] == b[key];
  }

  lemma UntuneInPieces(knobs: Knobs, store: Store, n: Name, o: map<Command, Value>, D1: set<Device>, C1: set<Command>,
                       D2: set<Device>, C2: set<Command>, D3: set<Device>, C3: set<Command>)
    requires Splits(D1, C1, D2, C2, D3, C3)
    ensures UntuneStore(UntuneStore(store, n, o, D1, C1), n, o, D2, C2) == UntuneStore(store, n, o, D3, C3)
    ensures UntuneKnobs(UntuneKnobs(knobs, store, n, o, D1, C1), UntuneStore(store, n, o, D1, C1), n, o, D2, C2) ==
            UntuneKnobs(knobs, store, n, o, D3, C3)
  {
    assert UntuneStore(UntuneStore(store, n, o, D1, C1), n, o, D2, C2).Keys == UntuneStore(store, n, o, D3, C3).Keys;
  }

  lemma TuneNothing(knobs: Knobs, store: Store, n: Name, o: map<Command, Value>, D: set<Device>, C: set<Command>)
    requires D == {} || C == {} || forall c :: c in C ==> c !in o
    ensures TuneKnobs(knobs, o, D, C) == knobs && TuneStore(store, knobs, n, o, D, C) == store
    ensures UntuneKnobs(knobs, store, n, o, D, C) == knobs && UntuneStore(store, n, o, D, C) == store
  {
    hide TuneStore, UntuneStore, TuneKnobs, UntuneKnobs, ProcessModifiers;
    TuneKnobsNothing(knobs, o, D, C);
    UntuneNothing(knobs, store, n, o, D, C);
    TuneStoreMembers(store, knobs, n, o, D, C);
    assert forall key :: !SavedBy(key, knobs, n, o, D, C);
  }

  lemma TuneKnobsNothing(knobs: Knobs, o: map<Command, Value>, D: set<Device>, C: set<Command>)
    requires D == {} || C == {} || forall c :: c in C ==> c !in o
    ensures TuneKnobs(knobs, o, D, C) == knobs
  {
    hide ProcessModifiers;
  }

  lemma UntuneNothing(knobs: Knobs, store: Store, n: Name, o: map<Command, Value>, D: set<Device>, C: set<Command>)
    requires D == {} || C == {} || forall c :: c in C ==> c !in o
    ensures UntuneKnobs(knobs, store, n, o, D, C) == knobs && UntuneStore(store, n, o, D, C) == store
  {
  }

  ghost predicate DistinctCommands(commands: seq<Command>) {
    forall a, b :: 0 <= a < b < |commands| ==> commands[a] != commands[b]
  }

  ghost function Done(commands: seq<Command>, i: nat): set<Command>
    requires i <= |commands|
  {
    set c | c in commands[..i]
  }

  lemma DoneNext(commands: seq<Command>, i: nat)
    requires i < |commands| && DistinctCommands(commands)
    ensures commands[i] !in Done(commands, i)
    ensures Done(commands, i + 1) == Done(commands, i) + {commands[i]}
  {
  }

  ghost function Remaining(commands: seq<Command>, i: nat): set<Command>
    requires i <= |commands|
  {
    set c | c in commands[i..]
  }

  lemma RemainingNext(commands: seq<Command>, i: nat)
    requires 0 < i <= |commands| && DistinctCommands(commands)
    ensures commands[i - 1] !in Remaining(commands, i)
    ensures Remaining(commands, i - 1) == Remaining(commands, i) + {commands[i - 1]}
  {
    assert commands[i - 1..] == [commands[i - 1]] + commands[i..];
  }

  // ----- Moving devices one by one -----

  lemma AddInPieces(cfg: Config, s: PluginModel.Plugin, n: Name, E: set<Device>, d: Device)
    requires n in s.inst && d !in E
    ensures AddDevices(cfg, AddDevices(cfg, s, n, E), n, {d}) == AddDevices(cfg, s, n, E + {d})
  {
    hide TuneKnobs, TuneStore;
    TuneInPieces(s.knobs, s.store, n, s.inst[n].options, E, CommandSet(cfg), {d}, CommandSet(cfg), E + {d}, CommandSet(cfg));
    var a, b := AddDevices(cfg, AddDevices(cfg, s, n, E), n, {d}), AddDevices(cfg, s, n, E + {d});
    assert a.claimed == b.claimed;
    assert a.inst[n].processed == b.inst[n].processed;
  }

  lemma RemoveInPieces(cfg: Config, s: PluginModel.Plugin, n: Name, E: set<Device>, d: Device)
    requires n in s.inst && d !in E
    ensures RemoveDevices(cfg, RemoveDevices(cfg, s, n, E), n, {d}) == RemoveDevices(cfg, s, n, E + {d})
  {
    hide UntuneKnobs, UntuneStore;
    var P := s.inst[n].processed;
    var t := RemoveDevices(cfg, s, n, E);
    var a, b := RemoveDevices(cfg, t, n, {d}), RemoveDevices(cfg, s, n, E + {d});
    assert {d} * t.inst[n].processed == {d} * P;
    if E * P == {} {
      assert (E + {d}) * P == {d} * P;
    } else if d !in P {
      assert {d} * P == {};
      assert (E + {d}) * P == E * P;
    } else {
      assert {d} * P == {d} && d in {d} * P && d in (E + {d}) * P;
      assert (E + {d}) * P == E * P + {d};
      UntuneInPieces(s.knobs, s.store, n, s.inst[n].options, E * P, CommandSet(cfg), {d}, CommandSet(cfg), E * P + {d}, CommandSet(cfg));
      assert a.claimed == b.claimed;
      assert a.inst[n].processed == b.inst[n].processed;
    }
  }

  lemma AddNone(cfg: Config, s: PluginModel.Plugin, n: Name)
    requires n in s.inst
    ensures AddDevices(cfg, s, n, {}) == s
  {
    hide TuneKnobs, TuneStore;
    TuneNothing(s.knobs, s.store, n, s.inst[n].options, {}, CommandSet(cfg));
    var t := AddDevices(cfg, s, n, {});
    assert t.claimed == s.claimed && t.inst[n].processed == s.inst[n].processed;
  }

  lemma RemoveNone(cfg: Config, s: PluginModel.Plugin, n: Name)
    requires n in s.inst
    ensures RemoveDevices(cfg, s, n, {}) == s
  {
    hide UntuneKnobs, UntuneStore;
  }

  lemma RemoveKeys(cfg: Config, s: PluginModel.Plugin, n: Name, D: set<Device>)
    requires n in s.inst
    ensures RemoveDevices(cfg, s, n, D).inst.Keys == s.inst.Keys
  {
    hide UntuneKnobs, UntuneStore;
  }

  /** A list ordered by priority has one place for a new instance. */
  lemma OnePlace(s: PluginModel.Plugin, order: seq<Name>, priority: int, i: nat, k: nat)
    requires (forall m :: m in order ==> m in s.inst) && i <= |order| && k <= |order|
    requires forall j :: 0 <= j < i || 0 <= j < k ==> s.inst[order[j]].priority <= priority
    requires i == |order| || priority < s.inst[order[i]].priority
    requires k == |order| || priority < s.inst[order[k]].priority
    ensures k == i
  {
  }

  lemma UnapplyOwned(cfg: Config, s: PluginModel.Plugin, n: Name)
    requires n in s.inst && Owned(s) && Ordered(s)
    ensures Owned(UnapplyTuning(cfg, s, n)) && Ordered(UnapplyTuning(cfg, s, n))
  {
    hide UntuneKnobs, UntuneStore;
  }

  lemma CreateInstanceOwned(s: PluginModel.Plugin, n: Name, priority: int, expression: string, options: map<Command, Value>)
    requires OrderListed(s) && Owned(s) && n !in s.inst
    ensures Owned(CreateInstance(s, n, priority, expression, options))
  {
    hide InsertByPriority;
    var t := CreateInstance(s, n, priority, expression, options);
    forall d | d in t.claimed ensures exists m :: m in t.inst && d in Devices(t.inst[m]) {
      var m :| m in s.inst && d in Devices(s.inst[m]);
      assert d in Devices(t.inst[m]);
    }
  }

  class Plugin {
    const cfg: Config
    var free: set<Device>
    var claimed: set<Device>
    var order: seq<Name>
    var inst: map<Name, Instance>
    var knobs: Knobs
    var store: Store

    ghost function View(): PluginModel.Plugin
      reads this
    {
      PluginModel.Plugin(free, claimed, order, inst, knobs, store)
    }

    ghost predicate Valid()
      reads this
    {
      Owned(View()) && Ordered(View()) && DistinctCommands(cfg.commands)
    }

    /** A plugin that has found its devices and has no instances. */
    constructor (cfg: Config, devices: set<Device>, knobs: Knobs)
      requires DistinctCommands(cfg.commands)
      ensures Valid() && this.cfg == cfg
      ensures View() == PluginModel.Plugin(devices, {}, [], map[], knobs, map[])
    {
      this.cfg := cfg;
      free, claimed, order, inst, this.knobs, store := devices, {}, [], map[], knobs, map[];
    }

    // ----- Commands -----

    /** Save the current value, unless nothing is to be written, and write the new one. */
    method ExecuteDeviceCommand(n: Name, c: Command, d: Device, request: Value)
      requires n in inst && c in inst[n].options && request == inst[n].options[c]
      modifies this`knobs, this`store
      ensures knobs == TuneKnobs(old(knobs), inst[n].options, {d}, {c})
      ensures store == TuneStore(old(store), old(knobs), n, inst[n].options, {d}, {c})
    {
      hide TuneStore, ProcessModifiers;
      var k := Knob(d, c);
      var current := if k in knobs then Some(knobs[k]) else None;
      var value := ProcessModifiers(request, current);
      if value.Some? && current.Some? {
        store := store[Key(n, k) := current.value];
      }
      if value.Some? && k in knobs {
        knobs := knobs[k := value.value];
      }
      TuneStoreMembers(old(store), old(knobs), n, inst[n].options, {d}, {c});
      assert store.Keys == TuneStore(old(store), old(knobs), n, inst[n].options, {d}, {c}).Keys;
    }

    method ExecuteAllDeviceCommands(n: Name, devices: set<Device>)
      requires DistinctCommands(cfg.commands) && n in inst
      modifies this`knobs, this`store
      ensures View() == Tune(cfg, old(View()), n, devices)
    {
      hide TuneKnobs, TuneStore, UntuneKnobs, UntuneStore;
      ghost var o, knobs0, store0 := inst[n].options, knobs, store;
      var i := 0;
      TuneNothing(knobs, store, n, o, devices, Done(cfg.commands, 0));
      while i < |cfg.commands|
        invariant 0 <= i <= |cfg.commands|
        invariant knobs == TuneKnobs(knobs0, o, devices, Done(cfg.commands, i))
        invariant store == TuneStore(store0, knobs0, n, o, devices, Done(cfg.commands, i))
      {
        var c := cfg.commands[i];
        DoneNext(cfg.commands, i);
        if c in inst[n].options {
          ExecuteOnDevices(n, c, devices);
        } else {
          TuneNothing(knobs, store, n, o, devices, {c});
        }
        TuneInPieces(knobs0, store0, n, o, devices, Done(cfg.commands, i), devices, {c}, devices, Done(cfg.commands, i + 1));
        i := i + 1;
      }
      assert cfg.commands[..|cfg.commands|] == cfg.commands;
      assert Done(cfg.commands, |cfg.commands|) == CommandSet(cfg);
    }

    /** One command on every device, in any order. */
    method ExecuteOnDevices(n: Name, c: Command, devices: set<Device>)
      requires n in inst && c in inst[n].options
      modifies this`knobs, this`store
      ensures knobs == TuneKnobs(old(knobs), inst[n].options, devices, {c})
      ensures store == TuneStore(old(store), old(knobs), n, inst[n].options, devices, {c})
    {
      hide TuneKnobs, TuneStore, UntuneKnobs, UntuneStore;
      ghost var o, knobs0, store0 := inst[n].options, knobs, store;
      var left := devices;
      TuneNothing(knobs, store, n, o, {}, {c});
      assert devices - left == {};
      while left != {}
        invariant left <= devices
        invariant knobs == TuneKnobs(knobs0, o, devices - left, {c})
        invariant store == TuneStore(store0, knobs0, n, o, devices - left, {c})
        decreases left
      {
        var d :| d in left;
        ExecuteDeviceCommand(n, c, d, inst[n].options[c]);
        TuneInPieces(knobs0, store0, n, o, devices - left, {c}, {d}, {c}, devices - (left - {d}), {c});
        left := left - {d};
      }
      assert devices - left == devices;
    }

    /** Write the saved value back, if there is one, and forget it. */
    method CleanupDeviceCommand(n: Name, c: Command, d: Device)
      requires n in inst && c in inst[n].options
      modifies this`knobs, this`store
      ensures knobs == UntuneKnobs(old(knobs), old(store), n, inst[n].options, {d}, {c})
      ensures store == UntuneStore(old(store), n, inst[n].options, {d}, {c})
    {
      var k := Knob(d, c);
      if Key(n, k) in store && k in knobs {
        knobs := knobs[k := store[Key(n, k)]];
      }
      store := store - {Key(n, k)};
      assert store.Keys == UntuneStore(old(store), n, inst[n].options, {d}, {c}).Keys;
    }

    /** The commands in reverse order. */
    method CleanupAllDeviceCommands(n: Name, devices: set<Device>)
      requires DistinctCommands(cfg.commands) && n in inst
      modifies this`knobs, this`store
      ensures View() == Untune(cfg, old(View()), n, devices)
    {
      hide TuneKnobs, TuneStore, UntuneKnobs, UntuneStore;
      ghost var o, knobs0, store0 := inst[n].options, knobs, store;
      var i := |cfg.commands|;
      TuneNothing(knobs, store, n, o, devices, Remaining(cfg.commands, i));
      while i > 0
        invariant 0 <= i <= |cfg.commands|
        invariant knobs == UntuneKnobs(knobs0, store0, n, o, devices, Remaining(cfg.commands, i))
        invariant store == UntuneStore(store0, n, o, devices, Remaining(cfg.commands, i))
      {
        var c := cfg.commands[i - 1];
        RemainingNext(cfg.commands, i);
        if c in inst[n].options {
          CleanupOnDevices(n, c, devices);
        } else {
          TuneNothing(knobs, store, n, o, devices, {c});
        }
        UntuneInPieces(knobs0, store0, n, o, devices, Remaining(cfg.commands, i), devices, {c}, devices, Remaining(cfg.commands, i - 1));
        i := i - 1;
      }
      assert cfg.commands[0..] == cfg.commands;
      assert Remaining(cfg.commands, 0) == CommandSet(cfg);
    }

    method CleanupOnDevices(n: Name, c: Command, devices: set<Device>)
      requires n in inst && c in inst[n].options
      modifies this`knobs, this`store
      ensures knobs == UntuneKnobs(old(knobs), old(store), n, inst[n].options, devices, {c})
      ensures store == UntuneStore(old(store), n, inst[n].options, devices, {c})
    {
      hide TuneKnobs, TuneStore, UntuneKnobs, UntuneStore;
      ghost var o, knobs0, store0 := inst[n].options, knobs, store;
      var left := devices;
      TuneNothing(knobs, store, n, o, {}, {c});
      assert devices - left == {};
      while left != {}
        invariant left <= devices
        invariant knobs == UntuneKnobs(knobs0, store0, n, o, devices - left, {c})
        invariant store == UntuneStore(store0, n, o, devices - left, {c})
        decreases left
      {
        var d :| d in left;
        CleanupDeviceCommand(n, c, d);
        UntuneInPieces(knobs0, store0, n, o, devices - left, {c}, {d}, {c}, devices - (left - {d}), {c});
        left := left - {d};
      }
      assert devices - left == devices;
    }

    // ----- Moving devices -----

    /** Without a check: the device may be free or belong to another instance, and the ownership of devices is
        kept if it does not. */
    method AddDeviceProcess(n: Name, d: Device)
      requires DistinctCommands(cfg.commands) && n in inst
      modifies this
      ensures View() == AddDevices(cfg, old(View()), n, {d})
      ensures old(Valid()) && d !in old(free) && d !in old(claimed) ==> Valid()
    {
      hide TuneKnobs, TuneStore, Owned, Ordered;
      claimed := claimed + {d};
      ExecuteAllDeviceCommands(n, {d});
      inst := inst[n := inst[n].(processed := inst[n].processed + {d})];
      if old(Valid()) && d !in old(free) && d !in old(claimed) {
        AddDevicesOwned(cfg, old(View()), n, {d});
        SameInstancesOrdered(old(View()), View());
      }
    }

    method AddDevicesNocheck(n: Name, devices: set<Device>)
      requires DistinctCommands(cfg.commands) && n in inst
      modifies this
      ensures View() == PluginModel.AddDevicesNocheck(cfg, old(View()), n, devices)
      ensures old(Valid()) && devices !! old(free) && devices !! old(claimed) ==> Valid()
    {
      hide TuneKnobs, TuneStore, Owned, Ordered;
      ghost var s := View();
      var left := devices;
      AddNone(cfg, s, n);
      assert devices - left == {};
      while left != {}
        invariant left <= devices && n in inst
        invariant View() == AddDevices(cfg, s, n, devices - left)
        decreases left
      {
        var d :| d in left;
        AddDeviceProcess(n, d);
        AddInPieces(cfg, s, n, devices - left, d);
        assert devices - left + {d} == devices - (left - {d});
        left := left - {d};
      }
      assert devices - left == devices;
      ghost var t := View();
      inst := inst[n := inst[n].(active := HasDevices(inst[n]))];
      if old(Valid()) && devices !! old(free) && devices !! old(claimed) {
        AddDevicesOwned(cfg, s, n, devices);
        FlagOwned(t, n, HasDevices(t.inst[n]));
        SameInstancesOrdered(s, View());
      }
    }

    method RemoveDeviceProcess(n: Name, d: Device) returns (removed: bool)
      requires Valid() && n in inst
      modifies this
      ensures Valid() && View() == RemoveDevices(cfg, old(View()), n, {d})
      ensures removed == (d in old(inst)[n].processed)
    {
      hide UntuneKnobs, UntuneStore, Owned, Ordered;
      ghost var s := View();
      removed := d in inst[n].processed;
      if !removed {
        assert {d} * inst[n].processed == {};
      } else {
        assert {d} * s.inst[n].processed == {d} && d in {d} * s.inst[n].processed;
        CleanupAllDeviceCommands(n, {d});
        inst := inst[n := inst[n].(processed := inst[n].processed - {d})];
        inst := inst[n := inst[n].(active := HasDevices(inst[n]))];
        claimed := claimed - {d};
        assert View() == RemoveDevices(cfg, s, n, {d});
        RemoveDevicesOwned(cfg, s, n, {d});
        SameInstancesOrdered(s, View());
      }
    }

    method RemoveDevicesNocheck(n: Name, devices: set<Device>)
      requires Valid() && n in inst
      modifies this
      ensures Valid() && View() == RemoveDevices(cfg, old(View()), n, devices)
    {
      hide RemoveDevices, Owned, Ordered;
      ghost var s := View();
      var left := devices;
      RemoveNone(cfg, s, n);
      assert devices - left == {};
      while left != {}
        invariant left <= devices && Valid() && inst.Keys == s.inst.Keys
        invariant View() == RemoveDevices(cfg, s, n, devices - left)
        decreases left
      {
        var d :| d in left;
        RemoveKeys(cfg, View(), n, {d});
        var removed := RemoveDeviceProcess(n, d);
        RemoveInPieces(cfg, s, n, devices - left, d);
        assert devices - left + {d} == devices - (left - {d});
        left := left - {d};
      }
      assert devices - left == devices;
    }

    /** Give a new device to the first instance that matches it, or keep it free. */
    method AddDevice(d: Device)
      requires Valid()
      modifies this
      ensures Valid() && View() == PluginModel.AddDevice(cfg, old(View()), d)
    {
      hide AddDevices, Owned;
      if d in claimed || d in free {
        return;
      }
      var i := 0;
      assert order[0..] == order;
      while i < |order|
        invariant 0 <= i <= |order| && unchanged(this)
        invariant FirstMatch(cfg, View(), order[i..], d) == FirstMatch(cfg, View(), order, d)
      {
        if cfg.matches(inst[order[i]].expression, d) {
          AddDeviceProcess(order[i], d);
          return;
        }
        assert order[i..][1..] == order[i + 1..];
        i := i + 1;
      }
      FirstMatchListed(cfg, View(), order, d);
      ClaimedNotFree(View());
      FreeOwned(View(), free + {d});
      free := free + {d};
    }

    /** Take a device away from the instance that has processed it, or from the free pool. */
    method RemoveDevice(d: Device)
      requires Valid()
      modifies this
      ensures Valid() && View() == PluginModel.RemoveDevice(cfg, old(View()), d)
    {
      hide Owned;
      if d !in claimed && d !in free {
        return;
      }
      var i := 0;
      assert order[0..] == order;
      while i < |order|
        invariant 0 <= i <= |order| && View() == old(View()) && Valid()
        invariant FirstOwner(View(), order[i..], d) == FirstOwner(View(), order, d)
      {
        assert order[i..][1..] == order[i + 1..];
        assert d !in inst[order[i]].processed ==> {d} * inst[order[i]].processed == {};
        var removed := RemoveDeviceProcess(order[i], d);
        if removed {
          return;
        }
        i := i + 1;
      }
      FirstOwnerListed(View(), order, d);
      ClaimedNotFree(View());
      FreeOwned(View(), free - {d});
      free := free - {d};
    }

    method AssignFreeDevices(n: Name)
      requires Valid() && n in inst
      modifies this
      ensures Valid() && View() == AssignFree(cfg, old(View()), n)
    {
      hide Owned, Ordered, Matching;
      var taken := Matching(cfg, inst[n], free);
      AssignFreeOwned(cfg, View(), n);
      AssignKeepsInstances(cfg, View(), n);
      inst := inst[n := inst[n].(active := taken != {})];
      if taken != {} {
        inst := inst[n := inst[n].(pending := inst[n].pending + taken)];
        claimed := claimed + taken;
        free := free - taken;
      } else {
        assert inst[n].pending + taken == inst[n].pending && claimed + taken == claimed && free - taken == free;
      }
      assert inst == AssignFree(cfg, old(View()), n).inst;
    }

    method InstanceApplyTuning(n: Name)
      requires Valid() && n in inst
      modifies this
      ensures Valid() && View() == ApplyTuning(cfg, old(View()), n)
    {
      hide TuneKnobs, TuneStore, Owned, Ordered;
      if !inst[n].active {
        return;
      }
      ApplyTuningOwned(cfg, View(), n);
      ApplyKeepsInstances(cfg, View(), n);
      ExecuteAllDeviceCommands(n, inst[n].pending);
      inst := inst[n := inst[n].(processed := inst[n].processed + inst[n].pending, pending := {})];
    }

    method InstanceUnapplyTuning(n: Name, rollback: bool)
      requires Valid() && n in inst
      modifies this
      ensures Valid() && View() == if rollback then UnapplyTuning(cfg, old(View()), n) else old(View())
    {
      hide UntuneKnobs, UntuneStore, Owned;
      if !rollback {
        return;
      }
      CleanupAllDeviceCommands(n, inst[n].processed);
      UnapplyOwned(cfg, old(View()), n);
    }

    // ----- Instances -----

    /** Refuses a name already in use. */
    method CreateInstance(n: Name, priority: int, expression: string, options: map<Command, Value>) returns (ok: bool)
      requires Valid()
      modifies this
      ensures Valid() && ok == (n !in old(inst))
      ensures View() == if ok then PluginModel.CreateInstance(old(View()), n, priority, expression, options) else old(View())
    {
      hide Owned, Distinct, ByPriority, InsertByPriority;
      if n in inst {
        return false;
      }
      ok := true;
      var i := 0;
      while i < |order| && inst[order[i]].priority <= priority
        invariant 0 <= i <= |order| && unchanged(this)
        invariant forall j :: 0 <= j < i ==> inst[order[j]].priority <= priority
      {
        i := i + 1;
      }
      ghost var place := InsertAt(View(), order, n, priority);
      OnePlace(View(), order, priority, i, place);
      CreateInstanceOrdered(View(), n, priority, expression, options);
      CreateInstanceOwned(View(), n, priority, expression, options);
      order := order[..i] + [n] + order[i..];
      inst := inst[n := Instance(priority, expression, options, true, {}, {})];
    }

    method ReleaseDevices(n: Name)
      requires n in inst
      modifies this
      ensures View() == Release(old(View()), n)
    {
      var released := (inst[n].processed + inst[n].pending) * claimed;
      inst := inst[n := inst[n].(active := false, processed := {}, pending := {})];
      claimed := claimed - released;
      free := free + released;
    }

    method DestroyInstance(n: Name)
      requires Valid() && n in inst
      modifies this
      ensures Valid() && View() == PluginModel.DestroyInstance(old(View()), n)
    {
      hide Owned, Ordered;
      DestroyOwned(View(), n);
      DestroyOrdered(View(), n);
      ReleaseDevices(n);
      order := Without(order, n);
      inst := inst - {n};
    }
  }
}
