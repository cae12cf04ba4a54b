/** What tuning writes: over every run, a knob of a tuned device holds what the option of the device's instance makes
    of the original value, and every other knob holds its original
    (tuned/plugins/base.py). */
module TuningRuns {
  import opened Text
  import opened PluginModel
  import opened Modifiers
  import opened PluginInvariants
  import opened DeviceSystem
  import opened RollbackRuns

  // ----- One knob -----

  lemma WrittenCarries(options: map<Command, Value>, c: Command, v: Value)
    ensures c in options ==> Carries(options[c], v, Written(options, c, v))
    ensures c !in options ==> Written(options, c, v) == v
  {
    hide ProcessModifiers, Carries;
    if c in options { ProcessCarries(options[c], v); }
  }

  /** Instance n has an option for the knob, and the device is one of D. */
  ghost predicate Requests(cfg: Config, s: Plugin, n: Name, D: set<Device>, k: Knob)
    requires n in s.inst
  {
    k.device in D && k.command in cfg.commands && k.command in s.inst[n].options
  }

  lemma TuneWrites(cfg: Config, s: Plugin, n: Name, D: set<Device>, k: Knob)
    requires n in s.inst && k in s.knobs
    ensures var t := Tune(cfg, s, n, D);
            && k in t.knobs
            && (Requests(cfg, s, n, D, k) ==> Carries(s.inst[n].options[k.command], s.knobs[k], t.knobs[k]))
            && (!Requests(cfg, s, n, D, k) ==> t.knobs[k] == s.knobs[k])
  {
    hide TuneStore, Written, Carries;
    WrittenCarries(s.inst[n].options, k.command, s.knobs[k]);
  }

  /** Applying an active instance carries its options out on the devices it has not tuned yet, and touches no other
      knob. */
  lemma ApplyWrites(cfg: Config, s: Plugin, n: Name, k: Knob)
    requires n in s.inst && k in s.knobs
    ensures var i, t := s.inst[n], ApplyTuning(cfg, s, n);
            && k in t.knobs
            && if i.active && k.device in i.pending && k.command in cfg.commands && k.command in i.options
               then Carries(i.options[k.command], s.knobs[k], t.knobs[k])
               else t.knobs[k] == s.knobs[k]
  {
    hide TuneStore, TuneKnobs, Carries;
    TuneWrites(cfg, s, n, s.inst[n].pending, k);
  }

  // ----- What the operations of a plugin keep -----

  ghost predicate Tuned(cfg: Config, s: Plugin, orig: Knobs) {
    && orig.Keys == s.knobs.Keys
    && forall n, k :: n in s.inst && k in s.knobs && Requests(cfg, s, n, s.inst[n].processed, k) ==>
         Carries(s.inst[n].options[k.command], orig[k], s.knobs[k])
  }

  lemma TunedFrame(cfg: Config, s: Plugin, t: Plugin, orig: Knobs)
    requires Tuned(cfg, s, orig) && t.knobs == s.knobs
    requires forall n :: n in t.inst ==>
               t.inst[n].processed == {} ||
               (n in s.inst && t.inst[n].processed <= s.inst[n].processed && t.inst[n].options == s.inst[n].options)
    ensures Tuned(cfg, t, orig)
  {
    hide Carries;
    forall n, k | n in t.inst && k in t.knobs && Requests(cfg, t, n, t.inst[n].processed, k)
      ensures Carries(t.inst[n].options[k.command], orig[k], t.knobs[k])
    {
      assert Requests(cfg, s, n, s.inst[n].processed, k);
    }
  }

  lemma AddDevicesTuned(cfg: Config, s: Plugin, n: Name, D: set<Device>, orig: Knobs)
    requires n in s.inst && Saved(cfg, s, orig) && Tuned(cfg, s, orig)
    requires forall m :: m in s.inst ==> D !! s.inst[m].processed
    ensures Tuned(cfg, AddDevices(cfg, s, n, D), orig)
  {
    hide TuneStore, TuneKnobs, Carries, Saved;
    var t := AddDevices(cfg, s, n, D);
    assert t.knobs == Tune(cfg, s, n, D).knobs;
    SameKnobs(s.knobs, s.inst[n].options, D, CommandSet(cfg));
    OriginalsKnown(cfg, s, orig);
    forall m, k | m in t.inst && k in t.knobs && Requests(cfg, t, m, t.inst[m].processed, k)
      ensures Carries(t.inst[m].options[k.command], orig[k], t.knobs[k])
    {
      TuneWrites(cfg, s, n, D, k);
      if k.device in D {
        assert m == n;
        UntunedIsOriginal(cfg, s, D, orig, k);
      } else {
        assert Requests(cfg, s, m, s.inst[m].processed, k);
      }
    }
  }

  lemma SameKnobs(knobs: Knobs, options: map<Command, Value>, D: set<Device>, C: set<Command>)
    ensures TuneKnobs(knobs, options, D, C).Keys == knobs.Keys
  {
  }

  lemma OriginalsKnown(cfg: Config, s: Plugin, orig: Knobs)
    requires Saved(cfg, s, orig)
    ensures orig.Keys == s.knobs.Keys
  {
  }

  lemma UntunedIsOriginal(cfg: Config, s: Plugin, D: set<Device>, orig: Knobs, k: Knob)
    requires Saved(cfg, s, orig) && k in s.knobs && k.device in D
    requires forall m :: m in s.inst ==> D !! s.inst[m].processed
    ensures s.knobs[k] == orig[k]
  {
    NoKeyOutside(cfg, s, D, orig, k);
  }

  lemma RemoveDevicesTuned(cfg: Config, s: Plugin, n: Name, D: set<Device>, orig: Knobs)
    requires n in s.inst && Owned(s) && Tuned(cfg, s, orig)
    ensures Tuned(cfg, RemoveDevices(cfg, s, n, D), orig)
  {
    hide Carries, UntuneStore, Owned;
    var t, E := RemoveDevices(cfg, s, n, D), D * s.inst[n].processed;
    forall m, k | m in t.inst && k in t.knobs && Requests(cfg, t, m, t.inst[m].processed, k)
      ensures Carries(t.inst[m].options[k.command], orig[k], t.knobs[k])
    {
      assert Requests(cfg, s, m, s.inst[m].processed, k);
      if m != n { OneProcesses(s, m, n, k.device); }
      assert k.device !in E;
      assert t.knobs[k] == s.knobs[k];
    }
  }

  lemma OneProcesses(s: Plugin, m: Name, n: Name, d: Device)
    requires Owned(s) && m in s.inst && n in s.inst && m != n && d in s.inst[m].processed
    ensures d !in s.inst[n].processed
  {
    assert d in Devices(s.inst[m]) && Devices(s.inst[m]) !! Devices(s.inst[n]);
  }

  lemma AddOutsideTuned(cfg: Config, s: Plugin, n: Name, D: set<Device>, orig: Knobs)
    requires n in s.inst && Inv(cfg, s, orig) && Tuned(cfg, s, orig) && D !! s.claimed
    ensures Tuned(cfg, AddDevices(cfg, s, n, D), orig)
    ensures Tuned(cfg, AddDevicesNocheck(cfg, s, n, D), orig)
  {
    hide AddDevices, Owned, Saved, Ordered, Tuned;
    OutsideProcessed(s, D);
    AddDevicesTuned(cfg, s, n, D, orig);
    AddDevicesKeys(cfg, s, n, D);
    TunedFrame(cfg, AddDevices(cfg, s, n, D), AddDevicesNocheck(cfg, s, n, D), orig);
  }

  lemma MoveTuned(cfg: Config, s: Plugin, a: Name, b: Name, D: set<Device>, orig: Knobs)
    requires a in s.inst && b in s.inst && D <= s.inst[a].processed && Inv(cfg, s, orig) && Tuned(cfg, s, orig)
    ensures Tuned(cfg, Move(cfg, s, a, b, D), orig)
  {
    hide RemoveDevices, AddDevicesNocheck, AddDevices, Owned, Saved, Ordered, Tuned;
    RemoveDevicesKeepInstances(cfg, s, a, D);
    RemoveDevicesOwned(cfg, s, a, D);
    assert D * s.inst[a].processed == D;
    RemoveDevicesInv(cfg, s, a, D, orig);
    RemoveDevicesTuned(cfg, s, a, D, orig);
    AddOutsideTuned(cfg, RemoveDevices(cfg, s, a, D), b, D, orig);
  }

  lemma ApplyTuningTuned(cfg: Config, s: Plugin, n: Name, orig: Knobs)
    requires n in s.inst && Inv(cfg, s, orig) && Tuned(cfg, s, orig)
    ensures Tuned(cfg, ApplyTuning(cfg, s, n), orig)
  {
    hide TuneKnobs, TuneStore, Saved, Ordered, Tuned;
    var i := s.inst[n];
    if i.active {
      forall m | m in s.inst ensures i.pending !! s.inst[m].processed {
        if m != n { assert Devices(s.inst[m]) !! Devices(i); }
      }
      AddDevicesTuned(cfg, s, n, i.pending, orig);
      TunedFrame(cfg, AddDevices(cfg, s, n, i.pending), ApplyTuning(cfg, s, n), orig);
    }
  }

  lemma AddDeviceTuned(cfg: Config, s: Plugin, d: Device, orig: Knobs)
    requires Inv(cfg, s, orig) && Tuned(cfg, s, orig)
    ensures Tuned(cfg, AddDevice(cfg, s, d), orig)
  {
    hide Owned, Saved, AddDevices, FirstMatch, Distinct, ByPriority, Tuned;
    if d !in s.claimed + s.free {
      FirstMatchListed(cfg, s, s.order, d);
      match FirstMatch(cfg, s, s.order, d) {
        case Some(n) => AddOutsideTuned(cfg, s, n, {d}, orig);
        case None => TunedFrame(cfg, s, AddDevice(cfg, s, d), orig);
      }
    }
  }

  lemma RemoveDeviceTuned(cfg: Config, s: Plugin, d: Device, orig: Knobs)
    requires Inv(cfg, s, orig) && Tuned(cfg, s, orig)
    ensures Tuned(cfg, RemoveDevice(cfg, s, d), orig)
  {
    hide Owned, Saved, RemoveDevices, FirstOwner, Distinct, ByPriority, Tuned;
    if d in s.claimed + s.free {
      FirstOwnerListed(s, s.order, d);
      match FirstOwner(s, s.order, d) {
        case Some(n) => RemoveDevicesTuned(cfg, s, n, {d}, orig);
        case None => TunedFrame(cfg, s, RemoveDevice(cfg, s, d), orig);
      }
    }
  }

  lemma AssignFreeTuned(cfg: Config, s: Plugin, n: Name, orig: Knobs)
    requires n in s.inst && Tuned(cfg, s, orig)
    ensures Tuned(cfg, AssignFree(cfg, s, n), orig)
  {
    hide Tuned, Matching;
    TunedFrame(cfg, s, AssignFree(cfg, s, n), orig);
  }

  lemma CreateInstanceTuned(cfg: Config, s: Plugin, n: Name, priority: int, expression: string,
                            options: map<Command, Value>, orig: Knobs)
    requires OrderListed(s) && Tuned(cfg, s, orig)
    ensures Tuned(cfg, CreateInstance(s, n, priority, expression, options), orig)
  {
    hide Tuned, InsertByPriority;
    TunedFrame(cfg, s, CreateInstance(s, n, priority, expression, options), orig);
  }

  lemma CreatedTuned(cfg: Config, s: Plugin, n: Name, priority: int, expression: string, options: map<Command, Value>, orig: Knobs)
    requires n !in s.inst && Inv(cfg, s, orig) && Tuned(cfg, s, orig)
    ensures Tuned(cfg, Created(cfg, s, n, priority, expression, options), orig)
  {
    hide Saved, Owned, Tuned, ApplyTuning;
    var c := CreateInstance(s, n, priority, expression, options);
    CreateInstanceInv(cfg, s, n, priority, expression, options, orig);
    CreateInstanceTuned(cfg, s, n, priority, expression, options, orig);
    AssignFreeInv(cfg, c, n, orig);
    AssignFreeTuned(cfg, c, n, orig);
    ApplyTuningTuned(cfg, AssignFree(cfg, c, n), n, orig);
  }

  lemma {:induction false} AddAllTuned(cfg: Config, s: Plugin, ds: seq<Device>, orig: Knobs)
    requires Inv(cfg, s, orig) && Tuned(cfg, s, orig)
    ensures Tuned(cfg, AddAll(cfg, s, ds), orig)
    decreases |ds|
  {
    hide Owned, Saved, AddDevice, Tuned;
    if ds != [] {
      EventsKeepInstances(cfg, s, ds[0]);
      AddDeviceInv(cfg, s, ds[0], orig);
      AddDeviceTuned(cfg, s, ds[0], orig);
      AddAllTuned(cfg, AddDevice(cfg, s, ds[0]), ds[1..], orig);
    }
  }

  /** Undoing an instance without tuned devices changes no knob. */
  lemma UnapplyNothing(cfg: Config, s: Plugin, n: Name)
    requires n in s.inst && s.inst[n].processed == {}
    ensures UnapplyTuning(cfg, s, n).knobs == s.knobs && UnapplyTuning(cfg, s, n).inst == s.inst
  {
  }

  lemma NoneProcessed(cfg: Config, s: Plugin, n: Name)
    requires n in s.inst
    ensures var t := RemoveDevices(cfg, s, n, s.inst[n].processed); n in t.inst && t.inst[n].processed == {}
  {
    hide UntuneKnobs, UntuneStore;
    assert s.inst[n].processed * s.inst[n].processed == s.inst[n].processed;
  }

  lemma DestroyedTuned(cfg: Config, s: Plugin, n: Name, orig: Knobs)
    requires n in s.inst && Owned(s) && Tuned(cfg, s, orig)
    ensures Tuned(cfg, Destroyed(cfg, s, n), orig)
  {
    hide RemoveDevices, UnapplyTuning, Owned, Tuned;
    var t := RemoveDevices(cfg, s, n, s.inst[n].processed);
    NoneProcessed(cfg, s, n);
    RemoveDevicesTuned(cfg, s, n, s.inst[n].processed, orig);
    UnapplyNothing(cfg, t, n);
    TunedFrame(cfg, t, Destroyed(cfg, s, n), orig);
  }

  // ----- Events -----

  ghost predicate SysTuned(f: Fixed, sys: System, orig: Originals) {
    SysInv(f, sys, orig) && forall p :: p in sys.plugins ==> Tuned(f.cfg[p], sys.plugins[p], orig[p])
  }

  lemma WithPluginTuned(f: Fixed, sys: System, p: PluginName, t: Plugin, orig: Originals)
    requires SysTuned(f, sys, orig) && p in sys.plugins
    requires t.inst.Keys == sys.plugins[p].inst.Keys && Inv(f.cfg[p], t, orig[p]) && Tuned(f.cfg[p], t, orig[p])
    ensures SysTuned(f, WithPlugin(sys, p, t), orig)
  {
    hide Inv, Tuned, Ordered;
    WithPluginInv(f, sys, p, t, orig);
  }

  lemma MoveInTuned(f: Fixed, sys: System, p: PluginName, a: Name, b: Name, D: set<Device>, orig: Originals)
    requires SysTuned(f, sys, orig) && Listed(sys, Ref(p, a)) && Listed(sys, Ref(p, b))
    requires D <= sys.plugins[p].inst[a].processed
    ensures SysTuned(f, MoveIn(f, sys, p, a, b, D), orig)
  {
    hide Inv, Move, Tuned, Ordered;
    MoveInInv(f, sys, p, a, b, D, orig);
    MoveTuned(f.cfg[p], sys.plugins[p], a, b, D, orig[p]);
  }

  lemma {:induction false} AcquireFromTuned(f: Fixed, sys: System, k: nat, target: Ref, devs: set<Device>, orig: Originals)
    requires SysTuned(f, sys, orig) && k <= |sys.refs| && target in sys.refs
    ensures SysTuned(f, AcquireFrom(f, sys, k, target, devs).0, orig)
    decreases |sys.refs| - k
  {
    hide Inv, Move, Ordered, Tuned;
    if k < |sys.refs| {
      var r := sys.refs[k];
      assert Listed(sys, r) && Listed(sys, target);
      var moving := Processed(sys, r) * devs;
      if moving == {} {
        AcquireFromTuned(f, sys, k + 1, target, devs, orig);
      } else if r.plugin == target.plugin {
        MoveWellFormed(f, sys, r.plugin, r.name, target.name, moving);
        MoveInTuned(f, sys, r.plugin, r.name, target.name, moving, orig);
        AcquireFromTuned(f, MoveIn(f, sys, r.plugin, r.name, target.name, moving), k + 1, target, devs - moving, orig);
      }
    }
  }

  lemma {:induction false} TransferFromTuned(f: Fixed, sys: System, k: nat, target: Ref, orig: Originals)
    requires SysTuned(f, sys, orig) && k <= |sys.refs| && target in sys.refs
    ensures SysTuned(f, TransferFrom(f, sys, k, target), orig)
    decreases |sys.refs| - k
  {
    hide Inv, Move, Ordered, Tuned;
    if k < |sys.refs| {
      var r := sys.refs[k];
      assert Listed(sys, r) && Listed(sys, target);
      var s := sys.plugins[target.plugin];
      if r == target || r.plugin != target.plugin || s.inst[target.name].priority > s.inst[r.name].priority {
        TransferFromTuned(f, sys, k + 1, target, orig);
      } else {
        var moving := Matching(f.cfg[target.plugin], s.inst[target.name], s.inst[r.name].processed);
        if moving == {} {
          TransferFromTuned(f, sys, k + 1, target, orig);
        } else {
          MoveWellFormed(f, sys, r.plugin, r.name, target.name, moving);
          MoveInTuned(f, sys, r.plugin, r.name, target.name, moving, orig);
          TransferFromTuned(f, MoveIn(f, sys, r.plugin, r.name, target.name, moving), k + 1, target, orig);
        }
      }
    }
  }

  lemma CreateTuned(f: Fixed, sys: System, r: Ref, priority: int, expression: string, options: map<Command, Value>, orig: Originals)
    requires SysTuned(f, sys, orig)
    ensures SysTuned(f, Create(f, sys, r, priority, expression, options).0, orig)
  {
    hide Inv, Created, TransferFrom, Ordered, Tuned;
    if r.plugin in sys.plugins && r.plugin in f.hotplug && !Listed(sys, r) {
      var u := WithCreated(f, sys, r, priority, expression, options);
      WithCreatedWellFormed(f, sys, r, priority, expression, options);
      CreatedInv(f.cfg[r.plugin], sys.plugins[r.plugin], r.name, priority, expression, options, orig[r.plugin]);
      CreatedTuned(f.cfg[r.plugin], sys.plugins[r.plugin], r.name, priority, expression, options, orig[r.plugin]);
      assert SysTuned(f, u, orig);
      TransferFromTuned(f, u, 0, r, orig);
    }
  }

  lemma DestroyTuned(f: Fixed, sys: System, name: Name, ds: seq<Device>, orig: Originals)
    requires SysTuned(f, sys, orig)
    ensures SysTuned(f, Destroy(f, sys, name, ds).0, orig)
  {
    hide Saved, Owned, Destroyed, AddAll, Ordered, Tuned;
    DestroyInv(f, sys, name, ds, orig);
    FindNameListed(sys.refs, name);
    var r := FindName(sys.refs, name);
    if r.Some? && r.value.plugin in f.hotplug {
      var q := r.value;
      var cfg, s := f.cfg[q.plugin], sys.plugins[q.plugin];
      assert Inv(cfg, s, orig[q.plugin]);
      DestroyedInv(cfg, s, q.name, orig[q.plugin]);
      DestroyedTuned(cfg, s, q.name, orig[q.plugin]);
      AddAllTuned(cfg, Destroyed(cfg, s, q.name), ds, orig[q.plugin]);
    }
  }

  lemma {:induction false} StartTuningTuned(f: Fixed, sys: System, k: nat, orig: Originals)
    requires SysTuned(f, sys, orig) && k <= |sys.refs|
    ensures SysTuned(f, StartTuning(f, sys, k), orig)
    decreases |sys.refs| - k
  {
    hide Inv, ApplyTuning, Ordered, Tuned;
    if k < |sys.refs| {
      var r := sys.refs[k];
      assert Listed(sys, r);
      var t := ApplyTuning(f.cfg[r.plugin], sys.plugins[r.plugin], r.name);
      ApplyTuningInv(f.cfg[r.plugin], sys.plugins[r.plugin], r.name, orig[r.plugin]);
      ApplyTuningTuned(f.cfg[r.plugin], sys.plugins[r.plugin], r.name, orig[r.plugin]);
      WithPluginTuned(f, sys, r.plugin, t, orig);
      StartTuningTuned(f, WithPlugin(sys, r.plugin, t), k + 1, orig);
    }
  }

  /** A new device has no tuned knobs. */
  lemma AppearTuned(cfg: Config, s: Plugin, d: Device, values: Knobs, orig: Knobs)
    requires Owned(s) && Tuned(cfg, s, orig) && !Known(s, d)
    ensures Tuned(cfg, s.(knobs := Appear(s.knobs, d, values)), Appear(orig, d, values))
  {
    hide Carries, Owned;
    OutsideProcessed(s, {d});
    var t := s.(knobs := Appear(s.knobs, d, values));
    forall n, k | n in t.inst && k in t.knobs && Requests(cfg, t, n, t.inst[n].processed, k)
      ensures Carries(t.inst[n].options[k.command], Appear(orig, d, values)[k], t.knobs[k])
    {
      assert Requests(cfg, s, n, s.inst[n].processed, k);
      assert k.device != d;
    }
  }

  lemma ArrivalTuned(f: Fixed, sys: System, p: PluginName, d: Device, values: Knobs, orig: Originals)
    requires SysTuned(f, sys, orig) && p in sys.plugins && !Known(sys.plugins[p], d)
    ensures var t := sys.plugins[p].(knobs := Appear(sys.plugins[p].knobs, d, values));
            && Ordered(t)
            && SysTuned(f, WithPlugin(sys, p, AddDevice(f.cfg[p], t, d)), orig[p := Appear(orig[p], d, values)])
  {
    hide AddDevice, Saved, Owned, Appear, Tuned;
    var s := sys.plugins[p];
    var t := s.(knobs := Appear(s.knobs, d, values));
    assert Inv(f.cfg[p], s, orig[p]);
    ArrivalSysInv(f, sys, p, d, values, orig);
    AppearInv(f.cfg[p], s, d, values, orig[p]);
    AppearTuned(f.cfg[p], s, d, values, orig[p]);
    AddDeviceTuned(f.cfg[p], t, d, Appear(orig[p], d, values));
  }

  lemma RemovalTuned(f: Fixed, sys: System, p: PluginName, d: Device, orig: Originals)
    requires SysTuned(f, sys, orig) && p in sys.plugins
    ensures SysTuned(f, WithPlugin(sys, p, RemoveDevice(f.cfg[p], sys.plugins[p], d)), orig)
  {
    hide Inv, RemoveDevice, Tuned;
    assert Ordered(sys.plugins[p]);
    RemoveDeviceInv(f.cfg[p], sys.plugins[p], d, orig[p]);
    RemoveDeviceTuned(f.cfg[p], sys.plugins[p], d, orig[p]);
    WithPluginTuned(f, sys, p, RemoveDevice(f.cfg[p], sys.plugins[p], d), orig);
  }

  /** Every event leaves the knobs of all tuned devices as the options want them. */
  lemma StepTuned(f: Fixed, sys: System, orig: Originals, e: Event)
    requires SysTuned(f, sys, orig)
    ensures SysTuned(f, Step(f, sys, e), StepOrig(f, sys, orig, e))
  {
    hide Inv, Ordered, AddDevice, RemoveDevice, Appear, StartTuning, AcquireFrom, Create, Destroy, Tuned;
    match e {
      case HotAdd(p, d, values) =>
        if Arrives(f, sys, e) { ArrivalTuned(f, sys, p, d, values, orig); }
      case HotRemove(p, d) =>
        if p in sys.plugins { RemovalTuned(f, sys, p, d, orig); }
      case AcquireCall(devs, name) =>
        FindNameListed(sys.refs, name);
        var t := FindName(sys.refs, name);
        if t.Some? { AcquireFromTuned(f, sys, 0, t.value, devs, orig); }
      case CreateCall(r, priority, expression, options) => CreateTuned(f, sys, r, priority, expression, options, orig);
      case DestroyCall(name, ds) => DestroyTuned(f, sys, name, ds, orig);
      case StartCall => StartTuningTuned(f, sys, 0, orig);
    }
  }

  lemma {:induction false} RunTuned(f: Fixed, sys: System, orig: Originals, es: seq<Event>)
    requires SysTuned(f, sys, orig)
    ensures SysTuned(f, Run(f, sys, orig, es).0, Run(f, sys, orig, es).1)
    decreases |es|
  {
    hide Step, StepOrig, Inv, Tuned, Ordered;
    if es != [] {
      StepInv(f, sys, orig, es[0]);
      StepTuned(f, sys, orig, es[0]);
      RunTuned(f, Step(f, sys, es[0]), StepOrig(f, sys, orig, es[0]), es[1..]);
    }
  }

  /** Every knob holds what the one instance that tunes it makes of the original, or the original. */
  ghost predicate Holds(cfg: Config, s: Plugin, orig: Knobs, k: Knob)
    requires k in s.knobs && k in orig
  {
    && (forall n :: n in s.inst && k.device in s.inst[n].processed && k.command in cfg.commands && k.command in s.inst[n].options ==>
          Carries(s.inst[n].options[k.command], orig[k], s.knobs[k]))
    && ((forall n :: n in s.inst ==>
           !(k.device in s.inst[n].processed && k.command in cfg.commands && k.command in s.inst[n].options)) ==>
          s.knobs[k] == orig[k])
  }

  lemma TunedHolds(cfg: Config, s: Plugin, orig: Knobs, k: Knob)
    requires Saved(cfg, s, orig) && Tuned(cfg, s, orig) && k in s.knobs
    ensures k in orig && Holds(cfg, s, orig, k)
  {
    hide Carries;
    forall n | n in s.inst && k.device in s.inst[n].processed && k.command in cfg.commands && k.command in s.inst[n].options
      ensures Carries(s.inst[n].options[k.command], orig[k], s.knobs[k])
    {
      assert Requests(cfg, s, n, s.inst[n].processed, k);
    }
    if forall n :: n in s.inst ==>
         !(k.device in s.inst[n].processed && k.command in cfg.commands && k.command in s.inst[n].options) {
      assert NoKey(s, k);
    }
  }

  /** Main result: after any run, each knob of a tuned device holds what the option of its instance makes of the value
      the knob had when the device was first seen, and every other knob holds that value. */
  lemma RunHolds(f: Fixed, sys: System, orig: Originals, es: seq<Event>, p: PluginName, k: Knob)
    requires SysTuned(f, sys, orig)
    ensures var (last, first) := Run(f, sys, orig, es);
            p in last.plugins && k in last.plugins[p].knobs ==>
              p in first && p in f.cfg && k in first[p] && Holds(f.cfg[p], last.plugins[p], first[p], k)
  {
    hide Run, Saved, Owned, Ordered, Tuned, Holds;
    RunTuned(f, sys, orig, es);
    var (last, first) := Run(f, sys, orig, es);
    if p in last.plugins && k in last.plugins[p].knobs {
      assert Inv(f.cfg[p], last.plugins[p], first[p]);
      TunedHolds(f.cfg[p], last.plugins[p], first[p], k);
    }
  }
}
