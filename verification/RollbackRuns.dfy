/** Safety over whole runs: in every reachable state the ownership and saved-value invariants hold, and
    stopping restores every knob to the value it had when its device was first seen. */
module RollbackRuns {
  import opened Text
  import opened PluginModel
  import opened PluginInvariants
  import opened DeviceSystem

  type Originals = map<PluginName, Knobs>

  ghost predicate SysInv(f: Fixed, sys: System, orig: Originals) {
    && WellFormed(f, sys)
    && orig.Keys == sys.plugins.Keys
    && forall p :: p in sys.plugins ==> Inv(f.cfg[p], sys.plugins[p], orig[p])
  }

  lemma WithPluginInv(f: Fixed, sys: System, p: PluginName, t: Plugin, orig: Originals)
    requires SysInv(f, sys, orig) && p in sys.plugins
    requires t.inst.Keys == sys.plugins[p].inst.Keys && Inv(f.cfg[p], t, orig[p])
    ensures SysInv(f, WithPlugin(sys, p, t), orig)
  {
    WithPluginWellFormed(f, sys, p, t);
  }

  lemma MoveInInv(f: Fixed, sys: System, p: PluginName, a: Name, b: Name, D: set<Device>, orig: Originals)
    requires SysInv(f, sys, orig) && Listed(sys, Ref(p, a)) && Listed(sys, Ref(p, b))
    requires D <= sys.plugins[p].inst[a].processed
    ensures SysInv(f, MoveIn(f, sys, p, a, b, D), orig)
  {
    MoveInv(f.cfg[p], sys.plugins[p], a, b, D, orig[p]);
    MoveKeepsInstances(f.cfg[p], sys.plugins[p], a, b, D);
    WithPluginInv(f, sys, p, Move(f.cfg[p], sys.plugins[p], a, b, D), orig);
  }

  lemma {:induction false} AcquireFromInv(f: Fixed, sys: System, k: nat, target: Ref, devs: set<Device>, orig: Originals)
    requires SysInv(f, sys, orig) && k <= |sys.refs| && target in sys.refs
    ensures SysInv(f, AcquireFrom(f, sys, k, target, devs).0, orig)
    decreases |sys.refs| - k
  {
    hide Inv, Move, Ordered;
    if k < |sys.refs| {
      var r := sys.refs[k];
      var moving := Processed(sys, r) * devs;
      if moving == {} {
        AcquireFromInv(f, sys, k + 1, target, devs, orig);
      } else if r.plugin == target.plugin {
        MoveWellFormed(f, sys, r.plugin, r.name, target.name, moving);
        MoveInInv(f, sys, r.plugin, r.name, target.name, moving, orig);
        AcquireFromInv(f, MoveIn(f, sys, r.plugin, r.name, target.name, moving), k + 1, target, devs - moving, orig);
      }
    }
  }

  lemma {:induction false} TransferFromInv(f: Fixed, sys: System, k: nat, target: Ref, orig: Originals)
    requires SysInv(f, sys, orig) && k <= |sys.refs| && target in sys.refs
    ensures SysInv(f, TransferFrom(f, sys, k, target), orig)
    decreases |sys.refs| - k
  {
    hide Inv, Move, Ordered;
    if k < |sys.refs| {
      var r := sys.refs[k];
      assert Listed(sys, r);
      var s := sys.plugins[target.plugin];
      if r == target || r.plugin != target.plugin || s.inst[target.name].priority > s.inst[r.name].priority {
        TransferFromInv(f, sys, k + 1, target, orig);
      } else {
        var moving := Matching(f.cfg[target.plugin], s.inst[target.name], s.inst[r.name].processed);
        if moving == {} {
          TransferFromInv(f, sys, k + 1, target, orig);
        } else {
          MoveWellFormed(f, sys, r.plugin, r.name, target.name, moving);
          MoveInInv(f, sys, r.plugin, r.name, target.name, moving, orig);
          TransferFromInv(f, MoveIn(f, sys, r.plugin, r.name, target.name, moving), k + 1, target, orig);
        }
      }
    }
  }

  lemma CreatedInv(cfg: Config, s: Plugin, n: Name, priority: int, expression: string, options: map<Command, Value>, orig: Knobs)
    requires n !in s.inst && Inv(cfg, s, orig)
    ensures Inv(cfg, Created(cfg, s, n, priority, expression, options), orig)
  {
    hide Saved, Owned, ApplyTuning;
    var c := CreateInstance(s, n, priority, expression, options);
    CreateInstanceInv(cfg, s, n, priority, expression, options, orig);
    AssignFreeInv(cfg, c, n, orig);
    ApplyTuningInv(cfg, AssignFree(cfg, c, n), n, orig);
  }

  lemma CreateInv(f: Fixed, sys: System, r: Ref, priority: int, expression: string, options: map<Command, Value>, orig: Originals)
    requires SysInv(f, sys, orig)
    ensures SysInv(f, Create(f, sys, r, priority, expression, options).0, orig)
  {
    hide Inv, Created, TransferFrom, Ordered;
    if r.plugin in sys.plugins && r.plugin in f.hotplug && !Listed(sys, r) {
      var u := WithCreated(f, sys, r, priority, expression, options);
      WithCreatedWellFormed(f, sys, r, priority, expression, options);
      CreatedInv(f.cfg[r.plugin], sys.plugins[r.plugin], r.name, priority, expression, options, orig[r.plugin]);
      assert SysInv(f, u, orig);
      TransferFromInv(f, u, 0, r, orig);
    }
  }

  lemma {:induction false} AddAllInv(cfg: Config, s: Plugin, ds: seq<Device>, orig: Knobs)
    requires Inv(cfg, s, orig)
    ensures Inv(cfg, AddAll(cfg, s, ds), orig)
    ensures AddAll(cfg, s, ds).inst.Keys == s.inst.Keys
    decreases |ds|
  {
    if ds != [] {
      EventsKeepInstances(cfg, s, ds[0]);
      AddDeviceInv(cfg, s, ds[0], orig);
      AddAllInv(cfg, AddDevice(cfg, s, ds[0]), ds[1..], orig);
    }
  }

  lemma DestroyedInv(cfg: Config, s: Plugin, n: Name, orig: Knobs)
    requires n in s.inst && Inv(cfg, s, orig)
    ensures Inv(cfg, Destroyed(cfg, s, n), orig)
  {
    var t := RemoveDevices(cfg, s, n, s.inst[n].processed);
    RemoveDevicesInv(cfg, s, n, s.inst[n].processed, orig);
    UnapplyTuningInv(cfg, t, n, orig);
    DestroyInstanceInv(cfg, UnapplyTuning(cfg, t, n), n, orig);
  }

  lemma {:induction false} WithoutRefAt(refs: seq<Ref>, r: Ref) returns (p: nat)
    requires r in refs
    ensures p < |refs| && refs[p] == r && WithoutRef(refs, r) == refs[..p] + refs[p + 1..]
  {
    p := 0;
    if refs[0] != r {
      var tail := refs[1..];
      var q := WithoutRefAt(tail, r);
      p := q + 1;
      assert refs[..p] == [refs[0]] + tail[..q];
      assert refs[p + 1..] == tail[q + 1..];
    }
  }

  lemma WithoutRefDistinct(refs: seq<Ref>, r: Ref)
    requires r in refs && forall i, j :: 0 <= i < j < |refs| ==> refs[i] != refs[j]
    ensures var u := WithoutRef(refs, r);
            && (forall q :: q in u <==> q in refs && q != r)
            && (forall i, j :: 0 <= i < j < |u| ==> u[i] != u[j])
  {
    var p := WithoutRefAt(refs, r);
    var u := refs[..p] + refs[p + 1..];
    forall q | q in refs && q != r ensures q in u {
      var i :| 0 <= i < |refs| && refs[i] == q;
      assert u[if i < p then i else i - 1] == q;
    }
  }

  lemma DestroyInv(f: Fixed, sys: System, name: Name, ds: seq<Device>, orig: Originals)
    requires SysInv(f, sys, orig)
    ensures SysInv(f, Destroy(f, sys, name, ds).0, orig)
  {
    hide Inv, Destroyed, AddAll, Ordered;
    FindNameListed(sys.refs, name);
    var r := FindName(sys.refs, name);
    if r.Some? && r.value.plugin in f.hotplug {
      var q := r.value;
      var cfg, s := f.cfg[q.plugin], sys.plugins[q.plugin];
      DestroyedInv(cfg, s, q.name, orig[q.plugin]);
      DestroyedOrdered(cfg, s, q.name);
      AddAllInv(cfg, Destroyed(cfg, s, q.name), ds, orig[q.plugin]);
      WithoutRefDistinct(sys.refs, q);
      var u := Destroy(f, sys, name, ds).0;
      assert forall x :: Listed(u, x) <==> Listed(sys, x) && x != q;
    }
  }

  lemma {:induction false} StartTuningInv(f: Fixed, sys: System, k: nat, orig: Originals)
    requires SysInv(f, sys, orig) && k <= |sys.refs|
    ensures SysInv(f, StartTuning(f, sys, k), orig)
    decreases |sys.refs| - k
  {
    hide Inv, ApplyTuning, Ordered;
    if k < |sys.refs| {
      var r := sys.refs[k];
      assert Listed(sys, r);
      var t := ApplyTuning(f.cfg[r.plugin], sys.plugins[r.plugin], r.name);
      ApplyTuningInv(f.cfg[r.plugin], sys.plugins[r.plugin], r.name, orig[r.plugin]);
      WithPluginInv(f, sys, r.plugin, t, orig);
      StartTuningInv(f, WithPlugin(sys, r.plugin, t), k + 1, orig);
    }
  }

  lemma AppearSaved(cfg: Config, s: Plugin, d: Device, values: Knobs, orig: Knobs)
    requires Saved(cfg, s, orig) && forall n :: n in s.inst ==> d !in s.inst[n].processed
    ensures Saved(cfg, s.(knobs := Appear(s.knobs, d, values)), Appear(orig, d, values))
  {
    var t := s.(knobs := Appear(s.knobs, d, values));
    forall k | k in t.knobs && NoKey(t, k) ensures t.knobs[k] == Appear(orig, d, values)[k] {
      assert NoKey(s, k);
    }
  }

  lemma AppearInv(cfg: Config, s: Plugin, d: Device, values: Knobs, orig: Knobs)
    requires Inv(cfg, s, orig) && !Known(s, d)
    ensures Inv(cfg, s.(knobs := Appear(s.knobs, d, values)), Appear(orig, d, values))
  {
    hide Appear, Saved;
    forall n | n in s.inst ensures d !in s.inst[n].processed {
      assert Devices(s.inst[n]) <= s.claimed;
    }
    AppearSaved(cfg, s, d, values, orig);
  }

  lemma ArrivalInv(cfg: Config, s: Plugin, d: Device, values: Knobs, orig: Knobs)
    requires Inv(cfg, s, orig) && !Known(s, d)
    ensures var t := s.(knobs := Appear(s.knobs, d, values));
            && Ordered(t)
            && Inv(cfg, AddDevice(cfg, t, d), Appear(orig, d, values))
            && AddDevice(cfg, t, d).inst.Keys == s.inst.Keys
  {
    hide AddDevice, Saved, Owned, Appear;
    AppearInv(cfg, s, d, values, orig);
    AddDeviceInv(cfg, s.(knobs := Appear(s.knobs, d, values)), d, Appear(orig, d, values));
  }

  lemma ArrivalSysInv(f: Fixed, sys: System, p: PluginName, d: Device, values: Knobs, orig: Originals)
    requires SysInv(f, sys, orig) && p in sys.plugins && !Known(sys.plugins[p], d)
    ensures var t := sys.plugins[p].(knobs := Appear(sys.plugins[p].knobs, d, values));
            && Ordered(t)
            && SysInv(f, WithPlugin(sys, p, AddDevice(f.cfg[p], t, d)), orig[p := Appear(orig[p], d, values)])
  {
    hide AddDevice, Saved, Owned, Appear;
    var t := sys.plugins[p].(knobs := Appear(sys.plugins[p].knobs, d, values));
    ArrivalInv(f.cfg[p], sys.plugins[p], d, values, orig[p]);
    WithPluginWellFormed(f, sys, p, AddDevice(f.cfg[p], t, d));
  }

  lemma RemovalSysInv(f: Fixed, sys: System, p: PluginName, d: Device, orig: Originals)
    requires SysInv(f, sys, orig) && p in sys.plugins
    ensures SysInv(f, WithPlugin(sys, p, RemoveDevice(f.cfg[p], sys.plugins[p], d)), orig)
  {
    hide Inv, RemoveDevice;
    assert Ordered(sys.plugins[p]);
    RemoveDeviceInv(f.cfg[p], sys.plugins[p], d, orig[p]);
    WithPluginInv(f, sys, p, RemoveDevice(f.cfg[p], sys.plugins[p], d), orig);
  }

  /** Every event keeps every invariant. */
  lemma StepInv(f: Fixed, sys: System, orig: Originals, e: Event)
    requires SysInv(f, sys, orig)
    ensures SysInv(f, Step(f, sys, e), StepOrig(f, sys, orig, e))
  {
    hide Inv, Ordered, AddDevice, RemoveDevice, Appear, StartTuning, AcquireFrom, Create, Destroy;
    match e {
      case HotAdd(p, d, values) =>
        if Arrives(f, sys, e) {
          ArrivalSysInv(f, sys, p, d, values, orig);
        }
      case HotRemove(p, d) =>
        if p in sys.plugins {
          RemovalSysInv(f, sys, p, d, orig);
        }
      case AcquireCall(devs, name) =>
        FindNameListed(sys.refs, name);
        var t := FindName(sys.refs, name);
        if t.Some? { AcquireFromInv(f, sys, 0, t.value, devs, orig); }
      case CreateCall(r, priority, expression, options) =>
        CreateInv(f, sys, r, priority, expression, options, orig);
      case DestroyCall(name, ds) =>
        DestroyInv(f, sys, name, ds, orig);
      case StartCall =>
        StartTuningInv(f, sys, 0, orig);
    }
  }

  /** A run of any events in any order. */
  ghost function Run(f: Fixed, sys: System, orig: Originals, es: seq<Event>): (r: (System, Originals))
    requires SysInv(f, sys, orig)
    ensures SysInv(f, r.0, r.1)
    decreases |es|
  {
    if es == [] then (sys, orig)
    else
      StepInv(f, sys, orig, es[0]);
      Run(f, Step(f, sys, es[0]), StepOrig(f, sys, orig, es[0]), es[1..])
  }

  // ----- Stopping -----

  ghost predicate Before(sys: System, r: Ref, k: nat)
    requires k <= |sys.refs|
  {
    exists i :: 0 <= i < k && sys.refs[i] == r
  }

  ghost predicate KeysBefore(sys: System, k: nat)
    requires k <= |sys.refs|
  {
    forall p, key :: p in sys.plugins && key in sys.plugins[p].store ==> Before(sys, Ref(p, key.instance), k)
  }

  /** Unapplying the instance at position k - 1 leaves only keys of instances before it. */
  lemma UnapplyLast(f: Fixed, sys: System, k: nat, orig: Originals)
    requires SysInv(f, sys, orig) && 0 < k <= |sys.refs| && KeysBefore(sys, k)
    ensures var r := sys.refs[k - 1];
            && Listed(sys, r)
            && var u := WithPlugin(sys, r.plugin, UnapplyTuning(f.cfg[r.plugin], sys.plugins[r.plugin], r.name));
               SysInv(f, u, orig) && KeysBefore(u, k - 1)
  {
    hide Inv, Ordered, UnapplyTuning;
    var r := sys.refs[k - 1];
    assert Listed(sys, r);
    var t := UnapplyTuning(f.cfg[r.plugin], sys.plugins[r.plugin], r.name);
    UnapplyTuningInv(f.cfg[r.plugin], sys.plugins[r.plugin], r.name, orig[r.plugin]);
    WithPluginInv(f, sys, r.plugin, t, orig);
    var u := WithPlugin(sys, r.plugin, t);
    forall p, key | p in u.plugins && key in u.plugins[p].store
      ensures Before(u, Ref(p, key.instance), k - 1)
    {
      assert key in sys.plugins[p].store;
      var i :| 0 <= i < k && sys.refs[i] == Ref(p, key.instance);
      assert i != k - 1;
    }
  }

  /** Unapplying the first k instances, last first, empties the storage if it holds only their keys. */
  lemma {:induction false} StopTuningEmptiesStore(f: Fixed, sys: System, k: nat, orig: Originals)
    requires SysInv(f, sys, orig) && k <= |sys.refs| && KeysBefore(sys, k)
    ensures var t := StopTuning(f, sys, k);
            SysInv(f, t, orig) && forall p, key :: p in t.plugins ==> key !in t.plugins[p].store
    decreases k
  {
    hide Inv, Ordered, UnapplyTuning;
    if k > 0 {
      hide KeysBefore;
      UnapplyLast(f, sys, k, orig);
      var r := sys.refs[k - 1];
      StopTuningEmptiesStore(f, WithPlugin(sys, r.plugin, UnapplyTuning(f.cfg[r.plugin], sys.plugins[r.plugin], r.name)), k - 1, orig);
    } else {
      assert StopTuning(f, sys, k) == sys;
      forall p, key | p in sys.plugins ensures key !in sys.plugins[p].store {
        assert !Before(sys, Ref(p, key.instance), k);
      }
    }
  }

  lemma KeysListed(cfg: Config, s: Plugin, orig: Knobs)
    requires Inv(cfg, s, orig)
    ensures forall key :: key in s.store ==> key.instance in s.inst
  {
  }

  lemma EmptyStoreRestored(cfg: Config, s: Plugin, orig: Knobs)
    requires Inv(cfg, s, orig) && forall key :: key !in s.store
    ensures s.knobs == orig
  {
    forall k | k in s.knobs ensures s.knobs[k] == orig[k] {
      assert NoKey(s, k);
    }
  }

  /** Stopping with a rollback restores every knob of every plugin. */
  lemma StopRestores(f: Fixed, sys: System, orig: Originals)
    requires SysInv(f, sys, orig)
    ensures var t := StopTuning(f, sys, |sys.refs|);
            forall p :: p in t.plugins ==> p in orig && t.plugins[p].knobs == orig[p]
  {
    hide StopTuning, Inv, Ordered;
    forall p, key | p in sys.plugins && key in sys.plugins[p].store
      ensures Before(sys, Ref(p, key.instance), |sys.refs|)
    {
      KeysListed(f.cfg[p], sys.plugins[p], orig[p]);
      assert Listed(sys, Ref(p, key.instance));
    }
    StopTuningEmptiesStore(f, sys, |sys.refs|, orig);
    var t := StopTuning(f, sys, |sys.refs|);
    forall p | p in t.plugins ensures t.plugins[p].knobs == orig[p] {
      EmptyStoreRestored(f.cfg[p], t.plugins[p], orig[p]);
    }
  }

  /** Main result: after any run of start-up, hot-plug, acquire, create and destroy events, stopping puts
      every knob of every device back to the value it had when the device was first seen. */
  lemma RunThenStopRestores(f: Fixed, sys: System, orig: Originals, es: seq<Event>)
    requires SysInv(f, sys, orig)
    ensures var (last, first) := Run(f, sys, orig, es);
            var stopped := StopTuning(f, last, |last.refs|);
            forall p :: p in stopped.plugins ==> p in first && stopped.plugins[p].knobs == first[p]
  {
    hide SysInv, StopTuning, Run;
    var (last, first) := Run(f, sys, orig, es);
    StopRestores(f, last, first);
  }
}
