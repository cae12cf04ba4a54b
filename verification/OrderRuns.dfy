/** Who is served first: among instances of equal priority the one created first, whatever was created, destroyed or
    moved before; and which devices a new instance takes
    (tuned/plugins/base.py, tuned/plugins/hotplug.py, tuned/daemon/controller.py). */
module OrderRuns {
  import opened Text
  import opened Lists
  import opened PluginModel
  import opened PluginInvariants
  import opened DeviceSystem
  import opened RollbackRuns
  import opened DeviceRuns
  import opened PriorityRuns
  import opened AcquireCalls
  import opened StartUp
  import opened Owners

  ghost predicate EqualsAhead(order: seq<Name>, inst: map<Name, Instance>, p: PluginName, refs: seq<Ref>)
    requires forall n :: n in order ==> n in inst
  {
    forall i, j :: 0 <= i < j < |order| && inst[order[i]].priority == inst[order[j]].priority ==>
      Ahead(refs, Ref(p, order[i]), Ref(p, order[j]))
  }

  /** Instances of equal priority are in the order in which they were created. */
  ghost predicate InOrder(s: Plugin, p: PluginName, refs: seq<Ref>)
    requires OrderListed(s)
  {
    EqualsAhead(s.order, s.inst, p, refs)
  }

  ghost predicate SysInOrder(f: Fixed, sys: System)
    requires WellFormed(f, sys)
  {
    forall p :: p in sys.plugins ==> OrderListed(sys.plugins[p]) && InOrder(sys.plugins[p], p, sys.refs)
  }

  // ----- What changes nothing -----

  ghost predicate SameOrder(sys: System, t: System) {
    && t.refs == sys.refs && t.plugins.Keys == sys.plugins.Keys
    && forall p :: p in sys.plugins ==> SameInstances(sys.plugins[p], t.plugins[p])
  }

  lemma SameOrderKeeps(f: Fixed, sys: System, t: System)
    requires WellFormed(f, sys) && WellFormed(f, t) && SysInOrder(f, sys) && SameOrder(sys, t)
    ensures SysInOrder(f, t)
  {
    hide Ahead, Ordered;
  }

  lemma SameOrderTrans(sys: System, t: System, u: System)
    requires SameOrder(sys, t) && SameOrder(t, u)
    ensures SameOrder(sys, u)
  {
  }

  lemma SameOrderWith(sys: System, p: PluginName, t: Plugin)
    requires p in sys.plugins && SameInstances(sys.plugins[p], t)
    ensures SameOrder(sys, sys) && SameOrder(sys, WithPlugin(sys, p, t))
  {
  }

  lemma SameOrderRefl(sys: System)
    ensures SameOrder(sys, sys)
  {
  }

  lemma {:induction false} StartSameOrder(f: Fixed, sys: System, k: nat)
    requires WellFormed(f, sys) && k <= |sys.refs|
    ensures SameOrder(sys, StartTuning(f, sys, k))
    decreases |sys.refs| - k
  {
    hide ApplyTuning, Ordered, SameOrder, SameInstances;
    SameOrderRefl(sys);
    if k < |sys.refs| {
      var r := sys.refs[k];
      assert Listed(sys, r);
      var t := ApplyTuning(f.cfg[r.plugin], sys.plugins[r.plugin], r.name);
      ApplyKeepsInstances(f.cfg[r.plugin], sys.plugins[r.plugin], r.name);
      ApplyKeys(f.cfg[r.plugin], sys.plugins[r.plugin], r.name);
      var u := WithPlugin(sys, r.plugin, t);
      WithPluginWellFormed(f, sys, r.plugin, t);
      SameOrderWith(sys, r.plugin, t);
      StartSameOrder(f, u, k + 1);
      SameOrderTrans(sys, u, StartTuning(f, u, k + 1));
    }
  }

  lemma ApplyKeys(cfg: Config, s: Plugin, n: Name)
    requires n in s.inst
    ensures ApplyTuning(cfg, s, n).inst.Keys == s.inst.Keys
  {
    hide TuneKnobs, TuneStore;
  }

  /** One turn of the take-over loop. */
  ghost function Turn(f: Fixed, sys: System, k: nat, target: Ref): System
    requires WellFormed(f, sys) && k < |sys.refs| && target in sys.refs
  {
    var r := sys.refs[k];
    assert Listed(sys, r) && Listed(sys, target);
    if r == target || r.plugin != target.plugin || PriorityOf(sys, target) > PriorityOf(sys, r) then sys
    else
      var s := sys.plugins[target.plugin];
      var moving := Matching(f.cfg[target.plugin], s.inst[target.name], s.inst[r.name].processed);
      if moving == {} then sys else MoveIn(f, sys, r.plugin, r.name, target.name, moving)
  }

  lemma TransferOne(f: Fixed, sys: System, k: nat, target: Ref)
    requires WellFormed(f, sys) && k < |sys.refs| && target in sys.refs
    ensures var u := Turn(f, sys, k, target);
            WellFormed(f, u) && SameOrder(sys, u) && TransferFrom(f, sys, k, target) == TransferFrom(f, u, k + 1, target)
  {
    hide Move, Ordered, SameOrder, SameInstances;
    var r := sys.refs[k];
    assert Listed(sys, r) && Listed(sys, target);
    SameOrderRefl(sys);
    if r != target && r.plugin == target.plugin && PriorityOf(sys, target) <= PriorityOf(sys, r) {
      var s := sys.plugins[target.plugin];
      var moving := Matching(f.cfg[target.plugin], s.inst[target.name], s.inst[r.name].processed);
      if moving != {} {
        MoveWellFormed(f, sys, r.plugin, r.name, target.name, moving);
        MoveKeepsInstances(f.cfg[r.plugin], s, r.name, target.name, moving);
        SameOrderWith(sys, r.plugin, Move(f.cfg[r.plugin], s, r.name, target.name, moving));
      }
    }
  }

  lemma NoTurn(f: Fixed, sys: System, target: Ref)
    requires WellFormed(f, sys) && target in sys.refs
    ensures TransferFrom(f, sys, |sys.refs|, target) == sys && SameOrder(sys, sys)
  {
  }

  lemma {:induction false} TransferSameOrder(f: Fixed, sys: System, k: nat, target: Ref)
    requires WellFormed(f, sys) && k <= |sys.refs| && target in sys.refs
    ensures SameOrder(sys, TransferFrom(f, sys, k, target))
    decreases |sys.refs| - k
  {
    hide Turn, WellFormed, SameInstances, TransferFrom;
    if k == |sys.refs| {
      NoTurn(f, sys, target);
    } else {
      TransferOne(f, sys, k, target);
      var u := Turn(f, sys, k, target);
      TransferSameOrder(f, u, k + 1, target);
      SameOrderTrans(sys, u, TransferFrom(f, u, k + 1, target));
    }
  }

  lemma AcquireSameOrder(f: Fixed, sys: System, devs: set<Device>, name: Name, orig: Originals)
    requires SysInv(f, sys, orig)
    ensures SameOrder(sys, Acquire(f, sys, devs, name).0)
  {
    hide Acquire, Inv, Ordered, Taken, Takeable;
    AcquireMoves(f, sys, devs, name, orig);
  }

  // ----- Creating and destroying -----

  lemma InsertedAhead(order: seq<Name>, inst: map<Name, Instance>, p: PluginName, refs: seq<Ref>, n: Name, i: Instance, x: nat)
    requires (forall m :: m in order ==> m in inst && Ref(p, m) in refs) && n !in order && x <= |order|
    requires EqualsAhead(order, inst, p, refs) && forall y :: x <= y < |order| ==> i.priority < inst[order[y]].priority
    ensures EqualsAhead(order[..x] + [n] + order[x..], inst[n := i], p, refs + [Ref(p, n)])
  {
    hide Ahead;
    var longer, all, grown := order[..x] + [n] + order[x..], refs + [Ref(p, n)], inst[n := i];
    forall a, b | 0 <= a < b < |longer| && grown[longer[a]].priority == grown[longer[b]].priority
      ensures Ahead(all, Ref(p, longer[a]), Ref(p, longer[b]))
    {
      if b == x {
        assert longer[a] == order[a];
        AheadJoint(refs, [Ref(p, n)], Ref(p, longer[a]), Ref(p, n));
      } else {
        var b' := if b < x then b else b - 1;
        assert longer[b] == order[b'];
        assert a != x;
        assert longer[a] == order[if a < x then a else a - 1];
        AheadGrows(refs, [Ref(p, n)], Ref(p, longer[a]), Ref(p, longer[b]));
      }
    }
  }

  lemma InsertedInOrder(s: Plugin, p: PluginName, refs: seq<Ref>, n: Name, priority: int, expression: string,
                        options: map<Command, Value>)
    requires Ordered(s) && n !in s.inst && InOrder(s, p, refs) && forall m :: m in s.inst ==> Ref(p, m) in refs
    ensures var t := CreateInstance(s, n, priority, expression, options);
            OrderListed(t) && InOrder(t, p, refs + [Ref(p, n)])
  {
    hide EqualsAhead, InsertByPriority, ByPriority, Distinct;
    CreateInstanceOrdered(s, n, priority, expression, options);
    var x := InsertAt(s, s.order, n, priority);
    InsertedAhead(s.order, s.inst, p, refs, n, Instance(priority, expression, options, true, {}, {}), x);
  }

  lemma LongerInOrder(s: Plugin, p: PluginName, refs: seq<Ref>, r: Ref)
    requires OrderListed(s) && InOrder(s, p, refs)
    ensures InOrder(s, p, refs + [r])
  {
    hide Ahead;
    forall i, j | 0 <= i < j < |s.order| && s.inst[s.order[i]].priority == s.inst[s.order[j]].priority
      ensures Ahead(refs + [r], Ref(p, s.order[i]), Ref(p, s.order[j]))
    {
      AheadGrows(refs, [r], Ref(p, s.order[i]), Ref(p, s.order[j]));
    }
  }

  /** A system that has one more instance, at the end of the list. */
  lemma AddedInOrder(f: Fixed, sys: System, t: System, r: Ref, s: Plugin)
    requires WellFormed(f, sys) && WellFormed(f, t) && SysInOrder(f, sys) && r.plugin in sys.plugins
    requires OrderListed(s) && InOrder(s, r.plugin, sys.refs + [r])
    requires t.refs == sys.refs + [r] && t.plugins.Keys == sys.plugins.Keys && SameInstances(s, t.plugins[r.plugin])
    requires forall p :: p in sys.plugins && p != r.plugin ==> t.plugins[p] == sys.plugins[p]
    ensures SysInOrder(f, t)
  {
    hide Ahead, Ordered;
    forall p | p in t.plugins ensures OrderListed(t.plugins[p]) && InOrder(t.plugins[p], p, t.refs) {
      if p != r.plugin { LongerInOrder(sys.plugins[p], p, sys.refs, r); }
    }
  }

  lemma InstancesListed(f: Fixed, sys: System, p: PluginName)
    requires WellFormed(f, sys) && p in sys.plugins
    ensures forall m :: m in sys.plugins[p].inst ==> Ref(p, m) in sys.refs
  {
    hide Ordered;
    forall m | m in sys.plugins[p].inst ensures Ref(p, m) in sys.refs { assert Listed(sys, Ref(p, m)); }
  }

  lemma CreateInOrder(f: Fixed, sys: System, r: Ref, priority: int, expression: string, options: map<Command, Value>)
    requires WellFormed(f, sys) && SysInOrder(f, sys) && r.plugin in sys.plugins && !Listed(sys, r)
    ensures WellFormed(f, WithCreated(f, sys, r, priority, expression, options))
    ensures SysInOrder(f, WithCreated(f, sys, r, priority, expression, options))
  {
    hide Created, Ordered, InOrder, CreateInstance;
    var s := sys.plugins[r.plugin];
    WithCreatedWellFormed(f, sys, r, priority, expression, options);
    InstancesListed(f, sys, r.plugin);
    InsertedInOrder(s, r.plugin, sys.refs, r.name, priority, expression, options);
    CreatedSame(f.cfg[r.plugin], s, r.name, priority, expression, options);
    AddedInOrder(f, sys, WithCreated(f, sys, r, priority, expression, options), r,
                 CreateInstance(s, r.name, priority, expression, options));
  }

  lemma CreatedSame(cfg: Config, s: Plugin, n: Name, priority: int, expression: string, options: map<Command, Value>)
    requires Ordered(s) && n !in s.inst
    ensures SameInstances(CreateInstance(s, n, priority, expression, options), Created(cfg, s, n, priority, expression, options))
  {
    hide ApplyTuning, AssignFree, InsertByPriority, ByPriority;
    var c := CreateInstance(s, n, priority, expression, options);
    CreateInstanceOrdered(s, n, priority, expression, options);
    AssignKeepsInstances(cfg, c, n);
    ApplyKeepsInstances(cfg, AssignFree(cfg, c, n), n);
  }

  lemma AheadWithout(refs: seq<Ref>, r: Ref, a: Ref, b: Ref)
    requires r in refs && Ahead(refs, a, b) && a != r && b != r
    ensures Ahead(WithoutRef(refs, r), a, b)
  {
    var q := WithoutRefAt(refs, r);
    var i, j :| 0 <= i < j < |refs| && refs[i] == a && refs[j] == b;
    var u := refs[..q] + refs[q + 1..];
    assert u[if i < q then i else i - 1] == a && u[if j < q then j else j - 1] == b;
  }

  lemma WithoutAhead(order: seq<Name>, inst: map<Name, Instance>, rest: map<Name, Instance>, p: PluginName, refs: seq<Ref>, x: nat)
    requires x < |order| && Distinct(order) && (forall m :: m in order ==> m in inst) && EqualsAhead(order, inst, p, refs)
    requires Ref(p, order[x]) in refs
    requires forall m :: m in order && m != order[x] ==> m in rest && rest[m].priority == inst[m].priority
    ensures (forall m :: m in order[..x] + order[x + 1..] ==> m in rest)
    ensures EqualsAhead(order[..x] + order[x + 1..], rest, p, WithoutRef(refs, Ref(p, order[x])))
  {
    hide Ahead, WithoutRef;
    WithoutDistinct(order, x);
    var less := order[..x] + order[x + 1..];
    forall i, j | 0 <= i < j < |less| && rest[less[i]].priority == rest[less[j]].priority
      ensures Ahead(WithoutRef(refs, Ref(p, order[x])), Ref(p, less[i]), Ref(p, less[j]))
    {
      var a, b := if i < x then i else i + 1, if j < x then j else j + 1;
      assert less[i] == order[a] && less[j] == order[b];
      AheadWithout(refs, Ref(p, order[x]), Ref(p, order[a]), Ref(p, order[b]));
    }
  }

  lemma OthersAhead(order: seq<Name>, inst: map<Name, Instance>, p: PluginName, refs: seq<Ref>, r: Ref)
    requires (forall m :: m in order ==> m in inst) && EqualsAhead(order, inst, p, refs) && r in refs && r.plugin != p
    ensures EqualsAhead(order, inst, p, WithoutRef(refs, r))
  {
    hide Ahead, WithoutRef;
    forall i, j | 0 <= i < j < |order| && inst[order[i]].priority == inst[order[j]].priority
      ensures Ahead(WithoutRef(refs, r), Ref(p, order[i]), Ref(p, order[j]))
    {
      AheadWithout(refs, r, Ref(p, order[i]), Ref(p, order[j]));
    }
  }

  lemma DestroyedShape(cfg: Config, s: Plugin, n: Name)
    requires Ordered(s) && n in s.inst
    ensures var t := Destroyed(cfg, s, n);
            && t.order == Without(s.order, n) && t.inst.Keys == s.inst.Keys - {n}
            && forall m :: m in t.inst ==> t.inst[m] == s.inst[m]
  {
    hide UntuneKnobs, UntuneStore, Ordered;
  }

  lemma {:induction false} AddAllSame(cfg: Config, s: Plugin, ds: seq<Device>)
    requires Ordered(s)
    ensures SameInstances(s, AddAll(cfg, s, ds))
    decreases |ds|
  {
    hide AddDevice;
    if ds != [] {
      EventsKeepInstances(cfg, s, ds[0]);
      SameInstancesOrdered(s, AddDevice(cfg, s, ds[0]));
      AddAllSame(cfg, AddDevice(cfg, s, ds[0]), ds[1..]);
    }
  }

  lemma DestroyInOrder(f: Fixed, sys: System, name: Name, ds: seq<Device>, orig: Originals)
    requires SysInv(f, sys, orig) && SysInOrder(f, sys)
    ensures WellFormed(f, Destroy(f, sys, name, ds).0) && SysInOrder(f, Destroy(f, sys, name, ds).0)
  {
    hide Inv, Destroyed, AddAll, Ordered, EqualsAhead;
    DestroyInv(f, sys, name, ds, orig);
    FindNameListed(sys.refs, name);
    var r := FindName(sys.refs, name);
    if r.Some? && r.value.plugin in f.hotplug {
      var q := r.value;
      var cfg, s := f.cfg[q.plugin], sys.plugins[q.plugin];
      assert Listed(sys, q);
      DestroyedOrdered(cfg, s, q.name);
      DestroyedShape(cfg, s, q.name);
      AddAllSame(cfg, Destroyed(cfg, s, q.name), ds);
      var u := Destroy(f, sys, name, ds).0;
      forall p | p in u.plugins ensures OrderListed(u.plugins[p]) && InOrder(u.plugins[p], p, u.refs) {
        OrderedLists(u.plugins[p]);
        if p == q.plugin {
          GoneInOrder(s, Destroyed(cfg, s, q.name), u.plugins[p], p, sys.refs, q.name);
        } else {
          OthersAhead(sys.plugins[p].order, sys.plugins[p].inst, p, sys.refs, q);
        }
      }
    }
  }

  lemma GoneInOrder(s: Plugin, t: Plugin, u: Plugin, p: PluginName, refs: seq<Ref>, n: Name)
    requires Ordered(s) && InOrder(s, p, refs) && n in s.inst && Ref(p, n) in refs && Ordered(u)
    requires t.order == Without(s.order, n) && t.inst.Keys == s.inst.Keys - {n} && SameInstances(t, u)
    requires forall m :: m in t.inst ==> t.inst[m] == s.inst[m]
    ensures InOrder(u, p, WithoutRef(refs, Ref(p, n)))
  {
    hide EqualsAhead, WithoutRef, ByPriority, Without;
    var x := WithoutAt(s.order, n);
    WithoutAhead(s.order, s.inst, u.inst, p, refs, x);
  }

  // ----- Events and runs -----

  /** Every event keeps the order of creation among equals. */
  lemma StepInOrder(f: Fixed, sys: System, orig: Originals, e: Event)
    requires SysInv(f, sys, orig) && SysInOrder(f, sys)
    ensures WellFormed(f, Step(f, sys, e)) && SysInOrder(f, Step(f, sys, e))
  {
    hide Inv, Ordered, InOrder, AddDevice, RemoveDevice, Appear, StartTuning, AcquireFrom, Destroy, WithCreated, TransferFrom;
    StepInv(f, sys, orig, e);
    match e {
      case HotAdd(p, d, values) =>
        PlugSameOrder(f, sys, e);
        SameOrderKeeps(f, sys, Step(f, sys, e));
      case HotRemove(p, d) =>
        PlugSameOrder(f, sys, e);
        SameOrderKeeps(f, sys, Step(f, sys, e));
      case AcquireCall(devs, name) =>
        AcquireSameOrder(f, sys, devs, name, orig);
        SameOrderKeeps(f, sys, Step(f, sys, e));
      case CreateCall(r, priority, expression, options) =>
        if r.plugin in sys.plugins && r.plugin in f.hotplug && !Listed(sys, r) {
          CreateInOrder(f, sys, r, priority, expression, options);
          var u := WithCreated(f, sys, r, priority, expression, options);
          CreatedRefs(f, sys, r, priority, expression, options);
          TransferSameOrder(f, u, 0, r);
          SameOrderKeeps(f, u, Step(f, sys, e));
        }
      case DestroyCall(name, ds) => DestroyInOrder(f, sys, name, ds, orig);
      case StartCall =>
        StartSameOrder(f, sys, 0);
        SameOrderKeeps(f, sys, Step(f, sys, e));
    }
  }

  lemma CreatedRefs(f: Fixed, sys: System, r: Ref, priority: int, expression: string, options: map<Command, Value>)
    requires WellFormed(f, sys) && r.plugin in sys.plugins && !Listed(sys, r)
    ensures WithCreated(f, sys, r, priority, expression, options).refs == sys.refs + [r]
  {
  }

  lemma PlugSameOrder(f: Fixed, sys: System, e: Event)
    requires WellFormed(f, sys) && (e.HotAdd? || e.HotRemove?)
    ensures SameOrder(sys, Step(f, sys, e))
  {
    hide AddDevice, RemoveDevice, Appear, Ordered, SameOrder, SameInstances;
    SameOrderRefl(sys);
    if e.plugin in sys.plugins {
      var s := sys.plugins[e.plugin];
      OrderedLists(s);
      EventsKeepInstances(f.cfg[e.plugin], s, e.device);
      SameOrderWith(sys, e.plugin, RemoveDevice(f.cfg[e.plugin], s, e.device));
      if e.HotAdd? {
        var t := s.(knobs := Appear(s.knobs, e.device, e.values));
        EventsKeepInstances(f.cfg[e.plugin], t, e.device);
        SameKnobless(s, t, AddDevice(f.cfg[e.plugin], t, e.device));
        SameOrderWith(sys, e.plugin, AddDevice(f.cfg[e.plugin], t, e.device));
      }
    }
  }

  lemma SameKnobless(s: Plugin, t: Plugin, u: Plugin)
    requires t.inst == s.inst && t.order == s.order && SameInstances(t, u)
    ensures SameInstances(s, u)
  {
  }

  lemma {:induction false} RunInOrder(f: Fixed, sys: System, orig: Originals, es: seq<Event>)
    requires SysInv(f, sys, orig) && SysInOrder(f, sys)
    ensures WellFormed(f, Run(f, sys, orig, es).0) && SysInOrder(f, Run(f, sys, orig, es).0)
    decreases |es|
  {
    hide Step, StepOrig, Inv, Ordered, InOrder;
    if es != [] {
      StepInv(f, sys, orig, es[0]);
      StepInOrder(f, sys, orig, es[0]);
      RunInOrder(f, Step(f, sys, es[0]), StepOrig(f, sys, orig, es[0]), es[1..]);
    }
  }

  // ----- The first of the best -----

  /** Instance n matches the device; every other that does has a worse priority, or the same and was created later. */
  ghost predicate FirstOfBest(cfg: Config, s: Plugin, p: PluginName, refs: seq<Ref>, n: Name, d: Device)
    requires n in s.inst
  {
    && Wants(cfg, s, n, d)
    && forall m :: m in s.inst && m != n && Wants(cfg, s, m, d) ==>
         s.inst[n].priority < s.inst[m].priority ||
         (s.inst[n].priority == s.inst[m].priority && Ahead(refs, Ref(p, n), Ref(p, m)))
  }

  lemma {:induction false} FirstMatchAt(cfg: Config, s: Plugin, order: seq<Name>, d: Device) returns (i: nat)
    requires forall n :: n in order ==> n in s.inst
    ensures i <= |order| && forall j :: 0 <= j < i ==> !Wants(cfg, s, order[j], d)
    ensures i < |order| ==> FirstMatch(cfg, s, order, d) == Some(order[i]) && Wants(cfg, s, order[i], d)
    ensures i == |order| ==> FirstMatch(cfg, s, order, d).None?
  {
    i := 0;
    if order != [] && !Wants(cfg, s, order[0], d) {
      i := FirstMatchAt(cfg, s, order[1..], d);
      i := i + 1;
    }
  }

  /** A device that nobody knows goes to the first of the best instances, or becomes free. */
  lemma AddDeviceOwner(cfg: Config, s: Plugin, p: PluginName, refs: seq<Ref>, d: Device)
    requires Ordered(s) && InOrder(s, p, refs) && d !in s.claimed && d !in s.free
    ensures var t := AddDevice(cfg, s, d);
            if exists n :: n in s.inst && Wants(cfg, s, n, d) then
              exists n :: n in s.inst && n in t.inst && FirstOfBest(cfg, s, p, refs, n, d) && d in t.inst[n].processed
            else d in t.free
  {
    hide TuneKnobs, TuneStore, Ahead;
    var i := FirstMatchAt(cfg, s, s.order, d);
    if i < |s.order| {
      var n := s.order[i];
      forall m | m in s.inst && m != n && Wants(cfg, s, m, d)
        ensures s.inst[n].priority < s.inst[m].priority ||
                (s.inst[n].priority == s.inst[m].priority && Ahead(refs, Ref(p, n), Ref(p, m)))
      {
        var j :| 0 <= j < |s.order| && s.order[j] == m;
        assert j > i;
      }
      assert FirstOfBest(cfg, s, p, refs, n, d);
      assert d in AddDevice(cfg, s, d).inst[n].processed;
    }
  }

  lemma SameFirst(cfg: Config, s: Plugin, t: Plugin, p: PluginName, refs: seq<Ref>, n: Name, d: Device)
    requires n in s.inst && SameInstances(s, t)
    ensures FirstOfBest(cfg, t, p, refs, n, d) <==> FirstOfBest(cfg, s, p, refs, n, d)
  {
    hide Ahead;
    assert forall m :: m in s.inst ==> (Wants(cfg, s, m, d) <==> Wants(cfg, t, m, d));
  }

  // ----- Placing a device -----

  /** Where a device belongs: with the first of the best instances, or in the free pool. */
  ghost predicate Placed(cfg: Config, s: Plugin, p: PluginName, refs: seq<Ref>, d: Device) {
    if exists n :: n in s.inst && Wants(cfg, s, n, d) then
      exists n :: n in s.inst && FirstOfBest(cfg, s, p, refs, n, d) && d in s.inst[n].processed
    else d in s.free
  }

  lemma AddDeviceKeeps(cfg: Config, s: Plugin, d: Device)
    requires OrderListed(s)
    ensures var t := AddDevice(cfg, s, d);
            s.free <= t.free && t.inst.Keys == s.inst.Keys && forall n :: n in s.inst ==> s.inst[n].processed <= t.inst[n].processed
  {
    hide TuneKnobs, TuneStore, FirstMatch;
    FirstMatchListed(cfg, s, s.order, d);
  }

  lemma PlacedStays(cfg: Config, s: Plugin, t: Plugin, p: PluginName, refs: seq<Ref>, d: Device)
    requires Placed(cfg, s, p, refs, d) && SameInstances(s, t)
    requires s.free <= t.free && forall n :: n in s.inst ==> s.inst[n].processed <= t.inst[n].processed
    ensures Placed(cfg, t, p, refs, d)
  {
    hide FirstOfBest;
    assert forall m :: m in s.inst ==> (Wants(cfg, s, m, d) <==> Wants(cfg, t, m, d));
    if exists n :: n in s.inst && Wants(cfg, s, n, d) {
      var n :| n in s.inst && FirstOfBest(cfg, s, p, refs, n, d) && d in s.inst[n].processed;
      SameFirst(cfg, s, t, p, refs, n, d);
    }
  }

  lemma AddDevicePlaces(cfg: Config, s: Plugin, p: PluginName, refs: seq<Ref>, d: Device)
    requires Ordered(s) && InOrder(s, p, refs) && d !in s.claimed && d !in s.free
    ensures Placed(cfg, AddDevice(cfg, s, d), p, refs, d)
  {
    hide AddDevice, FirstOfBest, InOrder, Ordered;
    OrderedLists(s);
    EventsKeepInstances(cfg, s, d);
    AddDeviceOwner(cfg, s, p, refs, d);
    var t := AddDevice(cfg, s, d);
    assert forall m :: m in s.inst ==> (Wants(cfg, s, m, d) <==> Wants(cfg, t, m, d));
    if exists n :: n in s.inst && Wants(cfg, s, n, d) {
      var n :| n in s.inst && n in t.inst && FirstOfBest(cfg, s, p, refs, n, d) && d in t.inst[n].processed;
      SameFirst(cfg, s, t, p, refs, n, d);
    }
  }

  /** Main result: whatever happened before, a device that appears goes to the matching instance of the least priority
      that was created first, and is tuned there; a device that none matches becomes free. */
  lemma ArrivalPlaces(f: Fixed, sys: System, orig: Originals, e: Event)
    requires SysInv(f, sys, orig) && SysInOrder(f, sys) && Arrives(f, sys, e)
    ensures var t := Step(f, sys, e);
            e.plugin in t.plugins && Placed(f.cfg[e.plugin], t.plugins[e.plugin], e.plugin, sys.refs, e.device)
  {
    hide AddDevice, Appear, Owned, Saved, Placed, EqualsAhead;
    var s := sys.plugins[e.plugin];
    AddDevicePlaces(f.cfg[e.plugin], s.(knobs := Appear(s.knobs, e.device, e.values)), e.plugin, sys.refs, e.device);
  }

  lemma {:induction false} AddAllPlaces(cfg: Config, s: Plugin, p: PluginName, refs: seq<Ref>, ds: seq<Device>, d: Device)
    requires Ordered(s) && OrderListed(s) && InOrder(s, p, refs)
    requires Placed(cfg, s, p, refs, d) || (d in ds && forall e :: e in ds ==> e !in All(s))
    requires forall i, j :: 0 <= i < j < |ds| ==> ds[i] != ds[j]
    ensures Placed(cfg, AddAll(cfg, s, ds), p, refs, d)
    decreases |ds|
  {
    hide AddDevice, Placed, EqualsAhead, Ordered;
    if ds != [] {
      var t := AddDevice(cfg, s, ds[0]);
      EventsKeepInstances(cfg, s, ds[0]);
      SameInstancesOrdered(s, t);
      OrderedLists(t);
      SameEqualsAhead(s, t, p, refs);
      AddDeviceAll(cfg, s, ds[0]);
      AddDeviceKeeps(cfg, s, ds[0]);
      if Placed(cfg, s, p, refs, d) {
        PlacedStays(cfg, s, t, p, refs, d);
      } else if d == ds[0] {
        AddDevicePlaces(cfg, s, p, refs, d);
      }
      AddAllPlaces(cfg, t, p, refs, ds[1..], d);
    }
  }

  lemma SameEqualsAhead(s: Plugin, t: Plugin, p: PluginName, refs: seq<Ref>)
    requires OrderListed(s) && OrderListed(t) && SameInstances(s, t) && InOrder(s, p, refs)
    ensures InOrder(t, p, refs)
  {
    hide Ahead;
  }

  /** Main result: destroying an instance hands each of its devices to the remaining instance that matches it, has the
      least priority and was created first; a device that none matches becomes free. */
  lemma DestroyPlaces(f: Fixed, sys: System, name: Name, ds: seq<Device>, orig: Originals, d: Device)
    requires SysInv(f, sys, orig) && SysInOrder(f, sys)
    requires FindName(sys.refs, name).Some? && FindName(sys.refs, name).value.plugin in f.hotplug
    requires var r := FindName(sys.refs, name).value;
             Listed(sys, r) && Enumerates(ds, Processed(sys, r)) && d in Processed(sys, r)
    ensures var p, t := FindName(sys.refs, name).value.plugin, Destroy(f, sys, name, ds).0;
            p in t.plugins && Placed(f.cfg[p], t.plugins[p], p, t.refs, d)
  {
    hide Saved, Destroyed, AddAll, Ordered, EqualsAhead, Placed, All, Owned;
    FindNameListed(sys.refs, name);
    var q := FindName(sys.refs, name).value;
    var cfg, s := f.cfg[q.plugin], sys.plugins[q.plugin];
    assert Inv(cfg, s, orig[q.plugin]);
    DestroyedOrdered(cfg, s, q.name);
    DestroyedShape(cfg, s, q.name);
    DestroyedAll(cfg, s, q.name);
    var t := Destroyed(cfg, s, q.name);
    GoneInOrder(s, t, t, q.plugin, sys.refs, q.name);
    OrderedLists(t);
    AddAllPlaces(cfg, t, q.plugin, WithoutRef(sys.refs, q), ds, d);
  }

  // ----- The devices of a new instance -----

  /** The new instance takes the device over from the listed instance i. */
  ghost predicate TakesOver(f: Fixed, sys: System, i: nat, target: Ref, d: Device)
    requires WellFormed(f, sys) && i < |sys.refs| && target in sys.refs
  {
    var r := sys.refs[i];
    && r != target && r.plugin == target.plugin && Listed(sys, r) && Listed(sys, target)
    && PriorityOf(sys, target) <= PriorityOf(sys, r)
    && d in Processed(sys, r) && Wants(f.cfg[r.plugin], sys.plugins[r.plugin], target.name, d)
  }

  /** The new instance takes the device over from one of the listed instances k to n - 1. */
  ghost predicate TakesAmong(f: Fixed, sys: System, k: nat, n: nat, target: Ref, d: Device)
    requires WellFormed(f, sys) && k <= n <= |sys.refs| && target in sys.refs
  {
    exists i :: k <= i < n && TakesOver(f, sys, i, target, d)
  }

  /** The listed instance r has what it had, and the target has in addition what it takes over from the others. */
  ghost predicate TookOver(f: Fixed, sys: System, t: System, k: nat, n: nat, target: Ref, r: Ref, d: Device)
    requires WellFormed(f, sys) && WellFormed(f, t) && SameOrder(sys, t) && k <= n <= |sys.refs| && target in sys.refs && r in sys.refs
  {
    && Listed(sys, r) && Listed(t, r)
    && (d in Processed(t, r) <==>
        if r == target then d in Processed(sys, r) || TakesAmong(f, sys, k, n, target, d)
        else d in Processed(sys, r) && !exists i :: k <= i < n && sys.refs[i] == r && TakesOver(f, sys, i, target, d))
  }

  lemma TurnTakes(f: Fixed, sys: System, k: nat, target: Ref, r: Ref, d: Device)
    requires WellFormed(f, sys) && k < |sys.refs| && target in sys.refs && r in sys.refs
    requires WellFormed(f, Turn(f, sys, k, target)) && SameOrder(sys, Turn(f, sys, k, target))
    ensures TookOver(f, sys, Turn(f, sys, k, target), k, k + 1, target, r, d)
  {
    hide Move, Ordered, SameInstances;
    var q := sys.refs[k];
    assert Listed(sys, q) && Listed(sys, target) && Listed(sys, r);
    if q == target || q.plugin != target.plugin || PriorityOf(sys, target) > PriorityOf(sys, q) {
      assert !TakesOver(f, sys, k, target, d);
    } else {
      var s := sys.plugins[target.plugin];
      var moving := Matching(f.cfg[target.plugin], s.inst[target.name], s.inst[q.name].processed);
      assert d in moving <==> TakesOver(f, sys, k, target, d);
      MoveDevices(f.cfg[q.plugin], s, q.name, target.name, moving);
      assert Listed(Turn(f, sys, k, target), r);
    }
    hide TakesOver;
  }

  /** A turn changes nothing for the instances to come. */
  lemma TakesOverLater(f: Fixed, sys: System, u: System, k: nat, i: nat, target: Ref, d: Device)
    requires WellFormed(f, sys) && WellFormed(f, u) && SameOrder(sys, u) && k < i < |sys.refs| && target in sys.refs
    requires TookOver(f, sys, u, k, k + 1, target, sys.refs[i], d)
    ensures TakesOver(f, u, i, target, d) <==> TakesOver(f, sys, i, target, d)
  {
    hide Ordered;
    assert sys.refs[i] != sys.refs[k];
    assert Listed(sys, target) && Listed(u, target);
  }

  lemma TookOverTwice(f: Fixed, sys: System, u: System, t: System, k: nat, n: nat, target: Ref, r: Ref, d: Device)
    requires WellFormed(f, sys) && WellFormed(f, u) && WellFormed(f, t) && SameOrder(sys, u) && SameOrder(u, t) && SameOrder(sys, t)
    requires k < n <= |sys.refs| && target in sys.refs && r in sys.refs
    requires TookOver(f, sys, u, k, k + 1, target, r, d) && TookOver(f, u, t, k + 1, n, target, r, d)
    requires forall i :: k < i < |sys.refs| ==> (TakesOver(f, u, i, target, d) <==> TakesOver(f, sys, i, target, d))
    ensures TookOver(f, sys, t, k, n, target, r, d)
  {
    hide TakesOver, WellFormed, SameInstances;
  }

  lemma {:induction false} TransferTakes(f: Fixed, sys: System, k: nat, target: Ref, r: Ref, d: Device)
    requires WellFormed(f, sys) && k <= |sys.refs| && target in sys.refs && r in sys.refs
    ensures var t := TransferFrom(f, sys, k, target);
            WellFormed(f, t) && SameOrder(sys, t) && TookOver(f, sys, t, k, |sys.refs|, target, r, d)
    decreases |sys.refs| - k
  {
    hide WellFormed, SameInstances, TakesOver, TookOver, Turn, TransferFrom;
    if k == |sys.refs| {
      NoTurn(f, sys, target);
      NothingTaken(f, sys, target, r, d);
    } else {
      TransferOne(f, sys, k, target);
      TurnTakes(f, sys, k, target, r, d);
      var u := Turn(f, sys, k, target);
      TransferTakes(f, u, k + 1, target, r, d);
      var t := TransferFrom(f, u, k + 1, target);
      SameOrderTrans(sys, u, t);
      forall i | k < i < |sys.refs| ensures TakesOver(f, u, i, target, d) <==> TakesOver(f, sys, i, target, d) {
        TurnTakes(f, sys, k, target, sys.refs[i], d);
        TakesOverLater(f, sys, u, k, i, target, d);
      }
      TookOverTwice(f, sys, u, t, k, |sys.refs|, target, r, d);
    }
  }

  lemma NothingTaken(f: Fixed, sys: System, target: Ref, r: Ref, d: Device)
    requires WellFormed(f, sys) && target in sys.refs && r in sys.refs && SameOrder(sys, sys)
    ensures TookOver(f, sys, sys, |sys.refs|, |sys.refs|, target, r, d)
  {
    hide Ordered, TakesOver;
    assert Listed(sys, r);
  }

  /** Main result: a new instance ends with exactly the devices it matches that were free or were with an instance of
      its plugin of equal or worse priority; every other instance keeps exactly the rest. */
  lemma CreateTakes(f: Fixed, sys: System, r: Ref, priority: int, expression: string, options: map<Command, Value>,
                    q: Ref, d: Device)
    requires WellFormed(f, sys) && r.plugin in f.hotplug && r.plugin in sys.plugins && !Listed(sys, r)
    requires Listed(sys, q) || q == r
    ensures var t := Create(f, sys, r, priority, expression, options).0;
            var s := sys.plugins[r.plugin];
            var matches := f.cfg[r.plugin].matches(expression, d);
            && Listed(t, q)
            && (q == r ==>
                  (d in Processed(t, q) <==>
                   matches && (d in s.free || exists m :: m in s.inst && d in s.inst[m].processed && priority <= s.inst[m].priority)))
            && (q != r ==>
                  (d in Processed(t, q) <==>
                   d in Processed(sys, q) && !(matches && q.plugin == r.plugin && priority <= PriorityOf(sys, q))))
  {
    hide Created, TransferFrom, Ordered, SameInstances;
    var cfg, s := f.cfg[r.plugin], sys.plugins[r.plugin];
    var u := WithCreated(f, sys, r, priority, expression, options);
    WithCreatedWellFormed(f, sys, r, priority, expression, options);
    OrderedLists(s);
    CreatedShape(cfg, s, r.name, priority, expression, options);
    var D := Matching(cfg, Instance(priority, expression, options, true, {}, {}), s.free);
    assert Listed(u, q) && Listed(u, r);
    TransferTakes(f, u, 0, r, q, d);
    var t := TransferFrom(f, u, 0, r);
    assert d in D <==> d in s.free && cfg.matches(expression, d);
    forall i | 0 <= i < |u.refs|
      ensures TakesOver(f, u, i, r, d) <==>
              u.refs[i] != r && u.refs[i].plugin == r.plugin && cfg.matches(expression, d) && Listed(sys, u.refs[i]) &&
              priority <= PriorityOf(sys, u.refs[i]) && d in Processed(sys, u.refs[i])
    {
      assert Listed(u, u.refs[i]);
    }
    hide TakesOver;
    if q == r {
      forall m | m in s.inst ensures Ref(r.plugin, m) in u.refs { assert Listed(u, Ref(r.plugin, m)); }
    } else {
      assert q in u.refs;
    }
  }

  /** A create call succeeds exactly when the plugin is there, supports hot-plugging and has no instance of the name.
      Then the new instance is the last one of the list, with the priority, expression and options it was given; else
      nothing changes. */
  lemma CreateOutcome(f: Fixed, sys: System, r: Ref, priority: int, expression: string, options: map<Command, Value>)
    requires WellFormed(f, sys)
    ensures var (t, o) := Create(f, sys, r, priority, expression, options);
            && (o == Done <==> r.plugin in sys.plugins && r.plugin in f.hotplug && !Listed(sys, r))
            && (o != Done ==> t == sys)
            && (o == Done ==>
                  && t.refs == sys.refs + [r] && Listed(t, r)
                  && var n := t.plugins[r.plugin].inst[r.name];
                     n.priority == priority && n.expression == expression && n.options == options)
  {
    hide Created, TransferFrom, Ordered;
    if r.plugin in sys.plugins && r.plugin in f.hotplug && !Listed(sys, r) {
      var s, u := sys.plugins[r.plugin], WithCreated(f, sys, r, priority, expression, options);
      WithCreatedWellFormed(f, sys, r, priority, expression, options);
      OrderedLists(s);
      CreatedShape(f.cfg[r.plugin], s, r.name, priority, expression, options);
      TransferSameOrder(f, u, 0, r);
    }
  }

  /** A destroy call succeeds exactly when the first listed instance of the name is of a plugin that supports
      hot-plugging. Then that instance is gone and the others are listed as before; else nothing changes. */
  lemma DestroyOutcome(f: Fixed, sys: System, name: Name, ds: seq<Device>, orig: Originals, q: Ref)
    requires SysInv(f, sys, orig)
    ensures var (t, o) := Destroy(f, sys, name, ds);
            var found := FindName(sys.refs, name);
            && (o == Done <==> found.Some? && found.value.plugin in f.hotplug)
            && (o != Done ==> t == sys)
            && (o == Done ==> (Listed(t, q) <==> Listed(sys, q) && q != found.value) && t.refs == WithoutRef(sys.refs, found.value))
  {
    hide Inv, Destroyed, AddAll, Ordered;
    DestroyInv(f, sys, name, ds, orig);
    FindNameListed(sys.refs, name);
    var found := FindName(sys.refs, name);
    if found.Some? && found.value.plugin in f.hotplug {
      WithoutRefDistinct(sys.refs, found.value);
      var t := Destroy(f, sys, name, ds).0;
      assert q in t.refs <==> Listed(t, q);
      assert q in sys.refs <==> Listed(sys, q);
    }
  }

  // ----- From start-up on -----

  lemma {:induction false} CreateUnitsInOrder(f: Fixed, sys: System, units: seq<Unit>)
    requires WellFormed(f, sys) && SysInOrder(f, sys) && DistinctUnits(units)
    requires forall i :: 0 <= i < |units| ==> !Listed(sys, units[i].ref)
    ensures SysInOrder(f, CreateUnits(f, sys, units))
    decreases |units|
  {
    hide Ordered, InOrder, CreateUnit;
    if units != [] {
      CreateUnitWellFormed(f, sys, units[0]);
      CreateUnitInOrder(f, sys, units[0]);
      CreateUnitsInOrder(f, CreateUnit(f, sys, units[0]), units[1..]);
    }
  }

  lemma CreateUnitInOrder(f: Fixed, sys: System, u: Unit)
    requires WellFormed(f, sys) && SysInOrder(f, sys) && !Listed(sys, u.ref) && WellFormed(f, CreateUnit(f, sys, u))
    ensures SysInOrder(f, CreateUnit(f, sys, u))
  {
    hide Ordered, InOrder, CreateInstance;
    if u.ref.plugin in sys.plugins {
      var s := sys.plugins[u.ref.plugin];
      InstancesListed(f, sys, u.ref.plugin);
      InsertedInOrder(s, u.ref.plugin, sys.refs, u.ref.name, u.priority, u.expression, u.options);
      AddedInOrder(f, sys, CreateUnit(f, sys, u), u.ref,
                   CreateInstance(s, u.ref.name, u.priority, u.expression, u.options));
    }
  }

  /** Main result: in every state of every run from start-up on, instances of equal priority stand in the order in
      which they were created. */
  lemma StartUpThenRunInOrder(f: Fixed, sys: System, orig: Originals, configs: seq<UnitConfig>, defaultPriority: int, es: seq<Event>)
    requires Pristine(f, sys, orig) && DistinctConfigs(configs)
    ensures var last := Run(f, Prepared(f, sys, orig, configs, defaultPriority), orig, es).0;
            WellFormed(f, last) && SysInOrder(f, last)
  {
    hide Run, CreateUnits, AssignAll, SortUnits, Admitted, Inv, InOrder, Ordered;
    AdmittedDistinct(configs, defaultPriority);
    SortUnitsDistinct(Admitted(configs, defaultPriority));
    PristineInv(f, sys, orig);
    PristineInOrder(f, sys, orig);
    var units := SortUnits(Admitted(configs, defaultPriority));
    CreateUnitsInOrder(f, sys, units);
    var created := CreateUnits(f, sys, units);
    AssignKeepsAll(f, created, 0);
    SameOrderKeeps(f, created, AssignAll(f, created, 0));
    RunInOrder(f, Prepared(f, sys, orig, configs, defaultPriority), orig, es);
  }

  lemma PristineInOrder(f: Fixed, sys: System, orig: Originals)
    requires Pristine(f, sys, orig)
    ensures WellFormed(f, sys) && SysInOrder(f, sys)
  {
    PristineInv(f, sys, orig);
  }
}
