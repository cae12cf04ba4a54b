/** All plugins together with the unit manager's instance list, and the operations the daemon runs on
    them: start-up, hot-plug events, the D-Bus instance calls and the final stop
    (tuned/units/manager.py, tuned/daemon/controller.py). */
module DeviceSystem {
  import opened Text
  import opened PluginModel
  import opened PluginInvariants

  type PluginName(==, !new)

  /** An entry of the unit manager's instance list. */
  datatype Ref = Ref(plugin: PluginName, name: Name)

  /** What does not change: the plugins' configurations, and which plugins support hot-plugging. */
  datatype Fixed = Fixed(cfg: map<PluginName, Config>, hotplug: set<PluginName>)

  datatype System = System(plugins: map<PluginName, Plugin>, refs: seq<Ref>)

  datatype Outcome = Done | NotFound | NotHotplug | WrongType | Leftover | NameTaken

  ghost predicate Listed(sys: System, r: Ref) {
    r.plugin in sys.plugins && r.name in sys.plugins[r.plugin].inst
  }

  /** The instance list holds exactly the instances of all plugins, once each. */
  ghost predicate WellFormed(f: Fixed, sys: System) {
    && sys.plugins.Keys == f.cfg.Keys
    && (forall r :: r in sys.refs <==> Listed(sys, r))
    && (forall i, j :: 0 <= i < j < |sys.refs| ==> sys.refs[i] != sys.refs[j])
    && (forall p :: p in sys.plugins ==> Ordered(sys.plugins[p]))
  }

  ghost function Processed(sys: System, r: Ref): set<Device>
    requires Listed(sys, r)
  {
    sys.plugins[r.plugin].inst[r.name].processed
  }

  ghost function WithPlugin(sys: System, p: PluginName, t: Plugin): System {
    sys.(plugins := sys.plugins[p := t])
  }

  lemma WithPluginWellFormed(f: Fixed, sys: System, p: PluginName, t: Plugin)
    requires WellFormed(f, sys) && p in sys.plugins && Ordered(t) && t.inst.Keys == sys.plugins[p].inst.Keys
    ensures WellFormed(f, WithPlugin(sys, p, t))
  {
    var u := WithPlugin(sys, p, t);
    assert forall r :: Listed(u, r) <==> Listed(sys, r);
  }

  // ----- instance_acquire_devices -----

  function FindName(refs: seq<Ref>, name: Name): Option<Ref> {
    if refs == [] then None else if refs[0].name == name then Some(refs[0]) else FindName(refs[1..], name)
  }

  lemma FindNameListed(refs: seq<Ref>, name: Name)
    ensures FindName(refs, name).Some? ==> FindName(refs, name).value in refs && FindName(refs, name).value.name == name
  {
  }

  /** The first entry of the name is found. */
  lemma {:induction false} FindNameFirst(refs: seq<Ref>, name: Name, i: nat)
    requires i <= |refs| && (forall j :: 0 <= j < i ==> refs[j].name != name) && (i < |refs| ==> refs[i].name == name)
    ensures FindName(refs, name) == if i < |refs| then Some(refs[i]) else None
  {
    if 0 < i { FindNameFirst(refs[1..], name, i - 1); }
  }

  /** The loop over the instance list from position k, with `devs` still wanted. */
  ghost function AcquireFrom(f: Fixed, sys: System, k: nat, target: Ref, devs: set<Device>): (System, Outcome)
    requires WellFormed(f, sys) && k <= |sys.refs| && target in sys.refs
    decreases |sys.refs| - k
  {
    if k == |sys.refs| then (sys, if devs == {} then Done else Leftover)
    else
      var r := sys.refs[k];
      var moving := Processed(sys, r) * devs;
      if moving == {} then AcquireFrom(f, sys, k + 1, target, devs)
      else if r.plugin != target.plugin then (sys, WrongType)
      else
        MoveWellFormed(f, sys, r.plugin, r.name, target.name, moving);
        AcquireFrom(f, MoveIn(f, sys, r.plugin, r.name, target.name, moving), k + 1, target, devs - moving)
  }

  ghost function MoveIn(f: Fixed, sys: System, p: PluginName, a: Name, b: Name, D: set<Device>): System
    requires WellFormed(f, sys) && Listed(sys, Ref(p, a)) && Listed(sys, Ref(p, b))
  {
    WithPlugin(sys, p, Move(f.cfg[p], sys.plugins[p], a, b, D))
  }

  lemma MoveWellFormed(f: Fixed, sys: System, p: PluginName, a: Name, b: Name, D: set<Device>)
    requires WellFormed(f, sys) && Listed(sys, Ref(p, a)) && Listed(sys, Ref(p, b))
    ensures WellFormed(f, MoveIn(f, sys, p, a, b, D))
    ensures MoveIn(f, sys, p, a, b, D).refs == sys.refs
  {
    var t := Move(f.cfg[p], sys.plugins[p], a, b, D);
    MoveKeepsInstances(f.cfg[p], sys.plugins[p], a, b, D);
    SameInstancesOrdered(sys.plugins[p], t);
    WithPluginWellFormed(f, sys, p, t);
  }

  ghost function Acquire(f: Fixed, sys: System, devs: set<Device>, name: Name): (System, Outcome)
    requires WellFormed(f, sys)
  {
    match FindName(sys.refs, name)
    case None => (sys, NotFound)
    case Some(target) =>
      FindNameListed(sys.refs, name);
      if target.plugin !in f.hotplug then (sys, NotHotplug)
      else AcquireFrom(f, sys, 0, target, devs)
  }

  // ----- instance_create -----

  /** The loop that takes matching devices over from the instances at position k and later. */
  ghost function TransferFrom(f: Fixed, sys: System, k: nat, target: Ref): System
    requires WellFormed(f, sys) && k <= |sys.refs| && target in sys.refs
    decreases |sys.refs| - k
  {
    if k == |sys.refs| then sys
    else
      var r := sys.refs[k];
      assert Listed(sys, r);
      if r == target || r.plugin != target.plugin then TransferFrom(f, sys, k + 1, target)
      else
        var s := sys.plugins[target.plugin];
        if s.inst[target.name].priority > s.inst[r.name].priority then TransferFrom(f, sys, k + 1, target)
        else
          var moving := Matching(f.cfg[target.plugin], s.inst[target.name], s.inst[r.name].processed);
          if moving == {} then TransferFrom(f, sys, k + 1, target)
          else
            MoveWellFormed(f, sys, r.plugin, r.name, target.name, moving);
            TransferFrom(f, MoveIn(f, sys, r.plugin, r.name, target.name, moving), k + 1, target)
  }

  /** A new instance that has taken the matching free devices and tuned them. */
  ghost function Created(cfg: Config, s: Plugin, n: Name, priority: int, expression: string, options: map<Command, Value>): Plugin
    requires OrderListed(s)
  {
    ApplyTuning(cfg, AssignFree(cfg, CreateInstance(s, n, priority, expression, options), n), n)
  }

  lemma CreatedOrdered(cfg: Config, s: Plugin, n: Name, priority: int, expression: string, options: map<Command, Value>)
    requires Ordered(s) && n !in s.inst
    ensures var t := Created(cfg, s, n, priority, expression, options);
            Ordered(t) && t.inst.Keys == s.inst.Keys + {n}
  {
    hide ApplyTuning, AssignFree, InsertByPriority, ByPriority;
    var c := CreateInstance(s, n, priority, expression, options);
    CreateInstanceOrdered(s, n, priority, expression, options);
    var a := AssignFree(cfg, c, n);
    AssignKeepsInstances(cfg, c, n);
    ApplyKeepsInstances(cfg, a, n);
  }

  ghost function WithCreated(f: Fixed, sys: System, r: Ref, priority: int, expression: string, options: map<Command, Value>): System
    requires WellFormed(f, sys) && r.plugin in sys.plugins && !Listed(sys, r)
  {
    System(sys.plugins[r.plugin := Created(f.cfg[r.plugin], sys.plugins[r.plugin], r.name, priority, expression, options)],
           sys.refs + [r])
  }

  lemma WithCreatedWellFormed(f: Fixed, sys: System, r: Ref, priority: int, expression: string, options: map<Command, Value>)
    requires WellFormed(f, sys) && r.plugin in sys.plugins && !Listed(sys, r)
    ensures WellFormed(f, WithCreated(f, sys, r, priority, expression, options))
  {
    hide Created, Ordered;
    CreatedOrdered(f.cfg[r.plugin], sys.plugins[r.plugin], r.name, priority, expression, options);
    var u := WithCreated(f, sys, r, priority, expression, options);
    assert forall q :: Listed(u, q) <==> Listed(sys, q) || q == r;
  }

  ghost function Create(f: Fixed, sys: System, r: Ref, priority: int, expression: string, options: map<Command, Value>): (System, Outcome)
    requires WellFormed(f, sys)
  {
    if r.plugin !in sys.plugins then (sys, NotFound)
    else if r.plugin !in f.hotplug then (sys, NotHotplug)
    else if Listed(sys, r) then (sys, NameTaken)
    else
      WithCreatedWellFormed(f, sys, r, priority, expression, options);
      (TransferFrom(f, WithCreated(f, sys, r, priority, expression, options), 0, r), Done)
  }

  // ----- instance_destroy -----

  ghost function AddAll(cfg: Config, s: Plugin, ds: seq<Device>): Plugin
    requires Ordered(s)
    decreases |ds|
  {
    if ds == [] then s
    else
      EventsKeepInstances(cfg, s, ds[0]);
      SameInstancesOrdered(s, AddDevice(cfg, s, ds[0]));
      AddAll(cfg, AddDevice(cfg, s, ds[0]), ds[1..])
  }

  /** The plugin after the instance gave its devices up and was destroyed. */
  ghost function Destroyed(cfg: Config, s: Plugin, n: Name): Plugin
    requires n in s.inst
  {
    var t := RemoveDevices(cfg, s, n, s.inst[n].processed);
    DestroyInstance(UnapplyTuning(cfg, t, n), n)
  }

  lemma DestroyedOrdered(cfg: Config, s: Plugin, n: Name)
    requires n in s.inst && Ordered(s)
    ensures Ordered(Destroyed(cfg, s, n)) && Destroyed(cfg, s, n).inst.Keys == s.inst.Keys - {n}
  {
    var t := RemoveDevices(cfg, s, n, s.inst[n].processed);
    SameInstancesOrdered(s, t);
    SameInstancesOrdered(t, UnapplyTuning(cfg, t, n));
    DestroyOrdered(UnapplyTuning(cfg, t, n), n);
  }

  function WithoutRef(refs: seq<Ref>, r: Ref): seq<Ref> {
    if refs == [] then [] else if refs[0] == r then refs[1..] else [refs[0]] + WithoutRef(refs[1..], r)
  }

  /** `ds` is the order in which the destroyed instance's devices are handed out again. */
  ghost predicate Enumerates(ds: seq<Device>, D: set<Device>) {
    && (forall d :: d in ds <==> d in D)
    && (forall i, j :: 0 <= i < j < |ds| ==> ds[i] != ds[j])
  }

  ghost function Destroy(f: Fixed, sys: System, name: Name, ds: seq<Device>): (System, Outcome)
    requires WellFormed(f, sys)
  {
    match FindName(sys.refs, name)
    case None => (sys, NotFound)
    case Some(r) =>
      FindNameListed(sys.refs, name);
      if r.plugin !in f.hotplug then (sys, NotHotplug)
      else
        DestroyedOrdered(f.cfg[r.plugin], sys.plugins[r.plugin], r.name);
        (System(sys.plugins[r.plugin := AddAll(f.cfg[r.plugin], Destroyed(f.cfg[r.plugin], sys.plugins[r.plugin], r.name), ds)],
                WithoutRef(sys.refs, r)), Done)
  }

  // ----- Start and stop -----

  ghost function StartTuning(f: Fixed, sys: System, k: nat): (t: System)
    requires WellFormed(f, sys) && k <= |sys.refs|
    ensures WellFormed(f, t) && t.refs == sys.refs
    decreases |sys.refs| - k
  {
    if k == |sys.refs| then sys
    else
      var r := sys.refs[k];
      assert Listed(sys, r);
      var t := ApplyTuning(f.cfg[r.plugin], sys.plugins[r.plugin], r.name);
      SameInstancesOrdered(sys.plugins[r.plugin], t);
      WithPluginWellFormed(f, sys, r.plugin, t);
      StartTuning(f, WithPlugin(sys, r.plugin, t), k + 1)
  }

  /** Unapply the first k instances, last one first. */
  ghost function StopTuning(f: Fixed, sys: System, k: nat): (t: System)
    requires WellFormed(f, sys) && k <= |sys.refs|
    ensures WellFormed(f, t) && t.refs == sys.refs
    decreases k
  {
    if k == 0 then sys
    else
      var r := sys.refs[k - 1];
      assert Listed(sys, r);
      var t := UnapplyTuning(f.cfg[r.plugin], sys.plugins[r.plugin], r.name);
      SameInstancesOrdered(sys.plugins[r.plugin], t);
      WithPluginWellFormed(f, sys, r.plugin, t);
      StopTuning(f, WithPlugin(sys, r.plugin, t), k - 1)
  }

  // ----- Events and runs -----

  datatype Event =
    | HotAdd(plugin: PluginName, device: Device, values: Knobs)
    | HotRemove(plugin: PluginName, device: Device)
    | AcquireCall(devs: set<Device>, name: Name)
    | CreateCall(ref: Ref, priority: int, expression: string, options: map<Command, Value>)
    | DestroyCall(name: Name, ds: seq<Device>)
    | StartCall

  /** A device that appears brings its own knob values. */
  function Appear(knobs: Knobs, d: Device, values: Knobs): Knobs {
    (map k | k in knobs && k.device != d :: knobs[k]) + (map k | k in values && k.device == d :: values[k])
  }

  ghost predicate Known(s: Plugin, d: Device) {
    d in s.claimed || d in s.free
  }

  ghost predicate Arrives(f: Fixed, sys: System, e: Event) {
    e.HotAdd? && e.plugin in sys.plugins && e.plugin in f.hotplug && !Known(sys.plugins[e.plugin], e.device)
  }

  ghost function Step(f: Fixed, sys: System, e: Event): System
    requires WellFormed(f, sys)
  {
    match e
    case HotAdd(p, d, values) =>
      if Arrives(f, sys, e) then
        var s := sys.plugins[p];
        WithPlugin(sys, p, AddDevice(f.cfg[p], s.(knobs := Appear(s.knobs, d, values)), d))
      else sys
    case HotRemove(p, d) =>
      if p in sys.plugins && p in f.hotplug then WithPlugin(sys, p, RemoveDevice(f.cfg[p], sys.plugins[p], d)) else sys
    case AcquireCall(devs, name) => Acquire(f, sys, devs, name).0
    case CreateCall(r, priority, expression, options) => Create(f, sys, r, priority, expression, options).0
    case DestroyCall(name, ds) =>
      var r := FindName(sys.refs, name);
      FindNameListed(sys.refs, name);
      if r.Some? && Enumerates(ds, Processed(sys, r.value)) then Destroy(f, sys, name, ds).0 else sys
    case StartCall => StartTuning(f, sys, 0)
  }

  /** The knob values each present device had when it was first seen. */
  ghost function StepOrig(f: Fixed, sys: System, orig: map<PluginName, Knobs>, e: Event): map<PluginName, Knobs>
    requires orig.Keys == sys.plugins.Keys
  {
    if Arrives(f, sys, e) then orig[e.plugin := Appear(orig[e.plugin], e.device, e.values)] else orig
  }
}
