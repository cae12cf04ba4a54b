/** Which instance gets a device at start-up, stated over the units as the profile configures them: among the enabled
    units that fit the machine, have a supported plugin and match the device, the first one of the least priority
    (tuned/units/manager.py). */
module Owners {
  import opened Text
  import opened Lists
  import opened PluginModel
  import opened PluginInvariants
  import opened DeviceSystem
  import opened RollbackRuns
  import opened DeviceRuns
  import opened PriorityRuns
  import opened StartUp
  import opened TuningRuns

  // ----- The sort is stable -----

  lemma {:induction false} InsertUnitHas(units: seq<Unit>, u: Unit, v: Unit)
    ensures v in InsertUnit(units, u) <==> v in units || v == u
  {
    if units != [] && units[|units| - 1].priority > u.priority {
      InsertUnitHas(units[..|units| - 1], u, v);
      assert units == units[..|units| - 1] + [units[|units| - 1]];
    }
  }

  /** Inserting a unit leaves the others in their order, and puts the unit after all that are not worse. */
  lemma {:induction false} InsertUnitKeepsOrder(units: seq<Unit>, u: Unit, a: Unit, b: Unit)
    ensures Ahead(units, a, b) ==> Ahead(InsertUnit(units, u), a, b)
    ensures a in units && a.priority <= u.priority ==> Ahead(InsertUnit(units, u), a, u)
  {
    hide Ahead;
    if units == [] || units[|units| - 1].priority <= u.priority {
      if Ahead(units, a, b) { AheadGrows(units, [u], a, b); }
      if a in units { AheadJoint(units, [u], a, u); }
    } else {
      var front, last := units[..|units| - 1], units[|units| - 1];
      assert units == front + [last];
      InsertUnitKeepsOrder(front, u, a, b);
      InsertUnitHas(front, u, a);
      if Ahead(units, a, b) {
        AheadSnoc(front, last, a, b);
        if Ahead(front, a, b) { AheadGrows(InsertUnit(front, u), [last], a, b); } else { AheadJoint(InsertUnit(front, u), [last], a, b); }
      }
      if a in units && a.priority <= u.priority { AheadGrows(InsertUnit(front, u), [last], a, u); }
    }
  }

  /** A unit stays ahead of every later one that is not better. */
  lemma {:induction false} SortUnitsKeepsOrder(units: seq<Unit>, a: Unit, b: Unit)
    requires Ahead(units, a, b) && a.priority <= b.priority
    ensures Ahead(SortUnits(units), a, b)
  {
    hide Ahead, InsertUnit;
    if units == [] {
      assert false by { NothingAhead(units, a, b); }
    } else {
      var front, last := units[..|units| - 1], units[|units| - 1];
      assert units == front + [last];
      AheadSnoc(front, last, a, b);
      if Ahead(front, a, b) {
        SortUnitsKeepsOrder(front, a, b);
      } else {
        SortUnitsHas(front, a);
      }
      InsertUnitKeepsOrder(SortUnits(front), last, a, b);
    }
  }

  lemma SortUnitsHas(units: seq<Unit>, v: Unit)
    ensures v in SortUnits(units) <==> v in units
  {
    SortUnitsSorts(units);
    assert v in SortUnits(units) <==> v in multiset(SortUnits(units));
    assert v in units <==> v in multiset(units);
  }

  function OfPriority(units: seq<Unit>, q: int): seq<Unit> {
    if units == [] then []
    else OfPriority(units[..|units| - 1], q) + if units[|units| - 1].priority == q then [units[|units| - 1]] else []
  }

  lemma OfPrioritySnoc(units: seq<Unit>, u: Unit, q: int)
    ensures OfPriority(units + [u], q) == OfPriority(units, q) + if u.priority == q then [u] else []
  {
    assert (units + [u])[..|units|] == units;
  }

  lemma {:induction false} InsertUnitStable(units: seq<Unit>, u: Unit, q: int)
    ensures OfPriority(InsertUnit(units, u), q) == OfPriority(units, q) + if u.priority == q then [u] else []
  {
    hide OfPriority;
    if units == [] || units[|units| - 1].priority <= u.priority {
      OfPrioritySnoc(units, u, q);
    } else {
      var front, last := units[..|units| - 1], units[|units| - 1];
      InsertUnitStable(front, u, q);
      OfPrioritySnoc(InsertUnit(front, u), last, q);
      OfPrioritySnoc(front, last, q);
      assert units == front + [last];
    }
  }

  /** The units of each priority stay in their order. */
  lemma {:induction false} SortUnitsStable(units: seq<Unit>, q: int)
    ensures OfPriority(SortUnits(units), q) == OfPriority(units, q)
  {
    hide InsertUnit;
    if units != [] {
      SortUnitsStable(units[..|units| - 1], q);
      InsertUnitStable(SortUnits(units[..|units| - 1]), units[|units| - 1], q);
    }
  }

  // ----- The admitted units -----

  /** The priority of a unit, or the default one. */
  function Rank(c: UnitConfig, defaultPriority: int): int {
    match c.priority case Some(q) => q case None => defaultPriority
  }

  /** The unit is enabled, fits the machine and is of the plugin. */
  predicate Usable(c: UnitConfig, p: PluginName) {
    c.enabled && c.fitsCpu && c.fitsUname && c.ref.plugin == p
  }

  lemma {:induction false} AdmittedKeepsOrder(configs: seq<UnitConfig>, defaultPriority: int, i: nat, j: nat)
    requires i < j < |configs| && Admits(configs[i]) && Admits(configs[j])
    ensures Ahead(Admitted(configs, defaultPriority), AsUnit(configs[i], defaultPriority), AsUnit(configs[j], defaultPriority))
  {
    hide Ahead, Admits, AsUnit;
    var front, last := configs[..|configs| - 1], configs[|configs| - 1];
    var units := Admitted(front, defaultPriority);
    if j < |front| {
      AdmittedKeepsOrder(front, defaultPriority, i, j);
      AheadGrows(units, if Admits(last) then [AsUnit(last, defaultPriority)] else [], AsUnit(configs[i], defaultPriority),
                 AsUnit(configs[j], defaultPriority));
    } else {
      assert front[i] == configs[i];
      AdmittedHas(front, defaultPriority, AsUnit(configs[i], defaultPriority));
      AheadJoint(units, [AsUnit(last, defaultPriority)], AsUnit(configs[i], defaultPriority), AsUnit(last, defaultPriority));
    }
  }

  // ----- The created instances -----

  function RefsOf(units: seq<Unit>, supported: set<PluginName>): seq<Ref> {
    if units == [] then []
    else (if units[0].ref.plugin in supported then [units[0].ref] else []) + RefsOf(units[1..], supported)
  }

  lemma {:induction false} RefsOfHas(units: seq<Unit>, supported: set<PluginName>, r: Ref)
    ensures r in RefsOf(units, supported) <==> r.plugin in supported && exists u :: u in units && u.ref == r
  {
    if units != [] {
      RefsOfHas(units[1..], supported, r);
      assert units == [units[0]] + units[1..];
    }
  }

  lemma {:induction false} RefsOfKeepsOrder(units: seq<Unit>, supported: set<PluginName>, a: Unit, b: Unit)
    requires Ahead(units, a, b) && a.ref.plugin in supported && b.ref.plugin in supported
    ensures Ahead(RefsOf(units, supported), a.ref, b.ref)
  {
    var i, j :| 0 <= i < j < |units| && units[i] == a && units[j] == b;
    hide Ahead;
    var tail := units[1..];
    assert tail[j - 1] == b;
    if i == 0 {
      RefsOfHas(tail, supported, b.ref);
      AheadJoint([a.ref], RefsOf(tail, supported), a.ref, b.ref);
    } else {
      assert tail[i - 1] == a;
      AheadAt(tail, i - 1, j - 1);
      RefsOfKeepsOrder(tail, supported, a, b);
      AheadGrows(RefsOf(tail, supported), if units[0].ref.plugin in supported then [units[0].ref] else [], a.ref, b.ref);
    }
  }

  /** The instance of a unit as it is created. */
  ghost predicate Made(sys: System, u: Unit) {
    Listed(sys, u.ref) &&
    sys.plugins[u.ref.plugin].inst[u.ref.name] == Instance(u.priority, u.expression, u.options, true, {}, {})
  }

  ghost predicate SameFree(sys: System, t: System) {
    t.plugins.Keys == sys.plugins.Keys && forall p :: p in sys.plugins ==> t.plugins[p].free == sys.plugins[p].free
  }

  lemma CreateUnitMade(f: Fixed, sys: System, u: Unit)
    requires WellFormed(f, sys) && !Listed(sys, u.ref)
    ensures var t := CreateUnit(f, sys, u);
            && SameFree(sys, t)
            && t.refs == sys.refs + (if u.ref.plugin in f.cfg then [u.ref] else [])
            && (u.ref.plugin in f.cfg ==> Made(t, u))
            && (forall v :: Made(sys, v) ==> Made(t, v))
  {
    hide Ordered, InsertByPriority;
  }

  lemma {:induction false} CreateUnitsMade(f: Fixed, sys: System, units: seq<Unit>)
    requires WellFormed(f, sys) && DistinctUnits(units)
    requires forall i :: 0 <= i < |units| ==> !Listed(sys, units[i].ref)
    ensures var t := CreateUnits(f, sys, units);
            && SameFree(sys, t)
            && t.refs == sys.refs + RefsOf(units, f.cfg.Keys)
            && (forall u :: u in units && u.ref.plugin in f.cfg ==> Made(t, u))
            && (forall v :: Made(sys, v) ==> Made(t, v))
    decreases |units|
  {
    hide WellFormed, CreateUnit, Made;
    if units != [] {
      CreateUnitWellFormed(f, sys, units[0]);
      CreateUnitMade(f, sys, units[0]);
      CreateUnitsMade(f, CreateUnit(f, sys, units[0]), units[1..]);
      assert units == [units[0]] + units[1..];
      var own, rest := if units[0].ref.plugin in f.cfg then [units[0].ref] else [], RefsOf(units[1..], f.cfg.Keys);
      assert (sys.refs + own) + rest == sys.refs + (own + rest);
    }
  }

  // ----- Handing out the devices -----

  /** The listed instance is of the plugin and matches the device. */
  ghost predicate Asks(f: Fixed, sys: System, i: nat, p: PluginName, d: Device)
    requires WellFormed(f, sys) && i < |sys.refs|
  {
    sys.refs[i].plugin == p && Listed(sys, sys.refs[i]) && Wants(f.cfg[p], sys.plugins[p], sys.refs[i].name, d)
  }

  lemma AssignSame(f: Fixed, sys: System, k: nat)
    requires WellFormed(f, sys) && k < |sys.refs|
    ensures var r := sys.refs[k];
            && Listed(sys, r) && sys.plugins.Keys == f.cfg.Keys
            && var t := WithPlugin(sys, r.plugin, AssignFree(f.cfg[r.plugin], sys.plugins[r.plugin], r.name));
               && WellFormed(f, t) && t.refs == sys.refs && AssignAll(f, sys, k) == AssignAll(f, t, k + 1)
               && (forall p :: p in sys.plugins ==> p in t.plugins && SameInstances(sys.plugins[p], t.plugins[p]))
  {
    hide AssignFree, Ordered;
    var r := sys.refs[k];
    assert Listed(sys, r);
    AssignKeepsInstances(f.cfg[r.plugin], sys.plugins[r.plugin], r.name);
    WithPluginWellFormed(f, sys, r.plugin, AssignFree(f.cfg[r.plugin], sys.plugins[r.plugin], r.name));
  }

  lemma AssignDone(f: Fixed, sys: System)
    requires WellFormed(f, sys)
    ensures AssignAll(f, sys, |sys.refs|) == sys
  {
  }

  lemma SameAsks(f: Fixed, sys: System, t: System, i: nat, p: PluginName, d: Device)
    requires WellFormed(f, sys) && WellFormed(f, t) && t.refs == sys.refs && i < |sys.refs|
    requires forall q :: q in sys.plugins ==> q in t.plugins && SameInstances(sys.plugins[q], t.plugins[q])
    ensures Asks(f, sys, i, p, d) <==> Asks(f, t, i, p, d)
  {
    hide Ordered;
  }

  /** What one instance does with the device. */
  lemma AssignOne(cfg: Config, s: Plugin, n: Name, m: Name, d: Device)
    requires n in s.inst && m in s.inst
    ensures var t := AssignFree(cfg, s, n);
            && m in t.inst
            && (d in t.free <==> d in s.free && !Wants(cfg, s, n, d))
            && (d in s.inst[m].pending || (m == n && d in s.free && Wants(cfg, s, n, d)) ==> d in t.inst[m].pending)
  {
  }

  /** A device that an instance has keeps with it. */
  lemma {:induction false} AssignKeeps(f: Fixed, sys: System, k: nat, r: Ref, d: Device)
    requires WellFormed(f, sys) && k <= |sys.refs| && Listed(sys, r) && d in sys.plugins[r.plugin].inst[r.name].pending
    ensures var t := AssignAll(f, sys, k); Listed(t, r) && d in t.plugins[r.plugin].inst[r.name].pending
    decreases |sys.refs| - k
  {
    hide AssignFree, WellFormed, AssignAll, SameInstances;
    if k == |sys.refs| {
      AssignDone(f, sys);
    } else {
      AssignSame(f, sys, k);
      var q := sys.refs[k];
      var t := WithPlugin(sys, q.plugin, AssignFree(f.cfg[q.plugin], sys.plugins[q.plugin], q.name));
      if q.plugin == r.plugin { AssignOne(f.cfg[q.plugin], sys.plugins[q.plugin], q.name, r.name, d); }
      AssignKeeps(f, t, k + 1, r, d);
    }
  }

  /** A free device goes to the first listed instance that matches it, and stays free if none does. */
  lemma {:induction false} AssignAllOwner(f: Fixed, sys: System, k: nat, p: PluginName, d: Device, i: nat)
    requires WellFormed(f, sys) && k <= i <= |sys.refs| && p in sys.plugins && d in sys.plugins[p].free
    requires forall j :: k <= j < i ==> !Asks(f, sys, j, p, d)
    requires i < |sys.refs| ==> Asks(f, sys, i, p, d)
    ensures var t := AssignAll(f, sys, k);
            && p in t.plugins
            && (i < |sys.refs| ==> Listed(t, sys.refs[i]) && d in t.plugins[p].inst[sys.refs[i].name].pending)
            && (i == |sys.refs| ==> d in t.plugins[p].free)
    decreases |sys.refs| - k
  {
    hide AssignFree, WellFormed, AssignAll, SameInstances;
    if k == |sys.refs| {
      AssignDone(f, sys);
    } else {
      AssignSame(f, sys, k);
      var q := sys.refs[k];
      var t := WithPlugin(sys, q.plugin, AssignFree(f.cfg[q.plugin], sys.plugins[q.plugin], q.name));
      if q.plugin == p { AssignOne(f.cfg[p], sys.plugins[p], q.name, q.name, d); }
      if k == i {
        AssignKeeps(f, t, k + 1, q, d);
      } else {
        assert !Asks(f, sys, k, p, d);
        forall j | k + 1 <= j < |sys.refs| ensures Asks(f, sys, j, p, d) <==> Asks(f, t, j, p, d) {
          SameAsks(f, sys, t, j, p, d);
        }
        AssignAllOwner(f, t, k + 1, p, d, i);
      }
    }
  }

  // ----- Starting to tune -----

  lemma ApplyOne(cfg: Config, s: Plugin, n: Name, m: Name)
    requires n in s.inst && m in s.inst
    ensures var t := ApplyTuning(cfg, s, n);
            m in t.inst && Devices(t.inst[m]) == Devices(s.inst[m]) && t.inst[m].active == s.inst[m].active && t.free == s.free
  {
    hide TuneKnobs, TuneStore;
  }

  /** The instance as it is but for its devices' progress. */
  ghost predicate SameOwner(sys: System, t: System, r: Ref) {
    Listed(sys, r) ==>
      && Listed(t, r) && t.plugins[r.plugin].free == sys.plugins[r.plugin].free
      && var i, j := sys.plugins[r.plugin].inst[r.name], t.plugins[r.plugin].inst[r.name];
         Devices(i) == Devices(j) && i.active == j.active && i.priority == j.priority && i.expression == j.expression && i.options == j.options
  }

  lemma ApplySameOwner(f: Fixed, sys: System, q: Ref, r: Ref)
    requires WellFormed(f, sys) && Listed(sys, q)
    ensures var s := sys.plugins[q.plugin];
            var t := ApplyTuning(f.cfg[q.plugin], s, q.name);
            SameOwner(sys, WithPlugin(sys, q.plugin, t), r) && t.free == s.free
  {
    hide ApplyTuning, WellFormed, Devices;
    assert sys.plugins.Keys == f.cfg.Keys && Ordered(sys.plugins[q.plugin]) by { OrderedPlugin(f, sys, q.plugin); }
    var s := sys.plugins[q.plugin];
    ApplyKeepsInstances(f.cfg[q.plugin], s, q.name);
    ApplyOne(f.cfg[q.plugin], s, q.name, q.name);
    if Listed(sys, r) && r.plugin == q.plugin { ApplyOne(f.cfg[q.plugin], s, q.name, r.name); }
  }

  lemma OrderedPlugin(f: Fixed, sys: System, p: PluginName)
    requires WellFormed(f, sys) && p in sys.plugins
    ensures sys.plugins.Keys == f.cfg.Keys && Ordered(sys.plugins[p])
  {
  }

  lemma StartSame(f: Fixed, sys: System, k: nat, r: Ref)
    requires WellFormed(f, sys) && k < |sys.refs|
    ensures var q := sys.refs[k];
            && Listed(sys, q) && sys.plugins.Keys == f.cfg.Keys
            && var t := WithPlugin(sys, q.plugin, ApplyTuning(f.cfg[q.plugin], sys.plugins[q.plugin], q.name));
               && WellFormed(f, t) && t.refs == sys.refs && StartTuning(f, sys, k) == StartTuning(f, t, k + 1)
               && SameOwner(sys, t, r) && (forall p :: p in sys.plugins ==> p in t.plugins && t.plugins[p].free == sys.plugins[p].free)
  {
    hide ApplyTuning, Ordered, SameOwner;
    var q := sys.refs[k];
    assert Listed(sys, q);
    var s := sys.plugins[q.plugin];
    ApplyKeepsInstances(f.cfg[q.plugin], s, q.name);
    WithPluginWellFormed(f, sys, q.plugin, ApplyTuning(f.cfg[q.plugin], s, q.name));
    ApplySameOwner(f, sys, q, r);
  }

  lemma {:induction false} StartKeepsOwner(f: Fixed, sys: System, k: nat, r: Ref)
    requires WellFormed(f, sys) && k <= |sys.refs|
    ensures var t := StartTuning(f, sys, k);
            SameOwner(sys, t, r) && forall p :: p in sys.plugins ==> p in t.plugins && t.plugins[p].free == sys.plugins[p].free
    decreases |sys.refs| - k
  {
    hide ApplyTuning, WellFormed, StartTuning, Devices;
    if k == |sys.refs| {
      StartDone(f, sys);
    } else {
      StartSame(f, sys, k, r);
      var q := sys.refs[k];
      StartKeepsOwner(f, WithPlugin(sys, q.plugin, ApplyTuning(f.cfg[q.plugin], sys.plugins[q.plugin], q.name)), k + 1, r);
    }
  }

  lemma StartDone(f: Fixed, sys: System)
    requires WellFormed(f, sys)
    ensures StartTuning(f, sys, |sys.refs|) == sys
  {
  }

  // ----- Start-up from the configured units -----

  /** The system after `create`, from the units as the profile has them. */
  ghost function Prepared(f: Fixed, sys: System, orig: Originals, configs: seq<UnitConfig>, defaultPriority: int): (t: System)
    requires Pristine(f, sys, orig) && DistinctConfigs(configs)
    ensures SysInv(f, t, orig)
  {
    AdmittedDistinct(configs, defaultPriority);
    SortUnitsDistinct(Admitted(configs, defaultPriority));
    Configured(f, sys, orig, SortUnits(Admitted(configs, defaultPriority)))
  }

  /** The unit could have the device. */
  predicate Candidate(f: Fixed, c: UnitConfig, p: PluginName, d: Device)
    requires p in f.cfg
  {
    Usable(c, p) && f.cfg[p].matches(c.expression, d)
  }

  /** Unit i is the first candidate of the least priority. */
  ghost predicate FirstChoice(f: Fixed, configs: seq<UnitConfig>, defaultPriority: int, p: PluginName, d: Device, i: nat)
    requires p in f.cfg && i < |configs|
  {
    && Candidate(f, configs[i], p, d)
    && forall j :: 0 <= j < |configs| && Candidate(f, configs[j], p, d) ==>
         var a, b := Rank(configs[i], defaultPriority), Rank(configs[j], defaultPriority); a < b || (a == b && i <= j)
  }

  lemma {:induction false} ChoiceExists(f: Fixed, configs: seq<UnitConfig>, defaultPriority: int, p: PluginName, d: Device) returns (i: nat)
    requires p in f.cfg && exists j :: 0 <= j < |configs| && Candidate(f, configs[j], p, d)
    ensures i < |configs| && FirstChoice(f, configs, defaultPriority, p, d, i)
  {
    hide Candidate, Rank;
    var n := |configs| - 1;
    var front := configs[..n];
    if exists j :: 0 <= j < n && Candidate(f, front[j], p, d) {
      i := ChoiceExists(f, front, defaultPriority, p, d);
      assert front[i] == configs[i] && forall j :: 0 <= j < n ==> front[j] == configs[j];
      if Candidate(f, configs[n], p, d) && Rank(configs[n], defaultPriority) < Rank(configs[i], defaultPriority) {
        i := n;
      }
    } else {
      i := n;
      assert forall j :: 0 <= j < n ==> front[j] == configs[j];
    }
  }

  /** A better or earlier unit comes first in the sorted list. */
  lemma ChosenAhead(configs: seq<UnitConfig>, defaultPriority: int, i: nat, j: nat)
    requires i < |configs| && j < |configs| && i != j && Admits(configs[i]) && Admits(configs[j])
    requires var a, b := Rank(configs[i], defaultPriority), Rank(configs[j], defaultPriority); a < b || (a == b && i < j)
    ensures Ahead(SortUnits(Admitted(configs, defaultPriority)), AsUnit(configs[i], defaultPriority), AsUnit(configs[j], defaultPriority))
  {
    var units := Admitted(configs, defaultPriority);
    var a, b := AsUnit(configs[i], defaultPriority), AsUnit(configs[j], defaultPriority);
    hide Ahead, Admits, SortUnits, Admitted;
    if i < j {
      AdmittedKeepsOrder(configs, defaultPriority, i, j);
      SortUnitsKeepsOrder(units, a, b);
    } else {
      AdmittedHas(configs, defaultPriority, a);
      AdmittedHas(configs, defaultPriority, b);
      SortUnitsHas(units, a);
      SortUnitsHas(units, b);
      SortUnitsSorts(units);
      SmallerAhead(SortUnits(units), a, b);
    }
  }

  lemma SmallerAhead(units: seq<Unit>, a: Unit, b: Unit)
    requires SortedUnits(units) && a in units && b in units && a.priority < b.priority
    ensures Ahead(units, a, b)
  {
    var i, j :| 0 <= i < |units| && units[i] == a && 0 <= j < |units| && units[j] == b;
    assert i < j;
  }

  /** The instances after creation: one for each usable unit, with its priority, expression and options. */
  lemma CreatedConfigs(f: Fixed, sys: System, orig: Originals, configs: seq<UnitConfig>, defaultPriority: int)
    requires Pristine(f, sys, orig) && DistinctConfigs(configs)
    ensures var units := SortUnits(Admitted(configs, defaultPriority));
            && DistinctUnits(units) && WellFormed(f, sys) && (forall i :: 0 <= i < |units| ==> !Listed(sys, units[i].ref))
            && var t := CreateUnits(f, sys, units);
               && SameFree(sys, t) && t.refs == RefsOf(units, f.cfg.Keys)
               && (forall i :: 0 <= i < |configs| && Admits(configs[i]) && configs[i].ref.plugin in f.cfg ==>
                     Made(t, AsUnit(configs[i], defaultPriority)))
               && (forall r :: r in t.refs ==> exists i :: 0 <= i < |configs| && Admits(configs[i]) && configs[i].ref == r)
  {
    hide Admits, SortUnits, Admitted, CreateUnits, Made, Inv;
    AdmittedDistinct(configs, defaultPriority);
    var admitted := Admitted(configs, defaultPriority);
    var units := SortUnits(admitted);
    SortUnitsDistinct(admitted);
    PristineInv(f, sys, orig);
    CreateUnitsMade(f, sys, units);
    forall i | 0 <= i < |configs| && Admits(configs[i]) ensures AsUnit(configs[i], defaultPriority) in units {
      AdmittedHas(configs, defaultPriority, AsUnit(configs[i], defaultPriority));
      SortUnitsHas(admitted, AsUnit(configs[i], defaultPriority));
    }
    assert sys.refs + RefsOf(units, f.cfg.Keys) == RefsOf(units, f.cfg.Keys);
    forall r | r in RefsOf(units, f.cfg.Keys) ensures exists i :: 0 <= i < |configs| && Admits(configs[i]) && configs[i].ref == r {
      RefsOfHas(units, f.cfg.Keys, r);
      var u :| u in units && u.ref == r;
      SortUnitsHas(admitted, u);
      AdmittedHas(configs, defaultPriority, u);
    }
  }

  /** The first choice is asked before every other candidate. */
  lemma FirstAsked(f: Fixed, sys: System, orig: Originals, configs: seq<UnitConfig>, defaultPriority: int, p: PluginName, d: Device, i: nat)
      returns (m: nat)
    requires Pristine(f, sys, orig) && DistinctConfigs(configs) && p in f.cfg
    requires i < |configs| && FirstChoice(f, configs, defaultPriority, p, d, i)
    requires var units := SortUnits(Admitted(configs, defaultPriority));
             DistinctUnits(units) && WellFormed(f, sys) && forall i :: 0 <= i < |units| ==> !Listed(sys, units[i].ref)
    ensures var t := CreateUnits(f, sys, SortUnits(Admitted(configs, defaultPriority)));
            && m < |t.refs| && t.refs[m] == configs[i].ref && Asks(f, t, m, p, d)
            && forall j :: 0 <= j < m ==> !Asks(f, t, j, p, d)
  {
    hide SortUnits, Admitted, CreateUnits, Ordered, RefsOf;
    CreatedConfigs(f, sys, orig, configs, defaultPriority);
    var units := SortUnits(Admitted(configs, defaultPriority));
    var t := CreateUnits(f, sys, units);
    assert Made(t, AsUnit(configs[i], defaultPriority));
    assert configs[i].ref in t.refs;
    m :| 0 <= m < |t.refs| && t.refs[m] == configs[i].ref;
    forall j | 0 <= j < |t.refs| && j != m && Asks(f, t, j, p, d) ensures m < j {
      var c :| 0 <= c < |configs| && Admits(configs[c]) && configs[c].ref == t.refs[j];
      assert Made(t, AsUnit(configs[c], defaultPriority));
      assert Candidate(f, configs[c], p, d) && c != i;
      ChosenAhead(configs, defaultPriority, i, c);
      RefsOfKeepsOrder(units, f.cfg.Keys, AsUnit(configs[i], defaultPriority), AsUnit(configs[c], defaultPriority));
      AheadOnce(t.refs, configs[i].ref, m, j);
    }
  }

  lemma {:induction false} AssignKeepsAll(f: Fixed, sys: System, k: nat)
    requires WellFormed(f, sys) && k <= |sys.refs|
    ensures var t := AssignAll(f, sys, k);
            && t.plugins.Keys == sys.plugins.Keys
            && (forall p :: p in sys.plugins ==> SameInstances(sys.plugins[p], t.plugins[p]))
    decreases |sys.refs| - k
  {
    hide AssignFree, WellFormed, AssignAll;
    if k == |sys.refs| {
      AssignDone(f, sys);
    } else {
      AssignSame(f, sys, k);
      var q := sys.refs[k];
      AssignKeepsAll(f, WithPlugin(sys, q.plugin, AssignFree(f.cfg[q.plugin], sys.plugins[q.plugin], q.name)), k + 1);
    }
  }

  /** The state in which every device has found its owner. */
  ghost function Started(f: Fixed, sys: System, orig: Originals, configs: seq<UnitConfig>, defaultPriority: int): (t: System)
    requires Pristine(f, sys, orig) && DistinctConfigs(configs)
    ensures SysInv(f, t, orig)
  {
    StartTuningInv(f, Prepared(f, sys, orig, configs, defaultPriority), 0, orig);
    StartTuning(f, Prepared(f, sys, orig, configs, defaultPriority), 0)
  }

  /** After start-up there is exactly one instance for each usable unit of a supported plugin, with the unit's own
      priority or the default one, its expression and its options. */
  lemma StartUpInstances(f: Fixed, sys: System, orig: Originals, configs: seq<UnitConfig>, defaultPriority: int, r: Ref)
    requires Pristine(f, sys, orig) && DistinctConfigs(configs)
    ensures var t := Started(f, sys, orig, configs, defaultPriority);
            && (Listed(t, r) <==> r.plugin in f.cfg && exists i :: 0 <= i < |configs| && Usable(configs[i], r.plugin) && configs[i].ref == r)
            && forall i :: 0 <= i < |configs| && Usable(configs[i], r.plugin) && configs[i].ref == r && r.plugin in f.cfg ==>
                 var n, c := t.plugins[r.plugin].inst[r.name], configs[i];
                 n.priority == Rank(c, defaultPriority) && n.expression == c.expression && n.options == c.options
  {
    hide SortUnits, Admitted, CreateUnits, AssignAll, StartTuning, Ordered, RefsOf, Inv;
    CreatedConfigs(f, sys, orig, configs, defaultPriority);
    var created := CreateUnits(f, sys, SortUnits(Admitted(configs, defaultPriority)));
    AssignKeepsAll(f, created, 0);
    var prepared := AssignAll(f, created, 0);
    StartKeepsOwner(f, prepared, 0, r);
    assert r in created.refs <==> Listed(created, r);
    forall i | 0 <= i < |configs| && Usable(configs[i], r.plugin) && configs[i].ref == r && r.plugin in f.cfg
      ensures Made(created, AsUnit(configs[i], defaultPriority))
    {
      assert Admits(configs[i]);
    }
    var t := StartTuning(f, prepared, 0);
    assert r in prepared.refs <==> Listed(prepared, r);
    assert r in t.refs <==> Listed(t, r);
  }

  lemma StartedBest(f: Fixed, sys: System, orig: Originals, configs: seq<UnitConfig>, defaultPriority: int)
    requires Pristine(f, sys, orig) && DistinctConfigs(configs)
    ensures SysBest(f, Started(f, sys, orig, configs, defaultPriority))
  {
    hide SortUnits, Admitted, Configured, StartTuning, SysBest, Inv;
    AdmittedDistinct(configs, defaultPriority);
    SortUnitsDistinct(Admitted(configs, defaultPriority));
    SortUnitsSorts(Admitted(configs, defaultPriority));
    StartUpBest(f, sys, orig, SortUnits(Admitted(configs, defaultPriority)));
  }

  /** After start-up an instance is active exactly when it has devices. */
  lemma StartUpActive(f: Fixed, sys: System, orig: Originals, configs: seq<UnitConfig>, defaultPriority: int, r: Ref)
    requires Pristine(f, sys, orig) && DistinctConfigs(configs)
    ensures var t := Started(f, sys, orig, configs, defaultPriority);
            Listed(t, r) ==> (t.plugins[r.plugin].inst[r.name].active <==> Processed(t, r) != {})
  {
    hide SortUnits, Admitted, CreateUnits, AssignAll, StartTuning, Inv, WellFormed, SysChoosing, Best, RefsByPriority, Blank;
    CreatedConfigs(f, sys, orig, configs, defaultPriority);
    SortUnitsSorts(Admitted(configs, defaultPriority));
    var units := SortUnits(Admitted(configs, defaultPriority));
    NothingSorted(f, sys, orig);
    CreateUnitsSorted(f, sys, units);
    var created := CreateUnits(f, sys, units);
    BlankIsChoosing(f, created);
    AssignAllChooses(f, created, 0);
    var prepared := AssignAll(f, created, 0);
    StartKeepsOwner(f, prepared, 0, r);
    StartedBest(f, sys, orig, configs, defaultPriority);
    var t := Started(f, sys, orig, configs, defaultPriority);
    if Listed(t, r) {
      assert Settled(t.plugins[r.plugin]);
      SameListed(f, prepared, t, r);
      ChosenActive(f, prepared, r);
    }
  }

  lemma NothingSorted(f: Fixed, sys: System, orig: Originals)
    requires Pristine(f, sys, orig)
    ensures WellFormed(f, sys) && RefsByPriority(sys) && Blank(sys) && sys.refs == []
  {
    PristineInv(f, sys, orig);
  }

  lemma SameListed(f: Fixed, sys: System, t: System, r: Ref)
    requires WellFormed(f, sys) && WellFormed(f, t) && t.refs == sys.refs && Listed(t, r)
    ensures Listed(sys, r)
  {
    hide Ordered;
    assert r in t.refs;
  }

  lemma ChosenActive(f: Fixed, sys: System, r: Ref)
    requires WellFormed(f, sys) && SysChoosing(f, sys, |sys.refs|) && Listed(sys, r)
    ensures var i := sys.plugins[r.plugin].inst[r.name]; i.active <==> Devices(i) != {}
  {
    hide Ordered;
    AllNames(f, sys, r.plugin, r.name);
    assert Choosing(f.cfg[r.plugin], sys.plugins[r.plugin], Names(sys.refs[..|sys.refs|], r.plugin));
  }

  lemma ChosenOwns(f: Fixed, sys: System, orig: Originals, configs: seq<UnitConfig>, defaultPriority: int, p: PluginName, d: Device, i: nat)
    requires Pristine(f, sys, orig) && DistinctConfigs(configs) && p in sys.plugins && d in sys.plugins[p].free
    requires i < |configs| && FirstChoice(f, configs, defaultPriority, p, d, i)
    ensures var t := Started(f, sys, orig, configs, defaultPriority);
            Listed(t, configs[i].ref) && d in Processed(t, configs[i].ref)
  {
    hide Candidate, Rank, SortUnits, Admitted, CreateUnits, AssignAll, StartTuning, Inv, WellFormed, Made, RefsOf, Asks, Best;
    CreatedConfigs(f, sys, orig, configs, defaultPriority);
    var created := CreateUnits(f, sys, SortUnits(Admitted(configs, defaultPriority)));
    var m := FirstAsked(f, sys, orig, configs, defaultPriority, p, d, i);
    AskedOf(f, created, m, p, d);
    AssignAllOwner(f, created, 0, p, d, m);
    var prepared := AssignAll(f, created, 0);
    StartKeepsOwner(f, prepared, 0, configs[i].ref);
    StartedBest(f, sys, orig, configs, defaultPriority);
    var t := Started(f, sys, orig, configs, defaultPriority);
    assert Settled(t.plugins[p]);
  }

  lemma AskedOf(f: Fixed, sys: System, i: nat, p: PluginName, d: Device)
    requires WellFormed(f, sys) && i < |sys.refs| && Asks(f, sys, i, p, d)
    ensures sys.refs[i].plugin == p
  {
  }

  lemma NobodyAsks(f: Fixed, sys: System, orig: Originals, configs: seq<UnitConfig>, defaultPriority: int, p: PluginName, d: Device)
    requires Pristine(f, sys, orig) && DistinctConfigs(configs) && p in f.cfg
    requires forall i :: 0 <= i < |configs| ==> !Candidate(f, configs[i], p, d)
    requires var units := SortUnits(Admitted(configs, defaultPriority));
             DistinctUnits(units) && WellFormed(f, sys) && forall i :: 0 <= i < |units| ==> !Listed(sys, units[i].ref)
    ensures var t := CreateUnits(f, sys, SortUnits(Admitted(configs, defaultPriority)));
            forall j :: 0 <= j < |t.refs| ==> !Asks(f, t, j, p, d)
  {
    hide SortUnits, Admitted, CreateUnits, Ordered, RefsOf;
    CreatedConfigs(f, sys, orig, configs, defaultPriority);
    var t := CreateUnits(f, sys, SortUnits(Admitted(configs, defaultPriority)));
    forall j | 0 <= j < |t.refs| && t.refs[j].plugin == p ensures !Asks(f, t, j, p, d) {
      assert t.refs[j] in t.refs && Listed(t, t.refs[j]);
      var c :| 0 <= c < |configs| && Admits(configs[c]) && configs[c].ref == t.refs[j];
      assert Made(t, AsUnit(configs[c], defaultPriority));
      assert !Candidate(f, configs[c], p, d);
    }
  }

  lemma NobodyOwns(f: Fixed, sys: System, orig: Originals, configs: seq<UnitConfig>, defaultPriority: int, p: PluginName, d: Device)
    requires Pristine(f, sys, orig) && DistinctConfigs(configs) && p in sys.plugins && d in sys.plugins[p].free
    requires forall i :: 0 <= i < |configs| ==> !Candidate(f, configs[i], p, d)
    ensures var t := Started(f, sys, orig, configs, defaultPriority); p in t.plugins && d in t.plugins[p].free
  {
    hide Candidate, Rank, SortUnits, Admitted, CreateUnits, AssignAll, StartTuning, Inv, WellFormed, Made, RefsOf, Asks;
    CreatedConfigs(f, sys, orig, configs, defaultPriority);
    var created := CreateUnits(f, sys, SortUnits(Admitted(configs, defaultPriority)));
    NobodyAsks(f, sys, orig, configs, defaultPriority, p, d);
    AssignAllOwner(f, created, 0, p, d, |created.refs|);
    StartKeepsFree(f, AssignAll(f, created, 0), 0);
  }

  lemma {:induction false} StartKeepsFree(f: Fixed, sys: System, k: nat)
    requires WellFormed(f, sys) && k <= |sys.refs|
    ensures SameFree(sys, StartTuning(f, sys, k))
    decreases |sys.refs| - k
  {
    hide ApplyTuning, WellFormed, StartTuning, SameOwner;
    if k == |sys.refs| {
      StartDone(f, sys);
    } else {
      var q := sys.refs[k];
      StartSame(f, sys, k, q);
      StartKeepsFree(f, WithPlugin(sys, q.plugin, ApplyTuning(f.cfg[q.plugin], sys.plugins[q.plugin], q.name)), k + 1);
    }
  }

  /** Main result: start-up gives each device to the first configured unit among those of the least priority that are
      enabled, fit the machine, have a supported plugin and match the device; without one the device stays free. */
  lemma StartUpOwner(f: Fixed, sys: System, orig: Originals, configs: seq<UnitConfig>, defaultPriority: int, p: PluginName, d: Device)
    requires Pristine(f, sys, orig) && DistinctConfigs(configs) && p in sys.plugins && d in sys.plugins[p].free
    ensures var t := Started(f, sys, orig, configs, defaultPriority);
            if exists i :: 0 <= i < |configs| && Candidate(f, configs[i], p, d) then
              exists i :: 0 <= i < |configs| && FirstChoice(f, configs, defaultPriority, p, d, i) &&
                          Listed(t, configs[i].ref) && d in Processed(t, configs[i].ref)
            else p in t.plugins && d in t.plugins[p].free
  {
    hide Candidate, FirstChoice, Started, Inv, WellFormed;
    if exists i :: 0 <= i < |configs| && Candidate(f, configs[i], p, d) {
      var i := ChoiceExists(f, configs, defaultPriority, p, d);
      ChosenOwns(f, sys, orig, configs, defaultPriority, p, d, i);
    } else {
      NobodyOwns(f, sys, orig, configs, defaultPriority, p, d);
    }
  }

  // ----- What is written, from start-up on -----

  lemma PristineTuned(f: Fixed, sys: System, orig: Originals)
    requires Pristine(f, sys, orig)
    ensures SysTuned(f, sys, orig)
  {
    PristineInv(f, sys, orig);
  }

  lemma CreateUnitTuned(f: Fixed, sys: System, u: Unit, orig: Originals)
    requires SysTuned(f, sys, orig) && !Listed(sys, u.ref)
    ensures SysTuned(f, CreateUnit(f, sys, u), orig)
  {
    hide Inv, CreateInstance, Tuned, Ordered;
    CreateUnitWellFormed(f, sys, u);
    if u.ref.plugin in sys.plugins {
      var cfg, s := f.cfg[u.ref.plugin], sys.plugins[u.ref.plugin];
      OrderedLists(s);
      CreateInstanceInv(cfg, s, u.ref.name, u.priority, u.expression, u.options, orig[u.ref.plugin]);
      CreateInstanceTuned(cfg, s, u.ref.name, u.priority, u.expression, u.options, orig[u.ref.plugin]);
    }
  }

  lemma {:induction false} CreateUnitsTuned(f: Fixed, sys: System, units: seq<Unit>, orig: Originals)
    requires SysTuned(f, sys, orig) && DistinctUnits(units)
    requires forall i :: 0 <= i < |units| ==> !Listed(sys, units[i].ref)
    ensures SysTuned(f, CreateUnits(f, sys, units), orig)
    decreases |units|
  {
    hide Inv, CreateUnit, Tuned, Ordered;
    if units != [] {
      CreateUnitWellFormed(f, sys, units[0]);
      CreateUnitTuned(f, sys, units[0], orig);
      CreateUnitsTuned(f, CreateUnit(f, sys, units[0]), units[1..], orig);
    }
  }

  lemma {:induction false} AssignAllTuned(f: Fixed, sys: System, k: nat, orig: Originals)
    requires SysTuned(f, sys, orig) && k <= |sys.refs|
    ensures SysTuned(f, AssignAll(f, sys, k), orig)
    decreases |sys.refs| - k
  {
    hide Inv, AssignFree, Ordered, Tuned;
    if k < |sys.refs| {
      var r := sys.refs[k];
      assert Listed(sys, r);
      var t := AssignFree(f.cfg[r.plugin], sys.plugins[r.plugin], r.name);
      AssignKeepsInstances(f.cfg[r.plugin], sys.plugins[r.plugin], r.name);
      AssignFreeInv(f.cfg[r.plugin], sys.plugins[r.plugin], r.name, orig[r.plugin]);
      AssignFreeTuned(f.cfg[r.plugin], sys.plugins[r.plugin], r.name, orig[r.plugin]);
      WithPluginTuned(f, sys, r.plugin, t, orig);
      AssignAllTuned(f, WithPlugin(sys, r.plugin, t), k + 1, orig);
    }
  }

  /** Main result: from start-up through any run of events, each knob of a tuned device holds what the option of its
      instance makes of the value the knob had when the device was first seen, and every other knob holds that value. */
  lemma StartUpThenRunHolds(f: Fixed, sys: System, orig: Originals, configs: seq<UnitConfig>, defaultPriority: int,
                            es: seq<Event>, p: PluginName, k: Knob)
    requires Pristine(f, sys, orig) && DistinctConfigs(configs)
    ensures var (last, first) := Run(f, Prepared(f, sys, orig, configs, defaultPriority), orig, es);
            p in last.plugins && k in last.plugins[p].knobs ==>
              p in first && p in f.cfg && k in first[p] && Holds(f.cfg[p], last.plugins[p], first[p], k)
  {
    hide Run, SysTuned, Holds, CreateUnits, AssignAll, SortUnits, Admitted, Inv;
    AdmittedDistinct(configs, defaultPriority);
    SortUnitsDistinct(Admitted(configs, defaultPriority));
    PristineInv(f, sys, orig);
    PristineTuned(f, sys, orig);
    var units := SortUnits(Admitted(configs, defaultPriority));
    CreateUnitsTuned(f, sys, units, orig);
    CreateUnitsInv(f, sys, units, orig);
    AssignAllTuned(f, CreateUnits(f, sys, units), 0, orig);
    RunHolds(f, Prepared(f, sys, orig, configs, defaultPriority), orig, es, p, k);
  }
}
