/** Start-up: the unit manager creates the configured instances in priority order, hands the free devices
    out, and starts tuning (tuned/units/manager.py). */
module StartUp {
  import opened Text
  import opened PluginModel
  import opened PluginInvariants
  import opened DeviceSystem
  import opened RollbackRuns
  import opened DeviceRuns
  import opened PriorityRuns

  /** A unit of the profile that is enabled and fits this machine. */
  datatype Unit = Unit(ref: Ref, priority: int, expression: string, options: map<Command, Value>)

  /** A unit as the profile has it, and whether it fits this machine's CPU information and uname. */
  datatype UnitConfig = UnitConfig(
    ref: Ref,
    enabled: bool,
    fitsCpu: bool,
    fitsUname: bool,
    priority: Option<int>,
    expression: string,
    options: map<Command, Value>)

  // ----- Choosing the units -----

  predicate Admits(u: UnitConfig) {
    u.enabled && u.fitsCpu && u.fitsUname
  }

  function AsUnit(u: UnitConfig, defaultPriority: int): Unit {
    Unit(u.ref, if u.priority.Some? then u.priority.value else defaultPriority, u.expression, u.options)
  }

  function Admitted(configs: seq<UnitConfig>, defaultPriority: int): seq<Unit> {
    if configs == [] then []
    else
      var u := configs[|configs| - 1];
      Admitted(configs[..|configs| - 1], defaultPriority) + if Admits(u) then [AsUnit(u, defaultPriority)] else []
  }

  /** The units of a profile have different names. */
  ghost predicate DistinctConfigs(configs: seq<UnitConfig>) {
    forall i, j :: 0 <= i < j < |configs| ==> configs[i].ref != configs[j].ref
  }

  lemma {:induction false} AdmittedHas(configs: seq<UnitConfig>, defaultPriority: int, v: Unit)
    ensures v in Admitted(configs, defaultPriority) <==>
            exists u :: u in configs && Admits(u) && v == AsUnit(u, defaultPriority)
  {
    hide Admits, AsUnit;
    if configs != [] {
      var front, u := configs[..|configs| - 1], configs[|configs| - 1];
      AdmittedHas(front, defaultPriority, v);
      assert configs == front + [u];
      assert forall w :: w in configs <==> w in front || w == u;
    }
  }

  /** Exactly the units that are enabled and fit are admitted, with their priority or the default one. */
  lemma AdmittedSpec(configs: seq<UnitConfig>, defaultPriority: int, v: Unit)
    ensures v in Admitted(configs, defaultPriority) <==>
            exists u :: u in configs && u.enabled && u.fitsCpu && u.fitsUname && v.ref == u.ref &&
                        v.priority == (match u.priority case Some(q) => q case None => defaultPriority) &&
                        v.expression == u.expression && v.options == u.options
  {
    AdmittedHas(configs, defaultPriority, v);
    forall u | Admits(u) && v.ref == u.ref && v.expression == u.expression && v.options == u.options &&
               v.priority == (match u.priority case Some(q) => q case None => defaultPriority)
      ensures v == AsUnit(u, defaultPriority)
    {
    }
  }

  lemma {:induction false} AdmittedDistinct(configs: seq<UnitConfig>, defaultPriority: int)
    requires DistinctConfigs(configs)
    ensures DistinctUnits(Admitted(configs, defaultPriority))
  {
    hide Admits;
    if configs != [] {
      var front, u := configs[..|configs| - 1], configs[|configs| - 1];
      AdmittedDistinct(front, defaultPriority);
      var units := Admitted(front, defaultPriority);
      forall i | 0 <= i < |units| ensures units[i].ref != u.ref {
        AdmittedHas(front, defaultPriority, units[i]);
        assert units[i] in units;
        var w :| w in front && Admits(w) && units[i] == AsUnit(w, defaultPriority);
      }
    }
  }

  // ----- Sorting the units -----

  function InsertUnit(units: seq<Unit>, u: Unit): seq<Unit> {
    if units == [] || units[|units| - 1].priority <= u.priority then units + [u]
    else InsertUnit(units[..|units| - 1], u) + [units[|units| - 1]]
  }

  /** `list.sort(key=priority)`: a stable sort. */
  function SortUnits(units: seq<Unit>): seq<Unit> {
    if units == [] then [] else InsertUnit(SortUnits(units[..|units| - 1]), units[|units| - 1])
  }

  ghost predicate SortedUnits(units: seq<Unit>) {
    forall i, j :: 0 <= i < j < |units| ==> units[i].priority <= units[j].priority
  }

  ghost predicate DistinctUnits(units: seq<Unit>) {
    forall i, j :: 0 <= i < j < |units| ==> units[i].ref != units[j].ref
  }

  // ----- Creating and assigning -----

  /** Plugins as they are before any instance exists: every device is free. */
  ghost predicate Pristine(f: Fixed, sys: System, orig: Originals) {
    && sys.refs == []
    && sys.plugins.Keys == f.cfg.Keys == orig.Keys
    && forall p :: p in sys.plugins ==>
         var s := sys.plugins[p];
         s.claimed == {} && s.order == [] && s.inst == map[] && s.store == map[] && s.knobs == orig[p]
  }

  ghost function CreateUnit(f: Fixed, sys: System, u: Unit): System
    requires WellFormed(f, sys)
  {
    if u.ref.plugin in sys.plugins then
      System(sys.plugins[u.ref.plugin :=
               CreateInstance(sys.plugins[u.ref.plugin], u.ref.name, u.priority, u.expression, u.options)],
             sys.refs + [u.ref])
    else sys
  }

  lemma CreateInstanceKeys(s: Plugin, n: Name, priority: int, expression: string, options: map<Command, Value>)
    requires Ordered(s)
    ensures CreateInstance(s, n, priority, expression, options).inst.Keys == s.inst.Keys + {n}
  {
  }

  lemma CreateUnitWellFormed(f: Fixed, sys: System, u: Unit)
    requires WellFormed(f, sys) && !Listed(sys, u.ref)
    ensures WellFormed(f, CreateUnit(f, sys, u))
    ensures forall r :: Listed(CreateUnit(f, sys, u), r) ==> Listed(sys, r) || r == u.ref
  {
    hide CreateInstance, Ordered;
    if u.ref.plugin in sys.plugins {
      CreateInstanceKeys(sys.plugins[u.ref.plugin], u.ref.name, u.priority, u.expression, u.options);
      CreateInstanceOrdered(sys.plugins[u.ref.plugin], u.ref.name, u.priority, u.expression, u.options);
      var t := CreateUnit(f, sys, u);
      assert forall r :: Listed(t, r) <==> Listed(sys, r) || r == u.ref;
    }
  }

  /** Create an instance for each unit whose plugin is supported. */
  ghost function CreateUnits(f: Fixed, sys: System, units: seq<Unit>): (t: System)
    requires WellFormed(f, sys) && DistinctUnits(units)
    requires forall i :: 0 <= i < |units| ==> !Listed(sys, units[i].ref)
    ensures WellFormed(f, t)
    decreases |units|
  {
    if units == [] then sys
    else
      CreateUnitWellFormed(f, sys, units[0]);
      CreateUnits(f, CreateUnit(f, sys, units[0]), units[1..])
  }

  /** Let the instances at position k and later take the matching free devices, in list order. */
  ghost function AssignAll(f: Fixed, sys: System, k: nat): (t: System)
    requires WellFormed(f, sys) && k <= |sys.refs|
    ensures WellFormed(f, t) && t.refs == sys.refs
    decreases |sys.refs| - k
  {
    if k == |sys.refs| then sys
    else
      var r := sys.refs[k];
      assert Listed(sys, r);
      AssignKeepsInstances(f.cfg[r.plugin], sys.plugins[r.plugin], r.name);
      WithPluginWellFormed(f, sys, r.plugin, AssignFree(f.cfg[r.plugin], sys.plugins[r.plugin], r.name));
      AssignAll(f, WithPlugin(sys, r.plugin, AssignFree(f.cfg[r.plugin], sys.plugins[r.plugin], r.name)), k + 1)
  }

  // ----- The invariants hold after start-up -----

  lemma PristineInv(f: Fixed, sys: System, orig: Originals)
    requires Pristine(f, sys, orig)
    ensures SysInv(f, sys, orig)
  {
  }

  lemma {:induction false} CreateUnitsInv(f: Fixed, sys: System, units: seq<Unit>, orig: Originals)
    requires SysInv(f, sys, orig) && DistinctUnits(units)
    requires forall i :: 0 <= i < |units| ==> !Listed(sys, units[i].ref)
    ensures SysInv(f, CreateUnits(f, sys, units), orig)
    decreases |units|
  {
    hide Inv, CreateInstance, Ordered;
    if units != [] {
      var u := units[0];
      CreateUnitWellFormed(f, sys, u);
      if u.ref.plugin in sys.plugins {
        CreateInstanceInv(f.cfg[u.ref.plugin], sys.plugins[u.ref.plugin], u.ref.name, u.priority, u.expression,
                          u.options, orig[u.ref.plugin]);
      }
      CreateUnitsInv(f, CreateUnit(f, sys, u), units[1..], orig);
    }
  }

  lemma {:induction false} AssignAllInv(f: Fixed, sys: System, k: nat, orig: Originals)
    requires SysInv(f, sys, orig) && k <= |sys.refs|
    ensures SysInv(f, AssignAll(f, sys, k), orig)
    decreases |sys.refs| - k
  {
    hide Inv, AssignFree, Ordered;
    if k < |sys.refs| {
      var r := sys.refs[k];
      assert Listed(sys, r);
      var t := AssignFree(f.cfg[r.plugin], sys.plugins[r.plugin], r.name);
      AssignKeepsInstances(f.cfg[r.plugin], sys.plugins[r.plugin], r.name);
      AssignFreeInv(f.cfg[r.plugin], sys.plugins[r.plugin], r.name, orig[r.plugin]);
      WithPluginInv(f, sys, r.plugin, t, orig);
      AssignAllInv(f, WithPlugin(sys, r.plugin, t), k + 1, orig);
    }
  }

  /** The state the hardware events first act on: instances created, devices handed out. */
  ghost function Configured(f: Fixed, sys: System, orig: Originals, units: seq<Unit>): (t: System)
    requires Pristine(f, sys, orig) && DistinctUnits(units)
    ensures SysInv(f, t, orig)
  {
    PristineInv(f, sys, orig);
    CreateUnitsInv(f, sys, units, orig);
    AssignAllInv(f, CreateUnits(f, sys, units), 0, orig);
    AssignAll(f, CreateUnits(f, sys, units), 0)
  }

  // ----- Best owners after start-up -----

  ghost function PriorityOf(sys: System, r: Ref): int
    requires Listed(sys, r)
  {
    sys.plugins[r.plugin].inst[r.name].priority
  }

  ghost predicate RefsByPriority(sys: System)
    requires forall r :: r in sys.refs ==> Listed(sys, r)
  {
    forall i, j :: 0 <= i < j < |sys.refs| ==> PriorityOf(sys, sys.refs[i]) <= PriorityOf(sys, sys.refs[j])
  }

  /** The instances of `done` have chosen their devices; the others have none yet. */
  ghost predicate Choosing(cfg: Config, s: Plugin, done: set<Name>) {
    && (forall n :: n in s.inst ==> s.inst[n].processed == {})
    && (forall n, d :: n in s.inst && d in s.inst[n].pending ==> BestFor(cfg, s, n, d))
    && (forall n, d :: n in s.inst && n in done && d in s.free ==> !Wants(cfg, s, n, d))
    && (forall n :: n in s.inst ==> if n in done then s.inst[n].active <==> s.inst[n].pending != {} else s.inst[n].pending == {})
  }

  lemma ChooseNext(cfg: Config, s: Plugin, n: Name, done: set<Name>)
    requires n in s.inst && n !in done && Choosing(cfg, s, done)
    requires forall m :: m in s.inst && m !in done ==> s.inst[n].priority <= s.inst[m].priority
    ensures Choosing(cfg, AssignFree(cfg, s, n), done + {n})
  {
    var t := AssignFree(cfg, s, n);
    assert forall m, d :: m in s.inst ==> (Wants(cfg, t, m, d) <==> Wants(cfg, s, m, d));
    assert SameInstances(s, t);
    forall m, d | m in t.inst && d in t.inst[m].pending ensures BestFor(cfg, t, m, d) {
      SameBestFor(cfg, s, t, m, d);
    }
  }

  ghost function Names(refs: seq<Ref>, p: PluginName): set<Name> {
    set i | 0 <= i < |refs| && refs[i].plugin == p :: refs[i].name
  }

  ghost predicate SysChoosing(f: Fixed, sys: System, k: nat)
    requires WellFormed(f, sys) && k <= |sys.refs|
  {
    forall p :: p in sys.plugins ==> Choosing(f.cfg[p], sys.plugins[p], Names(sys.refs[..k], p))
  }

  lemma NamesOfNext(refs: seq<Ref>, k: nat, p: PluginName)
    requires k < |refs|
    ensures Names(refs[..k + 1], p) == if refs[k].plugin == p then Names(refs[..k], p) + {refs[k].name} else Names(refs[..k], p)
  {
    var a, b := refs[..k], refs[..k + 1];
    assert b == a + [refs[k]];
    forall n | n in Names(a, p) ensures n in Names(b, p) {
      var i :| 0 <= i < |a| && a[i].plugin == p && a[i].name == n;
      assert b[i] == a[i];
    }
    if refs[k].plugin == p { assert b[k] == refs[k]; }
  }

  lemma LaterNames(f: Fixed, sys: System, k: nat)
    requires WellFormed(f, sys) && RefsByPriority(sys) && k < |sys.refs|
    ensures var r := sys.refs[k];
            && r.name !in Names(sys.refs[..k], r.plugin)
            && Listed(sys, r)
            && forall m :: m in sys.plugins[r.plugin].inst && m !in Names(sys.refs[..k], r.plugin) ==>
                 PriorityOf(sys, r) <= sys.plugins[r.plugin].inst[m].priority
  {
    hide Ordered;
    var r, a := sys.refs[k], sys.refs[..k];
    assert Listed(sys, r);
    assert forall i :: 0 <= i < k ==> a[i] == sys.refs[i];
    forall m | m in sys.plugins[r.plugin].inst && m !in Names(a, r.plugin)
      ensures PriorityOf(sys, r) <= sys.plugins[r.plugin].inst[m].priority
    {
      assert Listed(sys, Ref(r.plugin, m));
      var i :| 0 <= i < |sys.refs| && sys.refs[i] == Ref(r.plugin, m);
      assert i >= k;
      assert i > k ==> PriorityOf(sys, sys.refs[k]) <= PriorityOf(sys, sys.refs[i]);
    }
  }

  lemma {:induction false} AssignAllChooses(f: Fixed, sys: System, k: nat)
    requires WellFormed(f, sys) && k <= |sys.refs| && RefsByPriority(sys) && SysChoosing(f, sys, k)
    ensures var t := AssignAll(f, sys, k); SysChoosing(f, t, |t.refs|)
    decreases |sys.refs| - k
  {
    hide AssignFree, Choosing, Names, Ordered;
    if k < |sys.refs| {
      var r := sys.refs[k];
      LaterNames(f, sys, k);
      var s := sys.plugins[r.plugin];
      var t := AssignFree(f.cfg[r.plugin], s, r.name);
      AssignKeepsInstances(f.cfg[r.plugin], s, r.name);
      ChooseNext(f.cfg[r.plugin], s, r.name, Names(sys.refs[..k], r.plugin));
      WithPluginWellFormed(f, sys, r.plugin, t);
      var u := WithPlugin(sys, r.plugin, t);
      forall p | p in u.plugins ensures Choosing(f.cfg[p], u.plugins[p], Names(u.refs[..k + 1], p)) {
        NamesOfNext(sys.refs, k, p);
      }
      SameRefsByPriority(f, sys, r.plugin, t);
      AssignAllChooses(f, u, k + 1);
    }
  }

  lemma SameRefsByPriority(f: Fixed, sys: System, p: PluginName, t: Plugin)
    requires WellFormed(f, sys) && p in sys.plugins && SameInstances(sys.plugins[p], t) && RefsByPriority(sys)
    requires WellFormed(f, WithPlugin(sys, p, t))
    ensures RefsByPriority(WithPlugin(sys, p, t))
  {
    hide Ordered;
    var u := WithPlugin(sys, p, t);
    forall r | r in sys.refs
      ensures Listed(sys, r) && Listed(u, r)
      ensures PriorityOf(u, r) == PriorityOf(sys, r)
    {
      assert Listed(sys, r);
    }
  }

  // ----- Starting to tune -----

  /** Every instance of `done` is settled; the others have no devices or are active. */
  ghost predicate Starting(cfg: Config, s: Plugin, done: set<Name>) {
    && Best(cfg, s)
    && forall n :: n in s.inst ==> s.inst[n].pending == {} || (n !in done && s.inst[n].active)
  }

  lemma StartNext(cfg: Config, s: Plugin, n: Name, done: set<Name>)
    requires n in s.inst && Starting(cfg, s, done)
    ensures Starting(cfg, ApplyTuning(cfg, s, n), done + {n})
  {
    hide TuneKnobs, TuneStore;
    var t := ApplyTuning(cfg, s, n);
    assert forall m, d :: m in s.inst ==> (Wants(cfg, t, m, d) <==> Wants(cfg, s, m, d));
    forall m, d | m in t.inst && d in Devices(t.inst[m]) ensures BestFor(cfg, t, m, d) {
      assert d in Devices(s.inst[m]);
      assert BestFor(cfg, s, m, d);
    }
  }

  ghost predicate SysStarting(f: Fixed, sys: System, k: nat)
    requires WellFormed(f, sys) && k <= |sys.refs|
  {
    forall p :: p in sys.plugins ==> Starting(f.cfg[p], sys.plugins[p], Names(sys.refs[..k], p))
  }

  lemma {:induction false} StartTuningSettles(f: Fixed, sys: System, k: nat)
    requires WellFormed(f, sys) && k <= |sys.refs| && SysStarting(f, sys, k)
    ensures var t := StartTuning(f, sys, k); SysStarting(f, t, |t.refs|)
    decreases |sys.refs| - k
  {
    hide ApplyTuning, Starting, Names, Ordered;
    if k < |sys.refs| {
      var r := sys.refs[k];
      assert Listed(sys, r);
      var s := sys.plugins[r.plugin];
      var t := ApplyTuning(f.cfg[r.plugin], s, r.name);
      ApplyKeepsInstances(f.cfg[r.plugin], s, r.name);
      StartNext(f.cfg[r.plugin], s, r.name, Names(sys.refs[..k], r.plugin));
      WithPluginWellFormed(f, sys, r.plugin, t);
      var u := WithPlugin(sys, r.plugin, t);
      forall p | p in u.plugins ensures Starting(f.cfg[p], u.plugins[p], Names(u.refs[..k + 1], p)) {
        NamesOfNext(sys.refs, k, p);
      }
      StartTuningSettles(f, u, k + 1);
    }
  }

  /** Every listed name is among the names of the whole list. */
  lemma AllNames(f: Fixed, sys: System, p: PluginName, n: Name)
    requires WellFormed(f, sys) && p in sys.plugins && n in sys.plugins[p].inst
    ensures n in Names(sys.refs[..|sys.refs|], p)
  {
    hide Ordered;
    assert sys.refs[..|sys.refs|] == sys.refs;
    assert Listed(sys, Ref(p, n));
    var i :| 0 <= i < |sys.refs| && sys.refs[i] == Ref(p, n);
    assert sys.refs[i].plugin == p;
  }

  lemma ChosenIsStarting(f: Fixed, sys: System)
    requires WellFormed(f, sys) && SysChoosing(f, sys, |sys.refs|)
    ensures SysStarting(f, sys, 0)
  {
    hide Ordered;
    forall p | p in sys.plugins ensures Starting(f.cfg[p], sys.plugins[p], Names(sys.refs[..0], p)) {
      var cfg, s := f.cfg[p], sys.plugins[p];
      assert Names(sys.refs[..0], p) == {};
      forall n | n in s.inst ensures n in Names(sys.refs[..|sys.refs|], p) {
        AllNames(f, sys, p, n);
      }
      forall n, d | n in s.inst && d in Devices(s.inst[n]) ensures BestFor(cfg, s, n, d) {
        assert d in s.inst[n].pending;
      }
    }
  }

  lemma StartedIsBest(f: Fixed, sys: System)
    requires WellFormed(f, sys) && SysStarting(f, sys, |sys.refs|)
    ensures SysBest(f, sys)
  {
    hide Ordered;
    forall p | p in sys.plugins ensures Settled(sys.plugins[p]) {
      forall n | n in sys.plugins[p].inst ensures sys.plugins[p].inst[n].pending == {} {
        AllNames(f, sys, p, n);
      }
    }
  }

  // ----- The sorted units -----

  ghost predicate Blank(sys: System) {
    forall p, n :: p in sys.plugins && n in sys.plugins[p].inst ==> Devices(sys.plugins[p].inst[n]) == {}
  }

  lemma BlankIsChoosing(f: Fixed, sys: System)
    requires WellFormed(f, sys) && Blank(sys)
    ensures SysChoosing(f, sys, 0)
  {
    hide Ordered;
    forall p | p in sys.plugins ensures Choosing(f.cfg[p], sys.plugins[p], Names(sys.refs[..0], p)) {
      assert Names(sys.refs[..0], p) == {};
      assert forall n :: n in sys.plugins[p].inst ==> Devices(sys.plugins[p].inst[n]) == {};
    }
  }

  lemma CreateUnitSorted(f: Fixed, sys: System, u: Unit)
    requires WellFormed(f, sys) && !Listed(sys, u.ref) && RefsByPriority(sys) && Blank(sys)
    requires forall r :: r in sys.refs ==> PriorityOf(sys, r) <= u.priority
    requires WellFormed(f, CreateUnit(f, sys, u))
    ensures var t := CreateUnit(f, sys, u);
            && RefsByPriority(t) && Blank(t)
            && forall r :: r in t.refs ==> PriorityOf(t, r) <= u.priority
  {
    hide Ordered, InsertByPriority;
    var t := CreateUnit(f, sys, u);
    if u.ref.plugin in sys.plugins {
      forall r | r in sys.refs ensures Listed(sys, r) && Listed(t, r) && PriorityOf(t, r) == PriorityOf(sys, r) {
        assert Listed(sys, r);
      }
    }
  }

  lemma {:induction false} CreateUnitsSorted(f: Fixed, sys: System, units: seq<Unit>)
    requires WellFormed(f, sys) && DistinctUnits(units) && SortedUnits(units) && RefsByPriority(sys) && Blank(sys)
    requires forall i :: 0 <= i < |units| ==> !Listed(sys, units[i].ref)
    requires forall r, i :: r in sys.refs && 0 <= i < |units| ==> PriorityOf(sys, r) <= units[i].priority
    ensures var t := CreateUnits(f, sys, units); RefsByPriority(t) && Blank(t)
    decreases |units|
  {
    hide Ordered, CreateUnit, RefsByPriority, Blank;
    if units != [] {
      CreateUnitWellFormed(f, sys, units[0]);
      CreateUnitSorted(f, sys, units[0]);
      CreateUnitsSorted(f, CreateUnit(f, sys, units[0]), units[1..]);
    }
  }

  /** Start-up from sorted units gives every device a matching instance of the best priority. */
  lemma StartUpBest(f: Fixed, sys: System, orig: Originals, units: seq<Unit>)
    requires Pristine(f, sys, orig) && DistinctUnits(units) && SortedUnits(units)
    ensures SysBest(f, StartTuning(f, Configured(f, sys, orig, units), 0))
  {
    hide CreateUnits, AssignAll, StartTuning, SysStarting, SysChoosing, SysBest, Inv;
    PristineInv(f, sys, orig);
    CreateUnitsSorted(f, sys, units);
    var created := CreateUnits(f, sys, units);
    BlankIsChoosing(f, created);
    AssignAllChooses(f, created, 0);
    var chosen := AssignAll(f, created, 0);
    ChosenIsStarting(f, chosen);
    StartTuningSettles(f, chosen, 0);
    StartedIsBest(f, StartTuning(f, chosen, 0));
  }

  lemma {:induction false} InsertUnitSorted(units: seq<Unit>, u: Unit)
    requires SortedUnits(units)
    ensures SortedUnits(InsertUnit(units, u))
    ensures forall i :: 0 <= i < |InsertUnit(units, u)| ==> InsertUnit(units, u)[i] == u || InsertUnit(units, u)[i] in units
  {
    if units != [] && u.priority < units[|units| - 1].priority {
      InsertUnitSorted(units[..|units| - 1], u);
    }
  }

  lemma {:induction false} InsertUnitAdds(units: seq<Unit>, u: Unit)
    ensures multiset(InsertUnit(units, u)) == multiset(units) + multiset{u}
  {
    if units != [] && u.priority < units[|units| - 1].priority {
      InsertUnitAdds(units[..|units| - 1], u);
      assert units == units[..|units| - 1] + [units[|units| - 1]];
    }
  }

  /** The units are sorted by priority, and none is lost or added. */
  lemma {:induction false} SortUnitsSorts(units: seq<Unit>)
    ensures SortedUnits(SortUnits(units))
    ensures multiset(SortUnits(units)) == multiset(units)
  {
    if units != [] {
      SortUnitsSorts(units[..|units| - 1]);
      InsertUnitSorted(SortUnits(units[..|units| - 1]), units[|units| - 1]);
      InsertUnitAdds(SortUnits(units[..|units| - 1]), units[|units| - 1]);
      assert units == units[..|units| - 1] + [units[|units| - 1]];
    }
  }

  lemma {:induction false} InsertUnitDistinct(units: seq<Unit>, u: Unit)
    requires DistinctUnits(units) && forall i :: 0 <= i < |units| ==> units[i].ref != u.ref
    ensures DistinctUnits(InsertUnit(units, u))
    ensures |InsertUnit(units, u)| == |units| + 1
    ensures forall i :: 0 <= i < |InsertUnit(units, u)| ==> InsertUnit(units, u)[i] == u || InsertUnit(units, u)[i] in units
  {
    if units != [] && u.priority < units[|units| - 1].priority {
      InsertUnitDistinct(units[..|units| - 1], u);
    }
  }

  lemma {:induction false} SortUnitsDistinct(units: seq<Unit>)
    requires DistinctUnits(units)
    ensures DistinctUnits(SortUnits(units))
    ensures forall u :: u in SortUnits(units) ==> u in units
  {
    if units != [] {
      var front := units[..|units| - 1];
      SortUnitsDistinct(front);
      forall u | u in SortUnits(front) ensures u.ref != units[|units| - 1].ref {
        var i :| 0 <= i < |front| && front[i] == u;
        assert units[i] == u;
      }
      InsertUnitDistinct(SortUnits(front), units[|units| - 1]);
    }
  }

  /** Main result: from any configured units in any order, every run of events without an explicit acquire
      keeps each owned device with a matching instance of the best priority, and no free device is wanted. */
  lemma StartUpThenRunBest(f: Fixed, sys: System, orig: Originals, units: seq<Unit>, es: seq<Event>)
    requires Pristine(f, sys, orig) && DistinctUnits(units)
    requires forall i :: 0 <= i < |es| ==> !es[i].AcquireCall?
    ensures DistinctUnits(SortUnits(units))
    ensures var started := StartTuning(f, Configured(f, sys, orig, SortUnits(units)), 0);
            && SysInv(f, started, orig)
            && var last := Run(f, started, orig, es).0;
               last.plugins.Keys == f.cfg.Keys && SysBest(f, last)
  {
    hide StartTuning, Configured, Run, SysBest, SortUnits, Inv;
    SortUnitsDistinct(units);
    SortUnitsSorts(units);
    var configured := Configured(f, sys, orig, SortUnits(units));
    StartUpBest(f, sys, orig, SortUnits(units));
    StartTuningInv(f, configured, 0, orig);
    RunBest(f, StartTuning(f, configured, 0), orig, es);
  }

  /** Main result: from start-up through any run of events to the final stop, every knob of every plugin
      ends with the value it had when its device was first seen. */
  lemma StartUpThenRunThenStopRestores(f: Fixed, sys: System, orig: Originals, units: seq<Unit>, es: seq<Event>)
    requires Pristine(f, sys, orig) && DistinctUnits(units)
    ensures DistinctUnits(SortUnits(units))
    ensures var (last, first) := Run(f, Configured(f, sys, orig, SortUnits(units)), orig, es);
            var stopped := StopTuning(f, last, |last.refs|);
            forall p :: p in stopped.plugins ==> p in first && stopped.plugins[p].knobs == first[p]
  {
    hide Configured, Run, StopTuning, SortUnits, SysInv;
    SortUnitsDistinct(units);
    RunThenStopRestores(f, Configured(f, sys, orig, SortUnits(units)), orig, es);
  }

  lemma {:induction false} CreateUnitsDevices(f: Fixed, sys: System, units: seq<Unit>)
    requires WellFormed(f, sys) && DistinctUnits(units)
    requires forall i :: 0 <= i < |units| ==> !Listed(sys, units[i].ref)
    ensures SameDevices(sys, CreateUnits(f, sys, units))
    decreases |units|
  {
    hide Ordered, InsertByPriority;
    if units != [] {
      CreateUnitWellFormed(f, sys, units[0]);
      CreateUnitsDevices(f, CreateUnit(f, sys, units[0]), units[1..]);
    }
  }

  lemma AssignAllOf(cfg: Config, s: Plugin, n: Name)
    requires n in s.inst
    ensures All(AssignFree(cfg, s, n)) == All(s)
  {
    assert Matching(cfg, s.inst[n], s.free) <= s.free;
  }

  lemma {:induction false} AssignAllDevices(f: Fixed, sys: System, k: nat)
    requires WellFormed(f, sys) && k <= |sys.refs|
    ensures SameDevices(sys, AssignAll(f, sys, k))
    decreases |sys.refs| - k
  {
    hide AssignFree, Ordered, All;
    if k < |sys.refs| {
      var r := sys.refs[k];
      assert Listed(sys, r);
      var t := AssignFree(f.cfg[r.plugin], sys.plugins[r.plugin], r.name);
      AssignKeepsInstances(f.cfg[r.plugin], sys.plugins[r.plugin], r.name);
      WithPluginWellFormed(f, sys, r.plugin, t);
      AssignAllOf(f.cfg[r.plugin], sys.plugins[r.plugin], r.name);
      AssignAllDevices(f, WithPlugin(sys, r.plugin, t), k + 1);
    }
  }

  /** Main result: start-up keeps every device a plugin has found, and after any run of events its devices are
      exactly those that it had or got and that were not taken away since, each free or with exactly one
      instance. */
  lemma StartUpThenRunDevices(f: Fixed, sys: System, orig: Originals, units: seq<Unit>, es: seq<Event>,
                              p: PluginName, d: Device)
    requires Pristine(f, sys, orig) && DistinctUnits(units) && p in sys.plugins
    ensures DistinctUnits(SortUnits(units))
    ensures var configured := Configured(f, sys, orig, SortUnits(units));
            var last := Run(f, configured, orig, es).0;
            && SameDevices(sys, configured) && p in last.plugins
            && (d in All(last.plugins[p]) <==> Stayed(f, configured, orig, es, p, d, |es|))
            && (Stayed(f, configured, orig, es, p, d, |es|) ==> AtOnePlace(last.plugins[p], d))
  {
    hide CreateUnits, AssignAll, Run, SortUnits, Inv, All, Stayed, AtOnePlace, Ordered;
    SortUnitsDistinct(units);
    PristineInv(f, sys, orig);
    var sorted := SortUnits(units);
    CreateUnitsDevices(f, sys, sorted);
    AssignAllDevices(f, CreateUnits(f, sys, sorted), 0);
    RunDevices(f, Configured(f, sys, orig, sorted), orig, es, p, d);
  }
}
