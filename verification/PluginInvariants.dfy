/** What every plugin operation keeps: device ownership, the priority order of instances, and that
    saved values are the original ones. */
module PluginInvariants {
  import opened Text
  import opened PluginModel

  function Devices(i: Instance): set<Device> {
    i.pending + i.processed
  }

  /** The free pool and the claimed devices are disjoint, and the claimed devices are the disjoint union
      of the pending and processed devices of all instances. */
  ghost predicate Owned(s: Plugin) {
    && s.free !! s.claimed
    && (forall n :: n in s.inst ==> s.inst[n].pending !! s.inst[n].processed && Devices(s.inst[n]) <= s.claimed)
    && (forall m, n :: m in s.inst && n in s.inst && m != n ==> Devices(s.inst[m]) !! Devices(s.inst[n]))
    && (forall d :: d in s.claimed ==> exists n :: n in s.inst && d in Devices(s.inst[n]))
  }

  ghost predicate Distinct(order: seq<Name>) {
    forall i, j :: 0 <= i < j < |order| ==> order[i] != order[j]
  }

  ghost predicate ByPriority(order: seq<Name>, inst: map<Name, Instance>)
    requires forall n :: n in order ==> n in inst
  {
    forall i, j :: 0 <= i < j < |order| ==> inst[order[i]].priority <= inst[order[j]].priority
  }

  /** The instances are listed once each, by increasing priority number. */
  ghost predicate Ordered(s: Plugin) {
    && OrderListed(s)
    && (forall n :: n in s.inst ==> n in s.order)
    && Distinct(s.order)
    && ByPriority(s.order, s.inst)
  }

  ghost predicate NoKey(s: Plugin, k: Knob) {
    forall n :: Key(n, k) !in s.store
  }

  /** Every saved value is the original of its knob and belongs to a device its instance has tuned;
      every knob without a saved value holds its original. */
  ghost predicate Saved(cfg: Config, s: Plugin, orig: Knobs) {
    && orig.Keys == s.knobs.Keys
    && (forall key :: key in s.store ==>
          && key.instance in s.inst
          && key.knob.device in s.inst[key.instance].processed
          && key.knob.command in CommandSet(cfg)
          && key.knob.command in s.inst[key.instance].options
          && key.knob in orig
          && s.store[key] == orig[key.knob])
    && (forall k :: k in s.knobs && NoKey(s, k) ==> s.knobs[k] == orig[k])
  }

  ghost predicate Inv(cfg: Config, s: Plugin, orig: Knobs) {
    Owned(s) && Ordered(s) && Saved(cfg, s, orig)
  }

  // ----- Tuning and cleanup -----

  /** What a tuned storage holds. */
  lemma TuneStoreMembers(store: Store, knobs: Knobs, n: Name, o: map<Command, Value>, D: set<Device>, C: set<Command>)
    ensures var t := TuneStore(store, knobs, n, o, D, C);
            && (forall key :: key in t <==> key in store || SavedBy(key, knobs, n, o, D, C))
            && (forall key :: key in t ==> t[key] == if SavedBy(key, knobs, n, o, D, C) then knobs[key.knob] else store[key])
  {
    hide Covers, Saves;
    forall key | SavedBy(key, knobs, n, o, D, C) ensures key in (set k | k in knobs :: Key(n, k)) {
      assert key == Key(n, key.knob);
    }
  }

  /** A device that no instance has tuned has no saved values. */
  lemma NoKeyOutside(cfg: Config, s: Plugin, D: set<Device>, orig: Knobs, k: Knob)
    requires Saved(cfg, s, orig) && (forall m :: m in s.inst ==> D !! s.inst[m].processed) && k.device in D
    ensures NoKey(s, k)
  {
  }

  lemma AddedKey(cfg: Config, s: Plugin, n: Name, D: set<Device>, orig: Knobs, key: Key)
    requires n in s.inst && Saved(cfg, s, orig)
    requires (forall m :: m in s.inst ==> D !! s.inst[m].processed) && key in AddDevices(cfg, s, n, D).store
    ensures var t := AddDevices(cfg, s, n, D);
            && key.instance in t.inst
            && key.knob.device in t.inst[key.instance].processed
            && key.knob.command in CommandSet(cfg)
            && key.knob.command in t.inst[key.instance].options
            && key.knob in orig
            && t.store[key] == orig[key.knob]
  {
    hide TuneKnobs, TuneStore, ProcessModifiers, CommandSet, NoKey;
    TuneStoreMembers(s.store, s.knobs, n, s.inst[n].options, D, CommandSet(cfg));
    if SavedBy(key, s.knobs, n, s.inst[n].options, D, CommandSet(cfg)) {
      NoKeyOutside(cfg, s, D, orig, key.knob);
    }
  }

  lemma AddedKnob(cfg: Config, s: Plugin, n: Name, D: set<Device>, orig: Knobs, k: Knob)
    requires n in s.inst && Saved(cfg, s, orig)
    requires k in s.knobs && NoKey(AddDevices(cfg, s, n, D), k)
    ensures k in AddDevices(cfg, s, n, D).knobs && AddDevices(cfg, s, n, D).knobs[k] == orig[k]
  {
    hide TuneStore, ProcessModifiers, CommandSet;
    var t := AddDevices(cfg, s, n, D);
    var o, C := s.inst[n].options, CommandSet(cfg);
    TuneStoreMembers(s.store, s.knobs, n, o, D, C);
    assert NoKey(s, k) by {
      forall m ensures Key(m, k) !in s.store {
        assert Key(m, k) !in t.store;
      }
    }
    assert Key(n, k) !in t.store;
  }

  lemma AddDevicesSaved(cfg: Config, s: Plugin, n: Name, D: set<Device>, orig: Knobs)
    requires n in s.inst && Saved(cfg, s, orig)
    requires forall m :: m in s.inst ==> D !! s.inst[m].processed
    ensures Saved(cfg, AddDevices(cfg, s, n, D), orig)
  {
    hide TuneStore, Written, CommandSet, NoKey;
    var t := AddDevices(cfg, s, n, D);
    forall key | key in t.store
      ensures && key.instance in t.inst
              && key.knob.device in t.inst[key.instance].processed
              && key.knob.command in CommandSet(cfg)
              && key.knob.command in t.inst[key.instance].options
              && key.knob in orig
              && t.store[key] == orig[key.knob]
    {
      AddedKey(cfg, s, n, D, orig, key);
    }
    forall k | k in t.knobs && NoKey(t, k) ensures t.knobs[k] == orig[k] {
      AddedKnob(cfg, s, n, D, orig, k);
    }
  }

  lemma UntuneSaved(cfg: Config, s: Plugin, n: Name, E: set<Device>, orig: Knobs)
    requires n in s.inst && Saved(cfg, s, orig)
    ensures Saved(cfg, Untune(cfg, s, n, E), orig)
    ensures forall key :: key in Untune(cfg, s, n, E).store <==>
                          key in s.store && !(key.instance == n && key.knob.device in E)
  {
    var t := Untune(cfg, s, n, E);
    forall k | k in t.knobs && NoKey(t, k)
      ensures t.knobs[k] == orig[k]
    {
      if Key(n, k) !in s.store {
        assert NoKey(s, k) by {
          forall m ensures Key(m, k) !in s.store {
            assert Key(m, k) !in t.store;
          }
        }
      } else {
        assert Key(n, k) !in t.store;
      }
    }
  }

  lemma RemoveDevicesSaved(cfg: Config, s: Plugin, n: Name, D: set<Device>, orig: Knobs)
    requires n in s.inst && Saved(cfg, s, orig)
    ensures Saved(cfg, RemoveDevices(cfg, s, n, D), orig)
  {
    var E := D * s.inst[n].processed;
    UntuneSaved(cfg, s, n, E, orig);
    if E != {} {
      var u, t := Untune(cfg, s, n, E), RemoveDevices(cfg, s, n, D);
      assert t.knobs == u.knobs && t.store == u.store;
      forall k | k in t.knobs && NoKey(t, k)
        ensures t.knobs[k] == orig[k]
      {
        assert NoKey(u, k);
      }
    }
  }

  /** Only knobs and storage matter for saved values. */
  lemma SavedFrame(cfg: Config, s: Plugin, t: Plugin, orig: Knobs)
    requires Saved(cfg, s, orig)
    requires t.knobs == s.knobs && t.store == s.store
    requires forall n :: n in s.inst ==>
               (n in t.inst && s.inst[n].processed <= t.inst[n].processed && s.inst[n].options == t.inst[n].options)
               || forall key :: key in s.store ==> key.instance != n
    ensures Saved(cfg, t, orig)
  {
    forall k | k in t.knobs && NoKey(t, k)
      ensures t.knobs[k] == orig[k]
    {
      assert NoKey(s, k);
    }
  }

  // ----- Ownership -----

  lemma AddDevicesOwned(cfg: Config, s: Plugin, n: Name, D: set<Device>)
    requires n in s.inst && Owned(s) && D !! s.free && D !! s.claimed
    ensures Owned(AddDevices(cfg, s, n, D))
  {
    var t := AddDevices(cfg, s, n, D);
    forall d | d in t.claimed
      ensures exists m :: m in t.inst && d in Devices(t.inst[m])
    {
      if d in D {
        assert d in Devices(t.inst[n]);
      } else {
        var m :| m in s.inst && d in Devices(s.inst[m]);
        assert d in Devices(t.inst[m]);
      }
    }
  }

  lemma RemoveDevicesOwned(cfg: Config, s: Plugin, n: Name, D: set<Device>)
    requires n in s.inst && Owned(s)
    ensures var t := RemoveDevices(cfg, s, n, D);
            Owned(t) && t.claimed == s.claimed - D * s.inst[n].processed && t.free == s.free
  {
    var t := RemoveDevices(cfg, s, n, D);
    var E := D * s.inst[n].processed;
    forall d | d in t.claimed
      ensures exists m :: m in t.inst && d in Devices(t.inst[m])
    {
      var m :| m in s.inst && d in Devices(s.inst[m]);
      assert d in Devices(t.inst[m]);
    }
  }

  // ----- The operations -----

  /** Everything but the devices and flags of the instances stays. */
  ghost predicate SameInstances(s: Plugin, t: Plugin) {
    && t.order == s.order
    && t.inst.Keys == s.inst.Keys
    && forall n :: n in s.inst ==>
         && t.inst[n].priority == s.inst[n].priority
         && t.inst[n].expression == s.inst[n].expression
         && t.inst[n].options == s.inst[n].options
  }

  lemma SameInstancesOrdered(s: Plugin, t: Plugin)
    requires SameInstances(s, t) && Ordered(s)
    ensures Ordered(t)
  {
  }

  lemma AddDevicesInv(cfg: Config, s: Plugin, n: Name, D: set<Device>, orig: Knobs)
    requires n in s.inst && Inv(cfg, s, orig) && D !! s.free && D !! s.claimed
    ensures Inv(cfg, AddDevices(cfg, s, n, D), orig)
    ensures Inv(cfg, AddDevicesNocheck(cfg, s, n, D), orig)
  {
    hide AddDevices, Owned, Saved, Ordered;
    var t := AddDevices(cfg, s, n, D);
    AddDevicesKeepInstances(cfg, s, n, D);
    OutsideProcessed(s, D);
    AddDevicesSaved(cfg, s, n, D, orig);
    AddDevicesOwned(cfg, s, n, D);
    SameInstancesOrdered(s, t);
    FlagInv(cfg, t, n, HasDevices(t.inst[n]), orig);
  }

  lemma OutsideProcessed(s: Plugin, D: set<Device>)
    requires Owned(s) && D !! s.claimed
    ensures forall m :: m in s.inst ==> D !! s.inst[m].processed
  {
    forall m | m in s.inst ensures D !! s.inst[m].processed { assert Devices(s.inst[m]) <= s.claimed; }
  }

  /** The active flag takes no part in the invariants. */
  lemma FlagInv(cfg: Config, s: Plugin, n: Name, b: bool, orig: Knobs)
    requires n in s.inst && Inv(cfg, s, orig)
    ensures Inv(cfg, s.(inst := s.inst[n := s.inst[n].(active := b)]), orig)
  {
    hide Saved, Owned;
    var t := s.(inst := s.inst[n := s.inst[n].(active := b)]);
    SameInstancesOrdered(s, t);
    FlagOwned(s, n, b);
    SavedFrame(cfg, s, t, orig);
  }

  lemma FlagOwned(s: Plugin, n: Name, b: bool)
    requires n in s.inst && Owned(s)
    ensures Owned(s.(inst := s.inst[n := s.inst[n].(active := b)]))
  {
    var t := s.(inst := s.inst[n := s.inst[n].(active := b)]);
    assert forall m :: m in s.inst ==> Devices(t.inst[m]) == Devices(s.inst[m]);
  }

  lemma RemoveDevicesInv(cfg: Config, s: Plugin, n: Name, D: set<Device>, orig: Knobs)
    requires n in s.inst && Inv(cfg, s, orig)
    ensures Inv(cfg, RemoveDevices(cfg, s, n, D), orig)
  {
    hide UntuneKnobs, UntuneStore, Saved, Owned;
    RemoveDevicesSaved(cfg, s, n, D, orig);
    RemoveDevicesOwned(cfg, s, n, D);
    SameInstancesOrdered(s, RemoveDevices(cfg, s, n, D));
  }

  lemma MoveInv(cfg: Config, s: Plugin, a: Name, b: Name, D: set<Device>, orig: Knobs)
    requires a in s.inst && b in s.inst && D <= s.inst[a].processed && Inv(cfg, s, orig)
    ensures Inv(cfg, Move(cfg, s, a, b, D), orig)
  {
    assert D * s.inst[a].processed == D;
    assert Devices(s.inst[a]) <= s.claimed;
    RemoveDevicesOwned(cfg, s, a, D);
    RemoveDevicesInv(cfg, s, a, D, orig);
    AddDevicesInv(cfg, RemoveDevices(cfg, s, a, D), b, D, orig);
  }

  /** The free pool may hold any devices that are not claimed. */
  lemma FreeOwned(s: Plugin, F: set<Device>)
    requires Owned(s) && F !! s.claimed
    ensures Owned(s.(free := F))
  {
    var t := s.(free := F);
    forall e | e in t.claimed ensures exists n :: n in t.inst && e in Devices(t.inst[n]) {
      var n :| n in s.inst && e in Devices(s.inst[n]);
      assert e in Devices(t.inst[n]);
    }
  }

  lemma ClaimedNotFree(s: Plugin)
    requires Owned(s)
    ensures s.free !! s.claimed
  {
  }

  lemma AddDevicesKeys(cfg: Config, s: Plugin, n: Name, D: set<Device>)
    requires n in s.inst
    ensures AddDevices(cfg, s, n, D).inst.Keys == s.inst.Keys
  {
    hide TuneKnobs, TuneStore;
  }

  lemma AddDeviceInv(cfg: Config, s: Plugin, d: Device, orig: Knobs)
    requires Inv(cfg, s, orig)
    ensures Inv(cfg, AddDevice(cfg, s, d), orig)
    ensures AddDevice(cfg, s, d).inst.Keys == s.inst.Keys
  {
    hide Owned, Saved, AddDevices, FirstMatch, Distinct, ByPriority;
    if d !in s.claimed + s.free {
      FirstMatchListed(cfg, s, s.order, d);
      match FirstMatch(cfg, s, s.order, d) {
        case Some(n) =>
          AddDevicesInv(cfg, s, n, {d}, orig);
          AddDevicesKeys(cfg, s, n, {d});
        case None =>
          SavedFrame(cfg, s, AddDevice(cfg, s, d), orig);
          ClaimedNotFree(s);
          FreeOwned(s, s.free + {d});
      }
    }
  }

  lemma RemoveDeviceInv(cfg: Config, s: Plugin, d: Device, orig: Knobs)
    requires Inv(cfg, s, orig)
    ensures Inv(cfg, RemoveDevice(cfg, s, d), orig)
    ensures RemoveDevice(cfg, s, d).inst.Keys == s.inst.Keys
  {
    if d in s.claimed + s.free {
      FirstOwnerListed(s, s.order, d);
      match FirstOwner(s, s.order, d) {
        case Some(n) => RemoveDevicesInv(cfg, s, n, {d}, orig);
        case None => SavedFrame(cfg, s, RemoveDevice(cfg, s, d), orig);
      }
    }
  }

  lemma AssignFreeInv(cfg: Config, s: Plugin, n: Name, orig: Knobs)
    requires n in s.inst && Inv(cfg, s, orig)
    ensures Inv(cfg, AssignFree(cfg, s, n), orig)
  {
    hide Saved, Owned, Matching;
    SameInstancesOrdered(s, AssignFree(cfg, s, n));
    AssignFreeOwned(cfg, s, n);
    SavedFrame(cfg, s, AssignFree(cfg, s, n), orig);
  }

  lemma AssignKeepsInstances(cfg: Config, s: Plugin, n: Name)
    requires n in s.inst && Ordered(s)
    ensures SameInstances(s, AssignFree(cfg, s, n)) && Ordered(AssignFree(cfg, s, n))
  {
    hide Matching;
    SameInstancesOrdered(s, AssignFree(cfg, s, n));
  }

  lemma AssignFreeOwned(cfg: Config, s: Plugin, n: Name)
    requires n in s.inst && Owned(s)
    ensures Owned(AssignFree(cfg, s, n))
  {
    var t := AssignFree(cfg, s, n);
    forall d | d in t.claimed
      ensures exists m :: m in t.inst && d in Devices(t.inst[m])
    {
      if d in s.claimed {
        var m :| m in s.inst && d in Devices(s.inst[m]);
        assert d in Devices(t.inst[m]);
      } else {
        assert d in Devices(t.inst[n]);
      }
    }
  }

  lemma ApplyTuningOwned(cfg: Config, s: Plugin, n: Name)
    requires n in s.inst && Owned(s)
    ensures Owned(ApplyTuning(cfg, s, n))
  {
    var t := ApplyTuning(cfg, s, n);
    assert forall m :: m in s.inst ==> Devices(t.inst[m]) == Devices(s.inst[m]);
  }

  lemma ApplyTuningSaved(cfg: Config, s: Plugin, n: Name, orig: Knobs)
    requires n in s.inst && Owned(s) && Saved(cfg, s, orig)
    ensures Saved(cfg, ApplyTuning(cfg, s, n), orig)
  {
    hide TuneKnobs, TuneStore;
    var i := s.inst[n];
    if i.active {
      var D := i.pending;
      forall m | m in s.inst ensures D !! s.inst[m].processed {
        if m != n { assert Devices(s.inst[m]) !! Devices(i); }
      }
      AddDevicesSaved(cfg, s, n, D, orig);
      SavedFrame(cfg, AddDevices(cfg, s, n, D), ApplyTuning(cfg, s, n), orig);
    }
  }

  lemma ApplyTuningInv(cfg: Config, s: Plugin, n: Name, orig: Knobs)
    requires n in s.inst && Inv(cfg, s, orig)
    ensures Inv(cfg, ApplyTuning(cfg, s, n), orig)
    ensures ApplyTuning(cfg, s, n).inst.Keys == s.inst.Keys
  {
    hide ApplyTuning, Saved, Owned, Ordered;
    ApplyTuningOwned(cfg, s, n);
    ApplyTuningSaved(cfg, s, n, orig);
    ApplyKeepsInstances(cfg, s, n);
  }

  lemma ApplyKeepsInstances(cfg: Config, s: Plugin, n: Name)
    requires n in s.inst && Ordered(s)
    ensures SameInstances(s, ApplyTuning(cfg, s, n)) && Ordered(ApplyTuning(cfg, s, n))
  {
    hide TuneKnobs, TuneStore;
    SameInstancesOrdered(s, ApplyTuning(cfg, s, n));
  }

  lemma UnapplyTuningInv(cfg: Config, s: Plugin, n: Name, orig: Knobs)
    requires n in s.inst && Inv(cfg, s, orig)
    ensures Inv(cfg, UnapplyTuning(cfg, s, n), orig)
    ensures UnapplyTuning(cfg, s, n).inst.Keys == s.inst.Keys
    ensures forall key :: key in UnapplyTuning(cfg, s, n).store <==> key in s.store && key.instance != n
  {
    UntuneSaved(cfg, s, n, s.inst[n].processed, orig);
    SameInstancesOrdered(s, UnapplyTuning(cfg, s, n));
  }

  lemma MoveKeepsInstances(cfg: Config, s: Plugin, a: Name, b: Name, D: set<Device>)
    requires a in s.inst && b in s.inst
    ensures SameInstances(s, Move(cfg, s, a, b, D))
  {
    var r := RemoveDevices(cfg, s, a, D);
    assert SameInstances(s, r);
    assert SameInstances(r, AddDevicesNocheck(cfg, r, b, D));
  }

  lemma EventsKeepInstances(cfg: Config, s: Plugin, d: Device)
    requires OrderListed(s)
    ensures SameInstances(s, AddDevice(cfg, s, d))
    ensures SameInstances(s, RemoveDevice(cfg, s, d))
  {
    hide AddDevices, RemoveDevices, FirstMatch, FirstOwner;
    FirstMatchListed(cfg, s, s.order, d);
    FirstOwnerListed(s, s.order, d);
    if FirstMatch(cfg, s, s.order, d).Some? {
      AddDevicesKeepInstances(cfg, s, FirstMatch(cfg, s, s.order, d).value, {d});
    }
    if FirstOwner(s, s.order, d).Some? {
      RemoveDevicesKeepInstances(cfg, s, FirstOwner(s, s.order, d).value, {d});
    }
  }

  lemma AddDevicesKeepInstances(cfg: Config, s: Plugin, n: Name, D: set<Device>)
    requires n in s.inst
    ensures SameInstances(s, AddDevices(cfg, s, n, D))
  {
    hide TuneKnobs, TuneStore;
  }

  lemma RemoveDevicesKeepInstances(cfg: Config, s: Plugin, n: Name, D: set<Device>)
    requires n in s.inst
    ensures SameInstances(s, RemoveDevices(cfg, s, n, D))
  {
    hide UntuneKnobs, UntuneStore;
  }

  lemma {:induction false} InsertAt(s: Plugin, order: seq<Name>, n: Name, priority: int) returns (p: nat)
    requires forall m :: m in order ==> m in s.inst
    requires ByPriority(order, s.inst)
    ensures p <= |order|
    ensures InsertByPriority(s, order, n, priority) == order[..p] + [n] + order[p..]
    ensures forall i :: 0 <= i < p ==> s.inst[order[i]].priority <= priority
    ensures forall i :: p <= i < |order| ==> priority < s.inst[order[i]].priority
  {
    p := 0;
    if order != [] && s.inst[order[0]].priority <= priority {
      var tail := order[1..];
      var q := InsertAt(s, tail, n, priority);
      p := q + 1;
      assert order[..p] == [order[0]] + tail[..q];
      assert order[p..] == tail[q..];
    }
  }

  lemma InsertDistinct(order: seq<Name>, n: Name, p: nat)
    requires p <= |order| && n !in order && Distinct(order)
    ensures var r := order[..p] + [n] + order[p..];
            Distinct(r) && forall m :: m in r <==> m in order || m == n
  {
    var r := order[..p] + [n] + order[p..];
    assert r[p] == n;
    forall m | m in order ensures m in r {
      var i :| 0 <= i < |order| && order[i] == m;
      assert r[if i < p then i else i + 1] == m;
    }
  }

  lemma InsertByPriorityKeeps(order: seq<Name>, n: Name, p: nat, inst: map<Name, Instance>, i: Instance)
    requires p <= |order| && n !in order && forall m :: m in order ==> m in inst
    requires ByPriority(order, inst)
    requires forall k :: 0 <= k < p ==> inst[order[k]].priority <= i.priority
    requires forall k :: p <= k < |order| ==> i.priority < inst[order[k]].priority
    ensures ByPriority(order[..p] + [n] + order[p..], inst[n := i])
  {
  }

  lemma CreateInstanceOrdered(s: Plugin, n: Name, priority: int, expression: string, options: map<Command, Value>)
    requires n !in s.inst && Ordered(s)
    ensures Ordered(CreateInstance(s, n, priority, expression, options))
  {
    var p := InsertAt(s, s.order, n, priority);
    InsertDistinct(s.order, n, p);
    InsertByPriorityKeeps(s.order, n, p, s.inst, Instance(priority, expression, options, true, {}, {}));
  }

  lemma CreateInstanceInv(cfg: Config, s: Plugin, n: Name, priority: int, expression: string,
                          options: map<Command, Value>, orig: Knobs)
    requires n !in s.inst && Inv(cfg, s, orig)
    ensures Inv(cfg, CreateInstance(s, n, priority, expression, options), orig)
  {
    hide Saved, InsertByPriority, ByPriority;
    var t := CreateInstance(s, n, priority, expression, options);
    CreateInstanceOrdered(s, n, priority, expression, options);
    forall d | d in t.claimed
      ensures exists m :: m in t.inst && d in Devices(t.inst[m])
    {
      var m :| m in s.inst && d in Devices(s.inst[m]);
      assert d in Devices(t.inst[m]);
    }
    CreateInstanceSaved(cfg, s, n, priority, expression, options, orig);
  }

  lemma CreateInstanceSaved(cfg: Config, s: Plugin, n: Name, priority: int, expression: string,
                            options: map<Command, Value>, orig: Knobs)
    requires n !in s.inst && OrderListed(s) && Saved(cfg, s, orig)
    ensures Saved(cfg, CreateInstance(s, n, priority, expression, options), orig)
  {
    hide InsertByPriority;
    SavedFrame(cfg, s, CreateInstance(s, n, priority, expression, options), orig);
  }

  lemma {:induction false} WithoutAt(order: seq<Name>, n: Name) returns (p: nat)
    requires n in order
    ensures p < |order| && order[p] == n && Without(order, n) == order[..p] + order[p + 1..]
  {
    p := 0;
    if order[0] != n {
      var tail := order[1..];
      var q := WithoutAt(tail, n);
      p := q + 1;
      assert order[..p] == [order[0]] + tail[..q];
      assert order[p + 1..] == tail[q + 1..];
    }
  }

  lemma WithoutDistinct(order: seq<Name>, p: nat)
    requires p < |order| && Distinct(order)
    ensures var r := order[..p] + order[p + 1..];
            Distinct(r) && forall m :: m in r <==> m in order && m != order[p]
  {
    var r := order[..p] + order[p + 1..];
    forall m | m in order && m != order[p] ensures m in r {
      var i :| 0 <= i < |order| && order[i] == m;
      assert r[if i < p then i else i - 1] == m;
    }
  }

  lemma WithoutByPriority(order: seq<Name>, p: nat, inst: map<Name, Instance>, rest: map<Name, Instance>)
    requires p < |order| && Distinct(order) && (forall m :: m in order ==> m in inst) && ByPriority(order, inst)
    requires forall m :: m in order && m != order[p] ==> m in rest && rest[m].priority == inst[m].priority
    ensures (forall m :: m in order[..p] + order[p + 1..] ==> m in rest)
    ensures ByPriority(order[..p] + order[p + 1..], rest)
  {
    WithoutDistinct(order, p);
  }

  lemma DestroyOrdered(s: Plugin, n: Name)
    requires n in s.inst && Ordered(s)
    ensures Ordered(DestroyInstance(s, n))
  {
    var p := WithoutAt(s.order, n);
    WithoutDistinct(s.order, p);
    WithoutByPriority(s.order, p, s.inst, DestroyInstance(s, n).inst);
  }

  /** Destroying an instance keeps the invariants exactly when it has no saved values left. */
  lemma DestroyInstanceInv(cfg: Config, s: Plugin, n: Name, orig: Knobs)
    requires n in s.inst && Inv(cfg, s, orig)
    ensures Inv(cfg, DestroyInstance(s, n), orig) <==> forall key :: key in s.store ==> key.instance != n
  {
    hide Owned, Ordered;
    DestroyOrdered(s, n);
    DestroyOwned(s, n);
    var t := DestroyInstance(s, n);
    if forall key :: key in s.store ==> key.instance != n {
      hide Saved;
      SavedFrame(cfg, s, t, orig);
    } else {
      var key :| key in s.store && key.instance == n;
      assert key in t.store && key.instance !in t.inst;
    }
  }

  lemma DestroyOwned(s: Plugin, n: Name)
    requires n in s.inst && Owned(s)
    ensures Owned(DestroyInstance(s, n))
  {
    var t := DestroyInstance(s, n);
    forall d | d in t.claimed
      ensures exists m :: m in t.inst && d in Devices(t.inst[m])
    {
      var m :| m in s.inst && d in Devices(s.inst[m]);
      assert m != n;
      assert d in Devices(t.inst[m]);
    }
  }
}
