/** Rollback when knobs are shared: several commands and several instances may write the same knob, and
    undoing everything in reverse order still restores it
    (tuned/plugins/base.py, tuned/units/manager.py). */
module RollbackStack {
  import opened Text
  import opened Lists
  import PluginModel
  import Modifiers

  type Address(==, !new)
  type Value = string

  datatype Command = Command(name: string, perDevice: bool)

  /** An instance with its plugin's storage class and commands (in priority order), the knob each command
      and device address, and the devices it tunes. */
  datatype Instance = Instance(
    plugin: string,
    commands: seq<Command>,
    address: (string, string) -> Address,
    name: string,
    options: map<string, Value>,
    devices: set<string>,
    active: bool)

  datatype State = State(knobs: map<Address, Value>, store: map<string, Value>)

  // ----- Storage keys -----

  function StorageKey(plugin: string, instance: string, command: string, device: string): string {
    plugin + "/" + instance + "/" + command + "/" + device
  }

  /** The text up to the first slash determines the rest. */
  lemma {:induction false} SlashSplits(a: string, b: string, x: string, y: string)
    requires '/' !in a && '/' !in b && a + "/" + x == b + "/" + y
    ensures a == b && x == y
  {
    if a == "" || b == "" {
      assert (a + "/" + x)[0] == (b + "/" + y)[0];
      assert a == "" && b == "";
      assert x == (a + "/" + x)[1..] && y == (b + "/" + y)[1..];
    } else {
      assert a[0] == (a + "/" + x)[0] == b[0];
      assert a[1..] + "/" + x == (a + "/" + x)[1..] == (b + "/" + y)[1..] == b[1..] + "/" + y;
      SlashSplits(a[1..], b[1..], x, y);
    }
  }

  /** The instance name i goes on where i' and the command c' end. */
  predicate Extends(i: string, i': string, c': string) {
    i == i' + "/" + c' || i' + "/" + c' + "/" <= i
  }

  lemma {:induction false} FirstSlash(w: string) returns (a: string, v: string)
    requires '/' in w
    ensures w == a + "/" + v && '/' !in a
  {
    if w[0] == '/' {
      a, v := "", w[1..];
    } else {
      a, v := FirstSlash(w[1..]);
      assert w == [w[0]] + w[1..];
      a := [w[0]] + a;
    }
  }

  /** A longer instance name with the same key extends the shorter one and its command. */
  lemma LongerName(i: string, y: string, i': string, c': string, d': string)
    requires |i'| < |i| && '/' !in c' && i + "/" + y == i' + "/" + (c' + "/" + d')
    ensures Extends(i, i', c')
  {
    var all, n := i + "/" + y, |i'|;
    var w := i[n + 1..];
    assert i' == all[..n] == i[..n] && i[n] == all[n] == '/';
    assert i == i' + "/" + w;
    assert all[n + 1..] == w + "/" + y && all[n + 1..] == c' + "/" + d';
    if '/' !in w {
      SlashSplits(w, c', y, d');
    } else {
      var a, v := FirstSlash(w);
      assert w + "/" + y == a + "/" + (v + "/" + y);
      SlashSplits(a, c', v + "/" + y, d');
      assert i == i' + "/" + c' + "/" + v;
    }
  }

  lemma SameName(i: string, y: string, i': string, y': string)
    requires |i| == |i'| && i + "/" + y == i' + "/" + y'
    ensures i == i' && y == y'
  {
    var all, n := i + "/" + y, |i|;
    assert i == all[..n] && i' == (i' + "/" + y')[..n];
    assert y == all[n + 1..] && y' == (i' + "/" + y')[n + 1..];
  }

  /** With slashes only in instance and device names, equal keys are the same key, or one instance name extends
      the other one and its command. */
  lemma EqualKeys(p: string, i: string, c: string, d: string, p': string, i': string, c': string, d': string)
    requires '/' !in p && '/' !in c && '/' !in p' && '/' !in c'
    requires StorageKey(p, i, c, d) == StorageKey(p', i', c', d')
    ensures p == p'
    ensures (i == i' && c == c' && d == d') || (i != i' && (Extends(i, i', c') || Extends(i', i, c)))
  {
    hide Extends;
    var y, y' := c + "/" + d, c' + "/" + d';
    assert StorageKey(p, i, c, d) == p + "/" + (i + "/" + y) && StorageKey(p', i', c', d') == p' + "/" + (i' + "/" + y');
    SlashSplits(p, p', i + "/" + y, i' + "/" + y');
    if |i| == |i'| {
      SameName(i, y, i', y');
      SlashSplits(c, c', d, d');
    } else if |i'| < |i| {
      LongerName(i, y, i', c', d');
    } else {
      LongerName(i', y', i, c, d);
    }
  }

  /** An instance name that extends another one and its command makes keys collide, for every command and
      device. */
  lemma ExtendedCollides(p: string, i: string, i': string, c': string, c: string, d: string) returns (d': string)
    requires Extends(i, i', c')
    ensures i != i' && StorageKey(p, i, c, d) == StorageKey(p, i', c', d')
  {
    if i == i' + "/" + c' {
      d' := c + "/" + d;
      assert StorageKey(p, i, c, d) == p + "/" + (i' + "/" + c') + "/" + c + "/" + d;
    } else {
      var head := i' + "/" + c' + "/";
      var v := i[|head|..];
      assert i == head + v;
      d' := v + "/" + c + "/" + d;
      assert StorageKey(p, i, c, d) == p + "/" + (i' + "/" + c' + "/" + v) + "/" + c + "/" + d;
    }
  }

  ghost predicate InjectiveKeys(p: string, I: set<string>, C: set<string>) {
    forall i, c, d, i', c', d' ::
      i in I && c in C && i' in I && c' in C && StorageKey(p, i, c, d) == StorageKey(p, i', c', d') ==>
        i == i' && c == c' && d == d'
  }

  /** The keys of a plugin are injective, whatever the devices are called, exactly when no instance name extends
      another one and a command; plugin and command names have no slash. */
  lemma StorageKeyInjective(p: string, I: set<string>, C: set<string>)
    requires '/' !in p && forall c :: c in C ==> '/' !in c
    ensures InjectiveKeys(p, I, C) <==> forall i, i', c' :: i in I && i' in I && c' in C ==> !Extends(i, i', c')
  {
    hide StorageKey, Extends;
    if InjectiveKeys(p, I, C) {
      forall i, i', c' | i in I && i' in I && c' in C ensures !Extends(i, i', c') {
        if Extends(i, i', c') {
          var d' := ExtendedCollides(p, i, i', c', c', "");
          assert false;
        }
      }
    }
    if forall i, i', c' :: i in I && i' in I && c' in C ==> !Extends(i, i', c') {
      forall i, c, d, i', c', d' | i in I && c in C && i' in I && c' in C &&
                                   StorageKey(p, i, c, d) == StorageKey(p, i', c', d')
        ensures i == i' && c == c' && d == d'
      {
        EqualKeys(p, i, c, d, p, i', c', d');
      }
    }
  }

  /** Instance names without slashes are such names. */
  lemma PlainNamesApart(i: string, i': string, c': string)
    requires '/' !in i
    ensures !Extends(i, i', c')
  {
    var head := i' + "/" + c';
    assert head[|i'|] == '/';
    if i == head || head + "/" <= i {
      InPrefix(head, i, |i'|);
    }
  }

  lemma InPrefix(a: string, b: string, k: nat)
    requires k < |a| && a <= b
    ensures a[k] in b
  {
    assert b[k] == a[k];
  }

  /** A slash in an instance name makes two keys collide. */
  lemma StorageKeyCollides()
    ensures StorageKey("P", "a/b", "c", "d") == StorageKey("P", "a", "b", "c/d")
  {
  }

  // ----- Operations -----

  /** One command of one instance on one device or none. */
  datatype Op = Op(key: string, address: Address, request: Value)

  ghost predicate Saves(s: State, op: Op) {
    op.address in s.knobs && PluginModel.ProcessModifiers(op.request, Some(s.knobs[op.address])).Some?
  }

  /** Execute a command: save the current value, then write. */
  ghost function Do(s: State, op: Op): State {
    if Saves(s, op) then
      State(s.knobs[op.address := PluginModel.ProcessModifiers(op.request, Some(s.knobs[op.address])).value],
            s.store[op.key := s.knobs[op.address]])
    else s
  }

  /** Clean a command up: write the saved value back and forget it. */
  ghost function Undo(s: State, op: Op): State {
    State(if op.key in s.store && op.address in s.knobs then s.knobs[op.address := s.store[op.key]] else s.knobs,
          s.store - {op.key})
  }

  ghost function DoAll(s: State, ops: seq<Op>): State {
    if ops == [] then s else Do(DoAll(s, ops[..|ops| - 1]), ops[|ops| - 1])
  }

  ghost function UndoAll(s: State, ops: seq<Op>): State
    decreases |ops|
  {
    if ops == [] then s else UndoAll(Undo(s, ops[0]), ops[1..])
  }

  lemma UndoOfDo(s: State, op: Op)
    requires op.key !in s.store
    ensures Undo(Do(s, op), op) == s
  {
    hide PluginModel.ProcessModifiers;
    if Saves(s, op) {
      assert Undo(Do(s, op), op).knobs == s.knobs;
    }
    assert Undo(Do(s, op), op).store == s.store;
  }

  lemma UndoCommutes(s: State, x: Op, y: Op)
    requires x.address != y.address && x.key != y.key
    ensures Undo(Undo(s, x), y) == Undo(Undo(s, y), x)
  {
    assert Undo(Undo(s, x), y).store == Undo(Undo(s, y), x).store;
    assert Undo(Undo(s, x), y).knobs == Undo(Undo(s, y), x).knobs;
  }

  ghost predicate DistinctKeys(ops: seq<Op>) {
    forall i, j :: 0 <= i < j < |ops| ==> ops[i].key != ops[j].key
  }

  /** Operations with different keys on different knobs. */
  ghost predicate Independent(ops: seq<Op>) {
    DistinctKeys(ops) && forall i, j :: 0 <= i < j < |ops| ==> ops[i].address != ops[j].address
  }

  ghost predicate Fresh(s: State, ops: seq<Op>) {
    forall i :: 0 <= i < |ops| ==> ops[i].key !in s.store
  }

  /** Any one of several independent operations may be undone first. */
  lemma {:induction false} UndoFirst(s: State, ops: seq<Op>, k: nat)
    requires Independent(ops) && k < |ops|
    ensures UndoAll(s, ops) == UndoAll(Undo(s, ops[k]), ops[..k] + ops[k + 1..])
    decreases k
  {
    hide Undo;
    if k == 0 {
      assert ops[..0] + ops[1..] == ops[1..];
    } else {
      var tail, rest := ops[1..], ops[..k] + ops[k + 1..];
      UndoFirst(Undo(s, ops[0]), tail, k - 1);
      UndoCommutes(s, ops[0], ops[k]);
      assert rest[0] == ops[0] && rest[1..] == tail[..k - 1] + tail[k..];
    }
  }

  ghost predicate SameOps(a: seq<Op>, b: seq<Op>) {
    forall op :: op in a <==> op in b
  }

  lemma DropOne(a: seq<Op>, k: nat)
    requires Independent(a) && k < |a|
    ensures var rest := a[..k] + a[k + 1..];
            Independent(rest) && forall op :: op in rest <==> op in a && op != a[k]
  {
    var rest := a[..k] + a[k + 1..];
    assert forall i :: 0 <= i < |rest| ==> rest[i] == a[if i < k then i else i + 1];
    forall op | op in a && op != a[k] ensures op in rest {
      var i :| 0 <= i < |a| && a[i] == op;
      assert rest[if i < k then i else i - 1] == op;
    }
  }

  lemma NoOps(a: seq<Op>)
    ensures a == [] || a[0] in a
  {
  }

  /** Independent operations may be undone in any order. */
  lemma {:induction false} UndoPermuted(s: State, a: seq<Op>, b: seq<Op>)
    requires Independent(a) && Independent(b) && SameOps(a, b)
    ensures UndoAll(s, a) == UndoAll(s, b)
    decreases |b|
  {
    hide Undo, Independent;
    if b == [] {
      NoOps(a);
    } else {
      var x := b[0];
      assert x in a;
      var k :| 0 <= k < |a| && a[k] == x;
      DropOne(a, k);
      DropOne(b, 0);
      assert b[..0] + b[1..] == b[1..];
      UndoFirst(s, a, k);
      UndoPermuted(Undo(s, x), a[..k] + a[k + 1..], b[1..]);
    }
  }

  function Reverse(ops: seq<Op>): (r: seq<Op>)
    ensures |r| == |ops|
  {
    if ops == [] then [] else [ops[|ops| - 1]] + Reverse(ops[..|ops| - 1])
  }

  lemma {:induction false} DoAllStore(s: State, ops: seq<Op>, key: string)
    requires key !in s.store && forall i :: 0 <= i < |ops| ==> ops[i].key != key
    ensures key !in DoAll(s, ops).store
  {
    if ops != [] {
      DoAllStore(s, ops[..|ops| - 1], key);
    }
  }

  /** Undoing in exactly the reverse order restores everything, even on shared knobs. */
  lemma {:induction false} UndoReversed(s: State, ops: seq<Op>)
    requires DistinctKeys(ops) && Fresh(s, ops)
    ensures UndoAll(DoAll(s, ops), Reverse(ops)) == s
  {
    hide Do, Undo;
    if ops != [] {
      var front, op := ops[..|ops| - 1], ops[|ops| - 1];
      DoAllStore(s, front, op.key);
      UndoOfDo(DoAll(s, front), op);
      UndoReversed(s, front);
      assert Reverse(ops)[1..] == Reverse(front);
    }
  }

  lemma {:induction false} ReverseAt(ops: seq<Op>, k: nat)
    requires k < |ops|
    ensures Reverse(ops)[k] == ops[|ops| - 1 - k]
  {
    if k > 0 {
      ReverseAt(ops[..|ops| - 1], k - 1);
    }
  }

  lemma ReverseIndependent(ops: seq<Op>)
    requires Independent(ops)
    ensures Independent(Reverse(ops)) && SameOps(ops, Reverse(ops))
  {
    forall k | 0 <= k < |ops| ensures Reverse(ops)[k] == ops[|ops| - 1 - k] {
      ReverseAt(ops, k);
    }
    forall op | op in ops ensures op in Reverse(ops) {
      var i :| 0 <= i < |ops| && ops[i] == op;
      assert Reverse(ops)[|ops| - 1 - i] == op;
    }
  }

  /** A group of independent operations is undone in any order. */
  lemma UndoGroup(s: State, done: seq<Op>, undone: seq<Op>)
    requires Independent(done) && Independent(undone) && Fresh(s, done) && SameOps(done, undone)
    ensures UndoAll(DoAll(s, done), undone) == s
  {
    hide DoAll, UndoAll;
    UndoReversed(s, done);
    ReverseIndependent(done);
    UndoPermuted(DoAll(s, done), Reverse(done), undone);
  }

  // ----- Groups done in order and undone in reverse -----

  ghost function Start(s: State, groups: seq<seq<Op>>): State {
    if groups == [] then s else DoAll(Start(s, groups[..|groups| - 1]), groups[|groups| - 1])
  }

  ghost function Stop(s: State, groups: seq<seq<Op>>): State
    decreases |groups|
  {
    if groups == [] then s else Stop(UndoAll(s, groups[|groups| - 1]), groups[..|groups| - 1])
  }

  /** No key occurs in two groups. */
  ghost predicate SeparateKeys(groups: seq<seq<Op>>) {
    forall i, j, a, b :: 0 <= i < j < |groups| && 0 <= a < |groups[i]| && 0 <= b < |groups[j]| ==>
      groups[i][a].key != groups[j][b].key
  }

  /** Each group was done as a whole, in some order, or not at all. */
  ghost predicate DoneOrSkipped(done: seq<seq<Op>>, undone: seq<seq<Op>>) {
    && |done| == |undone|
    && forall j :: 0 <= j < |done| ==>
         done[j] == [] || (Independent(done[j]) && SameOps(done[j], undone[j]))
  }

  lemma {:induction false} StartStore(s: State, groups: seq<seq<Op>>, key: string)
    requires key !in s.store
    requires forall i, a :: 0 <= i < |groups| && 0 <= a < |groups[i]| ==> groups[i][a].key != key
    ensures key !in Start(s, groups).store
  {
    if groups != [] {
      StartStore(s, groups[..|groups| - 1], key);
      DoAllStore(Start(s, groups[..|groups| - 1]), groups[|groups| - 1], key);
    }
  }

  lemma {:induction false} UndoSkipped(s: State, ops: seq<Op>)
    requires Fresh(s, ops)
    ensures UndoAll(s, ops) == s
    decreases |ops|
  {
    if ops != [] {
      assert s.store - {ops[0].key} == s.store;
      UndoSkipped(s, ops[1..]);
    }
  }

  /** Main result: groups of commands done in order and undone in reverse restore every knob, even when
      several groups write the same one. */
  lemma {:induction false} StopAfterStart(s: State, done: seq<seq<Op>>, undone: seq<seq<Op>>)
    requires DoneOrSkipped(done, undone) && SeparateKeys(undone)
    requires forall j :: 0 <= j < |undone| ==> Independent(undone[j]) && Fresh(s, undone[j])
    ensures Stop(Start(s, done), undone) == s
    decreases |done|
  {
    hide DoAll, UndoAll, Independent;
    if done != [] {
      var m := |done| - 1;
      var front, back := done[..m], undone[..m];
      var before := Start(s, front);
      forall b | 0 <= b < |undone[m]| ensures undone[m][b].key !in before.store {
        forall i, a | 0 <= i < |front| && 0 <= a < |front[i]| ensures front[i][a].key != undone[m][b].key {
          assert front[i][a] in undone[i];
        }
        StartStore(s, front, undone[m][b].key);
      }
      if done[m] == [] {
        DoNothing(before);
        UndoSkipped(before, undone[m]);
      } else {
        assert Fresh(before, done[m]) by {
          forall a | 0 <= a < |done[m]| ensures done[m][a].key !in before.store {
            assert done[m][a] in undone[m];
          }
        }
        UndoGroup(before, done[m], undone[m]);
      }
      StopAfterStart(s, front, back);
    }
  }

  lemma DoNothing(s: State)
    ensures DoAll(s, []) == s
  {
  }

  // ----- Instances -----

  /** The commands an instance sets, in the order they are executed: those without a device first. */
  function Selected(i: Instance, commands: seq<Command>, perDevice: bool): seq<Command> {
    if commands == [] then []
    else
      var rest := Selected(i, commands[1..], perDevice);
      if commands[0].perDevice == perDevice && commands[0].name in i.options then [commands[0]] + rest else rest
  }

  function Commands(i: Instance): seq<Command> {
    Selected(i, i.commands, false) + Selected(i, i.commands, true)
  }

  function Operation(i: Instance, c: Command, device: string): Op
    requires c.name in i.options
  {
    Op(StorageKey(i.plugin, i.name, c.name, device), i.address(c.name, device), i.options[c.name])
  }

  /** The devices a command runs on; a command without a device has the empty name. */
  function Targets(i: Instance, c: Command): set<string> {
    if c.perDevice then i.devices else {""}
  }

  ghost predicate Enumerates(ds: seq<string>, D: set<string>) {
    && (forall d :: d in ds <==> d in D)
    && (forall a, b :: 0 <= a < b < |ds| ==> ds[a] != ds[b])
  }

  /** `ops` runs command c of the instance once on each of its devices, in some order. */
  ghost predicate Runs(i: Instance, c: Command, ops: seq<Op>)
    requires c.name in i.options
  {
    exists ds: seq<string> :: Enumerates(ds, Targets(i, c)) && |ops| == |ds| &&
      forall k :: 0 <= k < |ds| ==> ops[k] == Operation(i, c, ds[k])
  }

  lemma {:induction false} SelectedProperties(i: Instance, commands: seq<Command>, perDevice: bool)
    requires forall a, b :: 0 <= a < b < |commands| ==> commands[a].name != commands[b].name
    ensures var r := Selected(i, commands, perDevice);
            && (forall c :: c in r <==> c in commands && c.perDevice == perDevice && c.name in i.options)
            && (forall a, b :: 0 <= a < b < |r| ==> r[a].name != r[b].name)
  {
    if commands != [] {
      SelectedProperties(i, commands[1..], perDevice);
      assert forall c :: c in commands <==> c == commands[0] || c in commands[1..];
    }
  }

  /** Plugin commands have distinct names without slashes, and the knobs of one command differ by device. */
  ghost predicate WellFormed(i: Instance) {
    && '/' !in i.plugin
    && (forall a, b :: 0 <= a < b < |i.commands| ==> i.commands[a].name != i.commands[b].name)
    && (forall a :: 0 <= a < |i.commands| ==> '/' !in i.commands[a].name)
    && (forall c, d, e :: d in i.devices && e in i.devices && d != e ==> i.address(c, d) != i.address(c, e))
  }

  lemma CommandsProperties(i: Instance)
    requires WellFormed(i)
    ensures forall j :: 0 <= j < |Commands(i)| ==>
              Commands(i)[j] in i.commands && Commands(i)[j].name in i.options && '/' !in Commands(i)[j].name
    ensures forall a, b :: 0 <= a < b < |Commands(i)| ==> Commands(i)[a].name != Commands(i)[b].name
  {
    SelectedProperties(i, i.commands, false);
    SelectedProperties(i, i.commands, true);
    var x, y := Selected(i, i.commands, false), Selected(i, i.commands, true);
    forall a, b | 0 <= a < |x| && 0 <= b < |y| ensures x[a].name != y[b].name {
      assert x[a] in i.commands && y[b] in i.commands && x[a] != y[b];
    }
  }

  /** The groups `plan` run the instance's commands in order. */
  ghost predicate Plan(i: Instance, plan: seq<seq<Op>>)
    requires WellFormed(i)
  {
    CommandsProperties(i);
    |plan| == |Commands(i)| && forall j :: 0 <= j < |plan| ==> Runs(i, Commands(i)[j], plan[j])
  }

  /** What applying an instance does: all its commands if it is active, nothing otherwise. */
  ghost predicate ApplyPlan(i: Instance, plan: seq<seq<Op>>)
    requires WellFormed(i)
  {
    if i.active then Plan(i, plan)
    else |plan| == |Commands(i)| && forall j :: 0 <= j < |plan| ==> plan[j] == []
  }

  /** What undoing an instance visits: an instance that was not active has no devices to visit. */
  ghost predicate UnapplyPlan(i: Instance, plan: seq<seq<Op>>)
    requires WellFormed(i)
  {
    Plan(if i.active then i else i.(devices := {}), plan)
  }

  lemma RunsIndependent(i: Instance, c: Command, ops: seq<Op>)
    requires WellFormed(i) && c.name in i.options && '/' !in c.name && Runs(i, c, ops)
    ensures Independent(ops)
  {
    var ds: seq<string> :| Enumerates(ds, Targets(i, c)) && |ops| == |ds| &&
      forall k :: 0 <= k < |ds| ==> ops[k] == Operation(i, c, ds[k]);
    forall a, b | 0 <= a < b < |ops| ensures ops[a].key != ops[b].key && ops[a].address != ops[b].address {
      assert ds[a] in Targets(i, c) && ds[b] in Targets(i, c);
      if ops[a].key == ops[b].key {
        EqualKeys(i.plugin, i.name, c.name, ds[a], i.plugin, i.name, c.name, ds[b]);
        assert false;
      }
    }
  }

  lemma RunsSameOps(i: Instance, c: Command, a: seq<Op>, b: seq<Op>)
    requires c.name in i.options && Runs(i, c, a) && Runs(i, c, b)
    ensures SameOps(a, b)
  {
    RunsHolds(i, c, a);
    RunsHolds(i, c, b);
  }

  lemma RunsHolds(i: Instance, c: Command, a: seq<Op>)
    requires c.name in i.options && Runs(i, c, a)
    ensures forall op :: op in a <==> exists d :: d in Targets(i, c) && op == Operation(i, c, d)
  {
    var ds: seq<string> :| Enumerates(ds, Targets(i, c)) && |a| == |ds| &&
      forall k :: 0 <= k < |ds| ==> a[k] == Operation(i, c, ds[k]);
    forall d | d in Targets(i, c) ensures Operation(i, c, d) in a {
      assert d in ds;
      var k :| 0 <= k < |ds| && ds[k] == d;
      assert a[k] == Operation(i, c, d);
    }
    forall op | op in a ensures exists d :: d in Targets(i, c) && op == Operation(i, c, d) {
      var k :| 0 <= k < |a| && a[k] == op;
      assert ds[k] in Targets(i, c);
    }
  }

  ghost predicate FreshPlan(s: State, plan: seq<seq<Op>>) {
    forall j :: 0 <= j < |plan| ==> Fresh(s, plan[j])
  }

  lemma PlanIndependent(i: Instance, plan: seq<seq<Op>>, j: nat)
    requires WellFormed(i) && Plan(i, plan) && j < |plan|
    ensures Independent(plan[j])
  {
    hide Independent, Runs, Commands;
    CommandsProperties(i);
    RunsIndependent(i, Commands(i)[j], plan[j]);
  }

  /** Every key of a plan names its plugin, instance and command. */
  lemma PlanKey(i: Instance, plan: seq<seq<Op>>, j: nat, a: nat) returns (d: string)
    requires WellFormed(i) && Plan(i, plan) && j < |plan| && a < |plan[j]|
    ensures j < |Commands(i)| && Commands(i)[j] in i.commands && '/' !in Commands(i)[j].name
    ensures plan[j][a].key == StorageKey(i.plugin, i.name, Commands(i)[j].name, d)
  {
    hide Commands;
    CommandsProperties(i);
    RunsHolds(i, Commands(i)[j], plan[j]);
    assert plan[j][a] in plan[j];
    d :| d in Targets(i, Commands(i)[j]) && plan[j][a] == Operation(i, Commands(i)[j], d);
  }

  lemma PlanSeparate(i: Instance, plan: seq<seq<Op>>)
    requires WellFormed(i) && Plan(i, plan)
    ensures SeparateKeys(plan)
  {
    hide Plan, Commands;
    CommandsProperties(i);
    forall x, y, a, b | 0 <= x < y < |plan| && 0 <= a < |plan[x]| && 0 <= b < |plan[y]|
      ensures plan[x][a].key != plan[y][b].key
    {
      var d := PlanKey(i, plan, x, a);
      var e := PlanKey(i, plan, y, b);
      if plan[x][a].key == plan[y][b].key {
        EqualKeys(i.plugin, i.name, Commands(i)[x].name, d, i.plugin, i.name, Commands(i)[y].name, e);
        assert false;
      }
    }
  }

  lemma InactiveCommands(i: Instance, commands: seq<Command>, perDevice: bool)
    ensures Selected(i.(devices := {}), commands, perDevice) == Selected(i, commands, perDevice)
  {
  }

  /** Undoing an instance after applying it restores the state. */
  lemma InstanceRestores(s: State, i: Instance, applied: seq<seq<Op>>, undone: seq<seq<Op>>)
    requires WellFormed(i) && ApplyPlan(i, applied) && UnapplyPlan(i, undone) && FreshPlan(s, undone)
    ensures Stop(Start(s, applied), undone) == s
  {
    hide Runs, Commands, Start, Stop, Independent, Fresh, SeparateKeys;
    var j := if i.active then i else i.(devices := {});
    SameCommands(i);
    PlanSeparate(j, undone);
    forall k | 0 <= k < |undone| ensures Independent(undone[k]) {
      PlanIndependent(j, undone, k);
    }
    CommandsProperties(i);
    forall k | 0 <= k < |applied|
      ensures applied[k] == [] || (Independent(applied[k]) && SameOps(applied[k], undone[k]))
    {
      if i.active {
        PlanIndependent(i, applied, k);
        RunsSameOps(i, Commands(i)[k], applied[k], undone[k]);
      }
    }
    StopAfterStart(s, applied, undone);
  }

  lemma SameCommands(i: Instance)
    ensures Commands(i.(devices := {})) == Commands(i)
  {
    InactiveCommands(i, i.commands, false);
    InactiveCommands(i, i.commands, true);
  }

  // ----- The unit manager's list -----

  ghost function StartInstances(s: State, plans: seq<seq<seq<Op>>>): State {
    if plans == [] then s else Start(StartInstances(s, plans[..|plans| - 1]), plans[|plans| - 1])
  }

  ghost function StopInstances(s: State, plans: seq<seq<seq<Op>>>): State
    decreases |plans|
  {
    if plans == [] then s else StopInstances(Stop(s, plans[|plans| - 1]), plans[..|plans| - 1])
  }

  /** Instances of different plugins, or with different names such that none extends the other one and one of its
      commands. */
  ghost predicate Apart(i: Instance, o: Instance) {
    i.plugin != o.plugin ||
    (&& i.name != o.name
     && (forall c :: c in o.commands ==> !Extends(i.name, o.name, c.name))
     && (forall c :: c in i.commands ==> !Extends(o.name, i.name, c.name)))
  }

  ghost predicate DistinctInstances(insts: seq<Instance>) {
    && (forall k :: 0 <= k < |insts| ==> WellFormed(insts[k]))
    && forall j, k :: 0 <= j < k < |insts| ==> Apart(insts[j], insts[k])
  }

  lemma ApplyPlanKeys(i: Instance, other: Instance, applied: seq<seq<Op>>, undone: seq<seq<Op>>, x: nat, a: nat, y: nat, b: nat)
    requires WellFormed(i) && WellFormed(other) && ApplyPlan(i, applied) && UnapplyPlan(other, undone)
    requires Apart(i, other)
    requires x < |applied| && a < |applied[x]| && y < |undone| && b < |undone[y]|
    ensures applied[x][a].key != undone[y][b].key
  {
    hide Plan, Commands;
    var o := if other.active then other else other.(devices := {});
    var d := PlanKey(i, applied, x, a);
    var e := PlanKey(o, undone, y, b);
    if applied[x][a].key == undone[y][b].key {
      EqualKeys(i.plugin, i.name, Commands(i)[x].name, d, o.plugin, o.name, Commands(o)[y].name, e);
      assert false;
    }
  }

  lemma {:induction false} StartInstancesStore(s: State, insts: seq<Instance>, plans: seq<seq<seq<Op>>>, key: string)
    requires key !in s.store && |plans| == |insts|
    requires forall k, x, a :: 0 <= k < |plans| && 0 <= x < |plans[k]| && 0 <= a < |plans[k][x]| ==> plans[k][x][a].key != key
    ensures key !in StartInstances(s, plans).store
    decreases |plans|
  {
    if plans != [] {
      var m := |plans| - 1;
      StartInstancesStore(s, insts[..m], plans[..m], key);
      StartStore(StartInstances(s, plans[..m]), plans[m], key);
    }
  }

  lemma LaterFresh(s: State, insts: seq<Instance>, applied: seq<seq<seq<Op>>>, undone: seq<seq<Op>>, i: Instance)
    requires |applied| == |insts| && WellFormed(i) && UnapplyPlan(i, undone) && FreshPlan(s, undone)
    requires forall k :: 0 <= k < |insts| ==>
               && WellFormed(insts[k]) && ApplyPlan(insts[k], applied[k])
               && Apart(insts[k], i)
    ensures FreshPlan(StartInstances(s, applied), undone)
  {
    hide ApplyPlan, UnapplyPlan, WellFormed, StartInstances;
    forall y, b | 0 <= y < |undone| && 0 <= b < |undone[y]|
      ensures undone[y][b].key !in StartInstances(s, applied).store
    {
      forall k, x, a | 0 <= k < |applied| && 0 <= x < |applied[k]| && 0 <= a < |applied[k][x]|
        ensures applied[k][x][a].key != undone[y][b].key
      {
        ApplyPlanKeys(insts[k], i, applied[k], undone, x, a, y, b);
      }
      assert Fresh(s, undone[y]);
      StartInstancesStore(s, insts, applied, undone[y][b].key);
    }
  }

  /** Main result: starting any list of instances in order and stopping them in reverse restores every
      knob and empties the storage again, whatever knobs the instances and commands share. */
  lemma {:induction false} StopRestoresAll(s: State, insts: seq<Instance>, applied: seq<seq<seq<Op>>>, undone: seq<seq<seq<Op>>>)
    requires DistinctInstances(insts) && |applied| == |insts| == |undone|
    requires forall k :: 0 <= k < |insts| ==>
               ApplyPlan(insts[k], applied[k]) && UnapplyPlan(insts[k], undone[k]) && FreshPlan(s, undone[k])
    ensures StopInstances(StartInstances(s, applied), undone) == s
    decreases |insts|
  {
    hide ApplyPlan, UnapplyPlan, WellFormed, FreshPlan, Start, Stop;
    if insts != [] {
      var m := |insts| - 1;
      LaterFresh(s, insts[..m], applied[..m], undone[m], insts[m]);
      InstanceRestores(StartInstances(s, applied[..m]), insts[m], applied[m], undone[m]);
      StopRestoresAll(s, insts[..m], applied[..m], undone[..m]);
    }
  }

  // ----- What starting writes -----

  /** A command leaves every other knob alone, and carries its request out on its own. */
  lemma DoWrites(s: State, op: Op, a: Address)
    requires a in s.knobs
    ensures a in Do(s, op).knobs
    ensures op.address == a ==> Modifiers.Carries(op.request, s.knobs[a], Do(s, op).knobs[a])
    ensures op.address != a ==> Do(s, op).knobs[a] == s.knobs[a]
  {
    hide PluginModel.ProcessModifiers, Modifiers.Carries;
    Modifiers.ProcessCarries(op.request, s.knobs[a]);
  }

  /** Operation m is the last one on the knob. */
  ghost predicate LastOn(ops: seq<Op>, a: Address, m: nat) {
    m < |ops| && ops[m].address == a && forall j :: m < j < |ops| ==> ops[j].address != a
  }

  ghost predicate NoneOn(ops: seq<Op>, a: Address) {
    forall j :: 0 <= j < |ops| ==> ops[j].address != a
  }

  /** The knob holds what a request made of it. */
  ghost predicate Obeys(s: State, a: Address, request: Value) {
    a in s.knobs && exists was :: Modifiers.Carries(request, was, s.knobs[a])
  }

  lemma {:induction false} DoAllWrites(s: State, ops: seq<Op>, a: Address, m: nat)
    requires a in s.knobs
    ensures a in DoAll(s, ops).knobs
    ensures NoneOn(ops, a) ==> DoAll(s, ops).knobs[a] == s.knobs[a]
    ensures LastOn(ops, a, m) ==> Obeys(DoAll(s, ops), a, ops[m].request)
  {
    hide Do, Modifiers.Carries;
    if ops != [] {
      var front := ops[..|ops| - 1];
      DoAllWrites(s, front, a, m);
      DoWrites(DoAll(s, front), ops[|ops| - 1], a);
    }
  }

  ghost predicate NoneIn(groups: seq<seq<Op>>, a: Address) {
    forall g :: 0 <= g < |groups| ==> NoneOn(groups[g], a)
  }

  ghost predicate LastIn(groups: seq<seq<Op>>, a: Address, g: nat, m: nat) {
    g < |groups| && LastOn(groups[g], a, m) && forall h :: g < h < |groups| ==> NoneOn(groups[h], a)
  }

  lemma {:induction false} StartWritesGroup(s: State, groups: seq<seq<Op>>, a: Address, g: nat, m: nat)
    requires a in s.knobs
    ensures a in Start(s, groups).knobs
    ensures NoneIn(groups, a) ==> Start(s, groups).knobs[a] == s.knobs[a]
    ensures LastIn(groups, a, g, m) ==> Obeys(Start(s, groups), a, groups[g][m].request)
  {
    hide DoAll, LastOn, NoneOn;
    if groups != [] {
      var front, last := groups[..|groups| - 1], groups[|groups| - 1];
      StartWritesGroup(s, front, a, g, m);
      DoAllWrites(Start(s, front), last, a, m);
    }
  }

  ghost predicate LastOfAll(plans: seq<seq<seq<Op>>>, a: Address, k: nat, g: nat, m: nat) {
    k < |plans| && LastIn(plans[k], a, g, m) && forall h :: k < h < |plans| ==> NoneIn(plans[h], a)
  }

  lemma {:induction false} StartInstancesWrites(s: State, plans: seq<seq<seq<Op>>>, a: Address, k: nat, g: nat, m: nat)
    requires a in s.knobs
    ensures a in StartInstances(s, plans).knobs
    ensures (forall h :: 0 <= h < |plans| ==> NoneIn(plans[h], a)) ==> StartInstances(s, plans).knobs[a] == s.knobs[a]
    ensures LastOfAll(plans, a, k, g, m) ==> Obeys(StartInstances(s, plans), a, plans[k][g][m].request)
  {
    hide Start, LastIn, NoneIn;
    if plans != [] {
      var front, last := plans[..|plans| - 1], plans[|plans| - 1];
      StartInstancesWrites(s, front, a, k, g, m);
      StartWritesGroup(StartInstances(s, front), last, a, g, m);
      LastInShape(last, a, g, m);
    }
  }

  lemma LastInShape(groups: seq<seq<Op>>, a: Address, g: nat, m: nat)
    ensures LastIn(groups, a, g, m) ==> g < |groups| && m < |groups[g]|
  {
  }

  /** The instance runs the command on the device, and writes the knob by it. */
  ghost predicate Addresses(i: Instance, c: Command, d: string, a: Address) {
    i.active && c in i.commands && c.name in i.options && (if c.perDevice then d in i.devices else d == "") && i.address(c.name, d) == a
  }

  /** The instance runs command e after command c: commands without a device come first, then it goes by the plugin's
      order. */
  ghost predicate RunsLater(i: Instance, c: Command, e: Command) {
    (!c.perDevice && e.perDevice) || (c.perDevice == e.perDevice && Ahead(i.commands, c, e))
  }

  lemma {:induction false} SelectedInOrder(i: Instance, commands: seq<Command>, perDevice: bool, x: nat, y: nat)
    requires x < y < |Selected(i, commands, perDevice)|
    ensures var r := Selected(i, commands, perDevice); Ahead(commands, r[x], r[y])
  {
    hide Ahead;
    var first, tail := commands[0], commands[1..];
    var r, rest := Selected(i, commands, perDevice), Selected(i, tail, perDevice);
    assert commands == [first] + tail;
    if first.perDevice == perDevice && first.name in i.options {
      if x == 0 {
        SelectedAmong(i, tail, perDevice);
        assert r[0] == first && r[y] == rest[y - 1];
        AheadJoint([first], tail, first, r[y]);
      } else {
        SelectedInOrder(i, tail, perDevice, x - 1, y - 1);
        AheadGrows(tail, [first], r[x], r[y]);
      }
    } else {
      SelectedInOrder(i, tail, perDevice, x, y);
      AheadGrows(tail, [first], r[x], r[y]);
    }
  }

  lemma {:induction false} SelectedAmong(i: Instance, commands: seq<Command>, perDevice: bool)
    ensures forall z :: 0 <= z < |Selected(i, commands, perDevice)| ==>
              Selected(i, commands, perDevice)[z] in commands && Selected(i, commands, perDevice)[z].perDevice == perDevice
  {
    if commands != [] {
      SelectedAmong(i, commands[1..], perDevice);
      assert forall c :: c in commands[1..] ==> c in commands;
    }
  }

  lemma CommandsInOrder(i: Instance, x: nat, y: nat)
    requires x < y < |Commands(i)|
    ensures RunsLater(i, Commands(i)[x], Commands(i)[y])
  {
    hide Selected;
    var a, b := Selected(i, i.commands, false), Selected(i, i.commands, true);
    SelectedAmong(i, i.commands, false);
    SelectedAmong(i, i.commands, true);
    if y < |a| {
      SelectedInOrder(i, i.commands, false, x, y);
    } else if x >= |a| {
      SelectedInOrder(i, i.commands, true, x - |a|, y - |a|);
    }
  }

  lemma CommandsHas(i: Instance, c: Command) returns (g: nat)
    requires WellFormed(i) && c in i.commands && c.name in i.options
    ensures g < |Commands(i)| && Commands(i)[g] == c
  {
    SelectedProperties(i, i.commands, false);
    SelectedProperties(i, i.commands, true);
    var a, b := Selected(i, i.commands, false), Selected(i, i.commands, true);
    if c.perDevice {
      assert c in b;
      var x :| 0 <= x < |b| && b[x] == c;
      g := |a| + x;
    } else {
      assert c in a;
      g :| 0 <= g < |a| && a[g] == c;
    }
  }

  /** An operation of an applied instance is one of its commands on one of its devices. */
  lemma AppliedOp(i: Instance, plan: seq<seq<Op>>, g: nat, m: nat) returns (d: string)
    requires WellFormed(i) && ApplyPlan(i, plan) && g < |plan| && m < |plan[g]|
    ensures g < |Commands(i)| && Addresses(i, Commands(i)[g], d, plan[g][m].address)
    ensures plan[g][m] == Operation(i, Commands(i)[g], d)
  {
    hide Commands;
    CommandsProperties(i);
    RunsHolds(i, Commands(i)[g], plan[g]);
    assert plan[g][m] in plan[g];
    d :| d in Targets(i, Commands(i)[g]) && plan[g][m] == Operation(i, Commands(i)[g], d);
  }

  lemma NoneApplied(i: Instance, plan: seq<seq<Op>>, a: Address)
    requires WellFormed(i) && ApplyPlan(i, plan) && forall c, d :: !Addresses(i, c, d, a)
    ensures NoneIn(plan, a)
  {
    hide ApplyPlan, Commands, Addresses;
    forall g, m | 0 <= g < |plan| && 0 <= m < |plan[g]| ensures plan[g][m].address != a {
      var d := AppliedOp(i, plan, g, m);
    }
  }

  /** The command's operation on the device is in its group, and no other of the group is on that knob. */
  lemma OperationAt(i: Instance, plan: seq<seq<Op>>, c: Command, d: string, a: Address, g: nat) returns (m: nat)
    requires WellFormed(i) && ApplyPlan(i, plan) && Addresses(i, c, d, a) && g < |Commands(i)| && Commands(i)[g] == c
    ensures g < |plan| && LastOn(plan[g], a, m) && plan[g][m].request == i.options[c.name]
  {
    hide Commands;
    CommandsProperties(i);
    RunsHolds(i, c, plan[g]);
    assert d in Targets(i, c) && Operation(i, c, d) in plan[g];
    m :| 0 <= m < |plan[g]| && plan[g][m] == Operation(i, c, d);
    RunsIndependent(i, c, plan[g]);
  }

  lemma LastApplied(i: Instance, plan: seq<seq<Op>>, c: Command, d: string, a: Address) returns (g: nat, m: nat)
    requires WellFormed(i) && ApplyPlan(i, plan) && Addresses(i, c, d, a)
    requires forall e, f :: Addresses(i, e, f, a) ==> !RunsLater(i, c, e)
    ensures LastIn(plan, a, g, m) && g < |plan| && m < |plan[g]| && plan[g][m].request == i.options[c.name]
  {
    hide Commands, RunsLater, ApplyPlan;
    g := CommandsHas(i, c);
    m := OperationAt(i, plan, c, d, a, g);
    forall h, n | g < h < |plan| && 0 <= n < |plan[h]| ensures plan[h][n].address != a {
      var f := AppliedOp(i, plan, h, n);
      CommandsInOrder(i, g, h);
    }
  }

  /** Main result: after starting any list of instances, a knob that several commands and instances share holds what the
      last one to run asks for: its option if that is plain. A knob that no active instance addresses is untouched. */
  lemma StartWrites(s: State, insts: seq<Instance>, applied: seq<seq<seq<Op>>>, k: nat, c: Command, d: string, a: Address)
    requires DistinctInstances(insts) && |applied| == |insts| && a in s.knobs
    requires forall h :: 0 <= h < |insts| ==> ApplyPlan(insts[h], applied[h])
    ensures var t := StartInstances(s, applied);
            && a in t.knobs
            && ((forall h, e, f :: 0 <= h < |insts| ==> !Addresses(insts[h], e, f, a)) ==> t.knobs[a] == s.knobs[a])
            && (k < |insts| && Addresses(insts[k], c, d, a) &&
                (forall h, e, f :: k < h < |insts| ==> !Addresses(insts[h], e, f, a)) &&
                (forall e, f :: Addresses(insts[k], e, f, a) ==> !RunsLater(insts[k], c, e)) ==>
                  Obeys(t, a, insts[k].options[c.name]) &&
                  (!Modifiers.HasModifier(insts[k].options[c.name]) ==> t.knobs[a] == insts[k].options[c.name]))
  {
    hide StartInstances, ApplyPlan, WellFormed, RunsLater, Addresses, NoneIn, LastIn;
    StartInstancesWrites(s, applied, a, 0, 0, 0);
    forall h | 0 <= h < |insts| && (forall e, f :: !Addresses(insts[h], e, f, a)) ensures NoneIn(applied[h], a) {
      NoneApplied(insts[h], applied[h], a);
    }
    if k < |insts| && Addresses(insts[k], c, d, a) &&
       (forall h, e, f :: k < h < |insts| ==> !Addresses(insts[h], e, f, a)) &&
       (forall e, f :: Addresses(insts[k], e, f, a) ==> !RunsLater(insts[k], c, e)) {
      var g, m := LastApplied(insts[k], applied[k], c, d, a);
      StartInstancesWrites(s, applied, a, k, g, m);
    }
  }

  // ----- The loops -----

  lemma {:induction false} StopFirst(s: State, group: seq<Op>, rest: seq<seq<Op>>)
    ensures Stop(s, [group] + rest) == UndoAll(Stop(s, rest), group)
    decreases |rest|
  {
    hide UndoAll;
    var all := [group] + rest;
    if rest == [] {
      assert all[..0] == [];
    } else {
      var m := |rest| - 1;
      assert all[|all| - 1] == rest[m] && all[..|all| - 1] == [group] + rest[..m];
      StopFirst(UndoAll(s, rest[m]), group, rest[..m]);
    }
  }

  lemma {:induction false} StopInstancesFirst(s: State, plan: seq<seq<Op>>, rest: seq<seq<seq<Op>>>)
    ensures StopInstances(s, [plan] + rest) == Stop(StopInstances(s, rest), plan)
    decreases |rest|
  {
    hide Stop;
    var all := [plan] + rest;
    if rest == [] {
      assert all[..0] == [];
    } else {
      var m := |rest| - 1;
      assert all[|all| - 1] == rest[m] && all[..|all| - 1] == [plan] + rest[..m];
      StopInstancesFirst(Stop(s, rest[m]), plan, rest[..m]);
    }
  }

  lemma {:induction false} UndoAllLast(s: State, ops: seq<Op>, op: Op)
    ensures UndoAll(s, ops + [op]) == Undo(UndoAll(s, ops), op)
    decreases |ops|
  {
    hide Undo;
    if ops == [] {
      assert (ops + [op])[1..] == [];
    } else {
      assert (ops + [op])[1..] == ops[1..] + [op];
      UndoAllLast(Undo(s, ops[0]), ops[1..], op);
    }
  }

  lemma StopNothing(s: State)
    ensures StopInstances(s, []) == s
  {
  }

  ghost predicate RunsAt(i: Instance, k: nat, ops: seq<Op>) {
    k < |Commands(i)| && Commands(i)[k].name in i.options && Runs(i, Commands(i)[k], ops)
  }

  /** `plan` runs the instance's commands from position j on. */
  ghost predicate RunsFrom(i: Instance, plan: seq<seq<Op>>, j: nat) {
    j + |plan| == |Commands(i)| && forall k :: 0 <= k < |plan| ==> RunsAt(i, j + k, plan[k])
  }

  lemma RunsFromEnd(i: Instance, s: State)
    ensures RunsFrom(i, [], |Commands(i)|) && Stop(s, []) == s
  {
  }

  lemma RunsFromNext(i: Instance, plan: seq<seq<Op>>, j: nat, ops: seq<Op>)
    requires RunsFrom(i, plan, j + 1) && RunsAt(i, j, ops)
    ensures RunsFrom(i, [ops] + plan, j)
  {
    hide RunsAt, Commands;
    var all := [ops] + plan;
    forall k | 0 <= k < |all| ensures RunsAt(i, j + k, all[k]) {
      if k > 0 {
        assert RunsAt(i, j + 1 + (k - 1), plan[k - 1]);
      }
    }
  }

  lemma RunsFromStart(i: Instance, plan: seq<seq<Op>>)
    requires WellFormed(i) && RunsFrom(i, plan, 0)
    ensures Plan(i, plan)
  {
    hide Runs, Commands;
    CommandsProperties(i);
    forall k | 0 <= k < |plan| ensures Runs(i, Commands(i)[k], plan[k]) {
      assert RunsAt(i, 0 + k, plan[k]);
    }
  }

  /** The knobs of the machine and the storage of saved values, changed command by command. */
  class Tuner {
    var knobs: map<Address, Value>
    var store: map<string, Value>

    ghost function View(): State
      reads this
    {
      State(knobs, store)
    }

    method ExecuteCommand(op: Op)
      modifies this
      ensures View() == Do(old(View()), op)
    {
      if op.address in knobs {
        var current := knobs[op.address];
        var value := PluginModel.ProcessModifiers(op.request, Some(current));
        if value.Some? {
          store := store[op.key := current];
          knobs := knobs[op.address := value.value];
        }
      }
    }

    method CleanupCommand(op: Op)
      modifies this
      ensures View() == Undo(old(View()), op)
    {
      if op.key in store && op.address in knobs {
        knobs := knobs[op.address := store[op.key]];
      }
      store := store - {op.key};
    }

    /** Run or clean one command on each of its devices, in any order. */
    method OnTargets(i: Instance, c: Command, execute: bool) returns (ghost ops: seq<Op>)
      requires c.name in i.options
      modifies this
      ensures Runs(i, c, ops)
      ensures View() == if execute then DoAll(old(View()), ops) else UndoAll(old(View()), ops)
    {
      hide Do, Undo;
      var left := Targets(i, c);
      ghost var ds: seq<string> := [];
      ops := [];
      while left != {}
        invariant left <= Targets(i, c) && Enumerates(ds, Targets(i, c) - left)
        invariant |ops| == |ds| && forall k :: 0 <= k < |ds| ==> ops[k] == Operation(i, c, ds[k])
        invariant View() == if execute then DoAll(old(View()), ops) else UndoAll(old(View()), ops)
        decreases left
      {
        var d :| d in left;
        var op := Operation(i, c, d);
        if execute {
          ExecuteCommand(op);
        } else {
          CleanupCommand(op);
        }
        assert (ops + [op])[..|ops|] == ops;
        UndoAllLast(old(View()), ops, op);
        ops := ops + [op];
        ds := ds + [d];
        left := left - {d};
      }
      assert Targets(i, c) - left == Targets(i, c);
    }

    /** `instance_apply_tuning`: the commands without a device first, then the others. */
    method ApplyInstance(i: Instance) returns (ghost plan: seq<seq<Op>>)
      requires WellFormed(i)
      modifies this
      ensures ApplyPlan(i, plan) && View() == Start(old(View()), plan)
    {
      hide DoAll, UndoAll, Runs, Commands;
      CommandsProperties(i);
      if !i.active {
        plan := SkippedPlan(i, View());
        return;
      }
      plan := [];
      var cs := Commands(i);
      for j := 0 to |cs|
        invariant |plan| == j && forall k :: 0 <= k < j ==> Runs(i, cs[k], plan[k])
        invariant View() == Start(old(View()), plan)
      {
        ghost var ops := OnTargets(i, cs[j], true);
        assert (plan + [ops])[..|plan|] == plan;
        plan := plan + [ops];
      }
    }

    /** `instance_unapply_tuning`: the same commands in reverse. An instance that is not active has no
        processed devices. */
    method UnapplyInstance(i: Instance) returns (ghost plan: seq<seq<Op>>)
      requires WellFormed(i)
      modifies this
      ensures UnapplyPlan(i, plan) && View() == Stop(old(View()), plan)
    {
      hide DoAll, UndoAll, Runs, Commands, RunsFrom, Stop;
      var o := if i.active then i else i.(devices := {});
      CommandsProperties(o);
      plan := [];
      var cs := Commands(o);
      var j := |cs|;
      RunsFromEnd(o, View());
      while j > 0
        invariant 0 <= j <= |cs| && RunsFrom(o, plan, j)
        invariant View() == Stop(old(View()), plan)
      {
        j := j - 1;
        ghost var ops := OnTargets(o, cs[j], false);
        StopFirst(old(View()), ops, plan);
        RunsFromNext(o, plan, j, ops);
        plan := [ops] + plan;
      }
      RunsFromStart(o, plan);
    }

    /** `start_tuning`. */
    method StartTuning(insts: seq<Instance>) returns (ghost plans: seq<seq<seq<Op>>>)
      requires DistinctInstances(insts)
      modifies this
      ensures |plans| == |insts| && forall k :: 0 <= k < |insts| ==> ApplyPlan(insts[k], plans[k])
      ensures View() == StartInstances(old(View()), plans)
    {
      hide Start, ApplyPlan, WellFormed;
      plans := [];
      for j := 0 to |insts|
        invariant |plans| == j && forall k :: 0 <= k < j ==> ApplyPlan(insts[k], plans[k])
        invariant View() == StartInstances(old(View()), plans)
      {
        ghost var plan := ApplyInstance(insts[j]);
        assert (plans + [plan])[..|plans|] == plans;
        plans := plans + [plan];
      }
    }

    /** `stop_tuning`. */
    method StopTuning(insts: seq<Instance>) returns (ghost plans: seq<seq<seq<Op>>>)
      requires DistinctInstances(insts)
      modifies this
      ensures |plans| == |insts| && forall k :: 0 <= k < |insts| ==> UnapplyPlan(insts[k], plans[k])
      ensures View() == StopInstances(old(View()), plans)
    {
      hide Stop, StopInstances, UnapplyPlan, WellFormed;
      StopNothing(View());
      plans := [];
      var j := |insts|;
      while j > 0
        invariant 0 <= j <= |insts| && |plans| == |insts| - j
        invariant forall k :: 0 <= k < |plans| ==> UnapplyPlan(insts[j + k], plans[k])
        invariant View() == StopInstances(old(View()), plans)
      {
        j := j - 1;
        ghost var plan := UnapplyInstance(insts[j]);
        StopInstancesFirst(old(View()), plan, plans);
        plans := [plan] + plans;
      }
    }
  }

  ghost function SkippedPlan(i: Instance, s: State): (plan: seq<seq<Op>>)
    ensures |plan| == |Commands(i)| && forall j :: 0 <= j < |plan| ==> plan[j] == []
    ensures Start(s, plan) == s
  {
    Skipped(|Commands(i)|, s)
  }

  ghost function Skipped(n: nat, s: State): (plan: seq<seq<Op>>)
    ensures |plan| == n && forall j :: 0 <= j < |plan| ==> plan[j] == []
    ensures Start(s, plan) == s
  {
    if n == 0 then [] else
      var rest := Skipped(n - 1, s);
      assert (rest + [[]])[..n - 1] == rest;
      rest + [[]]
  }
}
