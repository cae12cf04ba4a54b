/** Values and specification functions for one device plugin: the free pool, the prioritised
    instances, the tuned knobs and the storage of saved values
    (tuned/plugins/base.py, tuned/plugins/hotplug.py).

    A knob is addressed by a device and a per-device command, so knobs are independent. `knobs` holds
    the readable ones; writing a knob that cannot be read is not modelled. */
module PluginModel {
  import opened Text

  type Device(==, !new)
  type Command(==, !new)
  type Value = string
  type Name(==, !new)

  datatype Knob = Knob(device: Device, command: Command)

  /** A storage key: the saved value of one knob on behalf of one instance. */
  datatype Key = Key(instance: Name, knob: Knob)

  type Knobs = map<Knob, Value>
  type Store = map<Key, Value>

  /** The fixed part of a plugin: its per-device commands in priority order, and the device matcher
      applied to an instance's device expression. */
  datatype Config = Config(commands: seq<Command>, matches: (string, Device) -> bool)

  /** `pending` are the instance's assigned devices it has not tuned yet, `processed` the tuned ones. */
  datatype Instance = Instance(
    priority: int,
    expression: string,
    options: map<Command, Value>,
    active: bool,
    pending: set<Device>,
    processed: set<Device>)

  /** `claimed` is the plugin's set of assigned devices. */
  datatype Plugin = Plugin(
    free: set<Device>,
    claimed: set<Device>,
    order: seq<Name>,
    inst: map<Name, Instance>,
    knobs: Knobs,
    store: Store)

  // ----- Assignment modifiers -----

  /** The value to write for a requested option value, `None` when nothing is to be written:
      `>v` only raises, `<v` only lowers, and an uncomparable pair is written as requested. */
  function ProcessModifiers(request: Value, current: Option<Value>): Option<Value> {
    if |request| <= 1 then Some(request)
    else
      var op, val := request[0], request[1..];
      if op != '<' && op != '>' then Some(request)
      else if current.None? then Some(val)
      else
        match (ParseInt(val, 10), ParseInt(current.value, 10))
        case (Some(v), Some(c)) => if (if op == '>' then v > c else v < c) then Some(val) else None
        case (_, _) => Some(request)
  }

  // ----- Tuning one knob -----

  predicate Saves(options: map<Command, Value>, c: Command, v: Value) {
    c in options && ProcessModifiers(options[c], Some(v)).Some?
  }

  function Written(options: map<Command, Value>, c: Command, v: Value): Value {
    if Saves(options, c, v) then ProcessModifiers(options[c], Some(v)).value else v
  }

  function CommandSet(cfg: Config): set<Command> {
    set c | c in cfg.commands
  }

  // ----- Executing and cleaning up the commands C on the devices D, in any order -----

  predicate Covers(k: Knob, D: set<Device>, C: set<Command>) {
    k.device in D && k.command in C
  }

  ghost function TuneKnobs(knobs: Knobs, options: map<Command, Value>, D: set<Device>, C: set<Command>): Knobs {
    map k | k in knobs :: if Covers(k, D, C) then Written(options, k.command, knobs[k]) else knobs[k]
  }

  ghost predicate SavedBy(key: Key, knobs: Knobs, n: Name, options: map<Command, Value>, D: set<Device>, C: set<Command>) {
    key.instance == n && key.knob in knobs && Covers(key.knob, D, C) &&
    Saves(options, key.knob.command, knobs[key.knob])
  }

  ghost function TuneStore(store: Store, knobs: Knobs, n: Name, options: map<Command, Value>, D: set<Device>, C: set<Command>): Store {
    map key | key in store.Keys + (set k | k in knobs :: Key(n, k)) &&
              (key in store || SavedBy(key, knobs, n, options, D, C)) ::
      if SavedBy(key, knobs, n, options, D, C) then knobs[key.knob] else store[key]
  }

  ghost predicate Cleaned(key: Key, n: Name, options: map<Command, Value>, D: set<Device>, C: set<Command>) {
    key.instance == n && Covers(key.knob, D, C) && key.knob.command in options
  }

  ghost function UntuneKnobs(knobs: Knobs, store: Store, n: Name, options: map<Command, Value>, D: set<Device>, C: set<Command>): Knobs {
    map k | k in knobs ::
      if Cleaned(Key(n, k), n, options, D, C) && Key(n, k) in store then store[Key(n, k)] else knobs[k]
  }

  ghost function UntuneStore(store: Store, n: Name, options: map<Command, Value>, D: set<Device>, C: set<Command>): Store {
    map key | key in store && !Cleaned(key, n, options, D, C) :: store[key]
  }

  ghost function Tune(cfg: Config, s: Plugin, n: Name, D: set<Device>): Plugin
    requires n in s.inst
  {
    s.(knobs := TuneKnobs(s.knobs, s.inst[n].options, D, CommandSet(cfg)),
       store := TuneStore(s.store, s.knobs, n, s.inst[n].options, D, CommandSet(cfg)))
  }

  ghost function Untune(cfg: Config, s: Plugin, n: Name, D: set<Device>): Plugin
    requires n in s.inst
  {
    s.(knobs := UntuneKnobs(s.knobs, s.store, n, s.inst[n].options, D, CommandSet(cfg)),
       store := UntuneStore(s.store, n, s.inst[n].options, D, CommandSet(cfg)))
  }

  // ----- Moving devices -----

  predicate HasDevices(i: Instance) {
    i.processed + i.pending != {}
  }

  /** `_add_device_process` for every device of D. */
  ghost function AddDevices(cfg: Config, s: Plugin, n: Name, D: set<Device>): Plugin
    requires n in s.inst
  {
    var i := s.inst[n];
    Tune(cfg, s, n, D).(claimed := s.claimed + D, inst := s.inst[n := i.(processed := i.processed + D)])
  }

  /** `_add_devices_nocheck`. */
  ghost function AddDevicesNocheck(cfg: Config, s: Plugin, n: Name, D: set<Device>): Plugin
    requires n in s.inst
  {
    var t := AddDevices(cfg, s, n, D);
    t.(inst := t.inst[n := t.inst[n].(active := HasDevices(t.inst[n]))])
  }

  /** `_remove_devices_nocheck`: the devices of D the instance has processed leave it. */
  ghost function RemoveDevices(cfg: Config, s: Plugin, n: Name, D: set<Device>): Plugin
    requires n in s.inst
  {
    var i := s.inst[n];
    var E := D * i.processed;
    var j := i.(processed := i.processed - E);
    if E == {} then s
    else Untune(cfg, s, n, E).(claimed := s.claimed - E, inst := s.inst[n := j.(active := HasDevices(j))])
  }

  /** Hand the devices of D from instance `a` to instance `b`. */
  ghost function Move(cfg: Config, s: Plugin, a: Name, b: Name, D: set<Device>): Plugin
    requires a in s.inst && b in s.inst
  {
    AddDevicesNocheck(cfg, RemoveDevices(cfg, s, a, D), b, D)
  }

  /** The first instance in `order` whose expression matches the device. */
  ghost function FirstMatch(cfg: Config, s: Plugin, order: seq<Name>, d: Device): Option<Name>
    requires forall n :: n in order ==> n in s.inst
  {
    if order == [] then None
    else if cfg.matches(s.inst[order[0]].expression, d) then Some(order[0])
    else FirstMatch(cfg, s, order[1..], d)
  }

  /** The first instance in `order` that has processed the device. */
  ghost function FirstOwner(s: Plugin, order: seq<Name>, d: Device): Option<Name>
    requires forall n :: n in order ==> n in s.inst
  {
    if order == [] then None
    else if d in s.inst[order[0]].processed then Some(order[0])
    else FirstOwner(s, order[1..], d)
  }

  ghost predicate OrderListed(s: Plugin) {
    forall n :: n in s.order ==> n in s.inst
  }

  /** `_add_device`. */
  ghost function AddDevice(cfg: Config, s: Plugin, d: Device): Plugin
    requires OrderListed(s)
  {
    if d in s.claimed + s.free then s
    else
      match FirstMatch(cfg, s, s.order, d)
      case Some(n) => FirstMatchListed(cfg, s, s.order, d); AddDevices(cfg, s, n, {d})
      case None => s.(free := s.free + {d})
  }

  /** `_remove_device`. */
  ghost function RemoveDevice(cfg: Config, s: Plugin, d: Device): Plugin
    requires OrderListed(s)
  {
    if d !in s.claimed + s.free then s
    else
      match FirstOwner(s, s.order, d)
      case Some(n) => FirstOwnerListed(s, s.order, d); RemoveDevices(cfg, s, n, {d})
      case None => s.(free := s.free - {d})
  }

  lemma FirstMatchListed(cfg: Config, s: Plugin, order: seq<Name>, d: Device)
    requires forall n :: n in order ==> n in s.inst
    ensures var r := FirstMatch(cfg, s, order, d);
            r.Some? ==> r.value in order && cfg.matches(s.inst[r.value].expression, d)
    ensures FirstMatch(cfg, s, order, d).None? ==> forall n :: n in order ==> !cfg.matches(s.inst[n].expression, d)
  {
  }

  lemma FirstOwnerListed(s: Plugin, order: seq<Name>, d: Device)
    requires forall n :: n in order ==> n in s.inst
    ensures var r := FirstOwner(s, order, d); r.Some? ==> r.value in order && d in s.inst[r.value].processed
    ensures FirstOwner(s, order, d).None? ==> forall n :: n in order ==> d !in s.inst[n].processed
  {
  }

  /** `_get_matching_devices`. */
  function Matching(cfg: Config, i: Instance, D: set<Device>): set<Device> {
    set d | d in D && cfg.matches(i.expression, d)
  }

  /** `assign_free_devices`. */
  ghost function AssignFree(cfg: Config, s: Plugin, n: Name): Plugin
    requires n in s.inst
  {
    var i := s.inst[n];
    var D := Matching(cfg, i, s.free);
    s.(inst := s.inst[n := i.(active := D != {}, pending := i.pending + D)],
       claimed := s.claimed + D,
       free := s.free - D)
  }

  /** `release_devices`. */
  ghost function Release(s: Plugin, n: Name): Plugin
    requires n in s.inst
  {
    var i := s.inst[n];
    var D := (i.processed + i.pending) * s.claimed;
    s.(inst := s.inst[n := i.(active := false, processed := {}, pending := {})],
       claimed := s.claimed - D,
       free := s.free + D)
  }

  /** `instance_apply_tuning` of an instance with static tuning. */
  ghost function ApplyTuning(cfg: Config, s: Plugin, n: Name): Plugin
    requires n in s.inst
  {
    var i := s.inst[n];
    if !i.active then s
    else Tune(cfg, s, n, i.pending).(inst := s.inst[n := i.(processed := i.processed + i.pending, pending := {})])
  }

  /** `instance_unapply_tuning` with a rollback other than none. */
  ghost function UnapplyTuning(cfg: Config, s: Plugin, n: Name): Plugin
    requires n in s.inst
  {
    Untune(cfg, s, n, s.inst[n].processed)
  }

  // ----- Creating and destroying instances -----

  /** The stable sort by priority of a sorted order with one new instance at its end. */
  ghost function InsertByPriority(s: Plugin, order: seq<Name>, n: Name, priority: int): seq<Name>
    requires forall m :: m in order ==> m in s.inst
  {
    if order == [] then [n]
    else if s.inst[order[0]].priority <= priority then
      [order[0]] + InsertByPriority(s, order[1..], n, priority)
    else [n] + order
  }

  /** `create_instance` of a name not yet in use. */
  ghost function CreateInstance(s: Plugin, n: Name, priority: int, expression: string, options: map<Command, Value>): Plugin
    requires OrderListed(s)
  {
    s.(inst := s.inst[n := Instance(priority, expression, options, true, {}, {})],
       order := InsertByPriority(s, s.order, n, priority))
  }

  function Without(order: seq<Name>, n: Name): (r: seq<Name>)
  {
    if order == [] then []
    else if order[0] == n then order[1..]
    else [order[0]] + Without(order[1..], n)
  }

  /** `destroy_instance`. */
  ghost function DestroyInstance(s: Plugin, n: Name): Plugin
    requires n in s.inst
  {
    var t := Release(s, n);
    t.(inst := t.inst - {n}, order := Without(t.order, n))
  }
}
