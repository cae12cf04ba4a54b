/** The scheduler plugin: tuning of processes, the saved originals, and their restoration
    (tuned/plugins/plugin_scheduler.py), without cgroup affinities. */
module Scheduler {
  import opened Text
  import opened CpuMask

  type Pid = int
  type Cmdline(==, !new)

  datatype Rt = Rt(policy: int, priority: int)

  /** A living process; `id` tells apart processes that have the same PID one after the other. The affinity is
      listed in increasing order. */
  datatype Proc = Proc(id: nat, cmdline: Cmdline, kthread: bool, rt: Rt, affinity: seq<nat>)

  /** `SchedulerParams`: the affinity is kept as a bit mask. */
  datatype Params = Params(cmdline: Option<Cmdline>, rt: Option<Rt>, affinity: Option<nat>)

  datatype State = State(procs: map<Pid, Proc>, originals: map<Pid, Params>)

  /** A policy of `None` keeps the one the process has. */
  datatype RtRequest = RtRequest(policy: Option<int>, priority: int)

  /** What a group option asks for. */
  datatype Rule = Rule(rt: Option<RtRequest>, affinity: Option<seq<nat>>)

  /** Whether a value can be read, and whether the kernel accepts the new one. */
  datatype Access = Access(readable: bool, accepted: bool)

  // ----- Tuning one process -----

  function Entry(s: State, pid: Pid): Params {
    if pid in s.originals then s.originals[pid] else Params(None, None, None)
  }

  /** What the kernel lists after it was given some CPUs. */
  function Listed(cpus: seq<nat>): seq<nat> {
    MaskToList(ListToMask(cpus))
  }

  function NewRt(p: Proc, r: RtRequest): Rt {
    Rt(if r.policy.Some? then r.policy.value else p.rt.policy, r.priority)
  }

  /** Only the first values are kept. */
  function SaveRt(e: Params, rt: Rt): Params {
    if e.rt.None? then e.(rt := Some(rt)) else e
  }

  function SaveAffinity(e: Params, cpus: seq<nat>): Params {
    if e.affinity.None? then e.(affinity := Some(ListToMask(cpus))) else e
  }

  /** A process that has vanished is dropped from the originals; one that cannot be read is not touched. */
  function TuneRt(s: State, pid: Pid, r: RtRequest, a: Access): State {
    if pid !in s.procs then s.(originals := s.originals - {pid})
    else if !a.readable then s
    else
      var p := s.procs[pid];
      State(if a.accepted then s.procs[pid := p.(rt := NewRt(p, r))] else s.procs,
            s.originals[pid := SaveRt(Entry(s, pid), p.rt)])
  }

  function TuneAffinity(s: State, pid: Pid, cpus: seq<nat>, a: Access): State {
    if pid !in s.procs then s.(originals := s.originals - {pid})
    else if !a.readable then s
    else
      var p := s.procs[pid];
      State(if a.accepted then s.procs[pid := p.(affinity := Listed(cpus))] else s.procs,
            s.originals[pid := SaveAffinity(Entry(s, pid), p.affinity)])
  }

  function Mark(s: State, pid: Pid, cmd: Cmdline): State {
    if pid in s.originals then s.(originals := s.originals[pid := s.originals[pid].(cmdline := Some(cmd))]) else s
  }

  /** `_tune_process` */
  function TunedProcess(s: State, pid: Pid, cmd: Cmdline, rule: Rule, rt: Access, affinity: Access): State {
    var s1 := if rule.rt.None? then s else TuneRt(s, pid, rule.rt.value, rt);
    if rule.rt.Some? && pid !in s.procs then s1
    else
      var s2 := if rule.affinity.None? then s1 else TuneAffinity(s1, pid, rule.affinity.value, affinity);
      if rule.affinity.Some? && pid !in s.procs then s2 else Mark(s2, pid, cmd)
  }

  /** The process still has the command line it was tuned with. */
  predicate Recognised(s: State, pid: Pid) {
    pid in s.procs && pid in s.originals && s.originals[pid].cmdline == Some(s.procs[pid].cmdline)
  }

  /** Tuning a process sets what the rule asks for, where the process can be read and the kernel accepts it: the
      policy, if one is given, with the priority, and exactly the CPUs of the affinity. It touches no other process, and
      the process is recognised from then on. */
  lemma TuningSets(s: State, pid: Pid, rule: Rule, rt: Access, affinity: Access)
    requires pid in s.procs
    ensures var p := s.procs[pid];
            var t := TunedProcess(s, pid, p.cmdline, rule, rt, affinity);
            && t.procs.Keys == s.procs.Keys && (forall q :: q in s.procs && q != pid ==> t.procs[q] == s.procs[q])
            && (forall q :: q != pid ==> (q in t.originals <==> q in s.originals) && (q in s.originals ==> t.originals[q] == s.originals[q]))
            && var q := t.procs[pid];
               && q.id == p.id && q.cmdline == p.cmdline && q.kthread == p.kthread
               && (if rule.rt.Some? && rt.readable && rt.accepted
                   then q.rt.priority == rule.rt.value.priority &&
                        q.rt.policy == (match rule.rt.value.policy case Some(x) => x case None => p.rt.policy)
                   else q.rt == p.rt)
               && (if rule.affinity.Some? && affinity.readable && affinity.accepted
                   then Increasing(q.affinity) && forall x :: x in q.affinity <==> x in rule.affinity.value
                   else q.affinity == p.affinity)
               && (Recognised(t, pid) <==>
                   pid in s.originals || (rule.rt.Some? && rt.readable) || (rule.affinity.Some? && affinity.readable))
  {
    hide ListToMask, MaskToList, Increasing;
    if rule.affinity.Some? { ListMaskList(rule.affinity.value); }
  }

  /** The first values seen are saved, and later ones do not replace them. */
  lemma TuningSaves(s: State, pid: Pid, rule: Rule, rt: Access, affinity: Access)
    requires pid in s.procs
    ensures var p, e := s.procs[pid], Entry(s, pid);
            var f := Entry(TunedProcess(s, pid, p.cmdline, rule, rt, affinity), pid);
            && f.rt == (if e.rt.Some? then e.rt else if rule.rt.Some? && rt.readable then Some(p.rt) else None)
            && (f.affinity.Some? <==> e.affinity.Some? || (rule.affinity.Some? && affinity.readable))
            && (e.affinity.Some? ==> f.affinity == e.affinity)
            && (e.affinity.None? && f.affinity.Some? ==> forall x :: Bit(f.affinity.value, x) <==> x in p.affinity)
  {
    hide ListToMask, MaskToList;
    forall x ensures Bit(ListToMask(s.procs[pid].affinity), x) <==> x in s.procs[pid].affinity {
      ListToMaskSpec(s.procs[pid].affinity, x);
    }
  }

  // ----- Restoring -----

  function Back(p: Proc, e: Params): Proc {
    p.(rt := if e.rt.Some? then e.rt.value else p.rt,
       affinity := if e.affinity.Some? then Listed(MaskToList(e.affinity.value)) else p.affinity)
  }

  /** `_restore_ps_affinity`, when the processes can be listed; the kernel refuses changes of some processes. */
  function Restore(s: State, refused: set<Pid>): State {
    State(map pid | pid in s.procs ::
            if Recognised(s, pid) && pid !in refused then Back(s.procs[pid], s.originals[pid]) else s.procs[pid],
          map[])
  }

  // ----- Runs -----

  /** What happens: processes come, go, change their command line or are changed from outside, in any
      interleaving with the halves of TuneD's tuning, the exit notices it gets, and restorations. */
  datatype Event =
    | Spawn(pid: Pid, cmdline: Cmdline, kthread: bool, rt: Rt, cpus: seq<nat>)
    | Exit(pid: Pid)
    | Exec(pid: Pid, cmdline: Cmdline)
    | Change(pid: Pid, rt: Rt, cpus: seq<nat>)
    | RtTuning(pid: Pid, rtRequest: RtRequest, access: Access)
    | AffinityTuning(pid: Pid, cpus: seq<nat>, access: Access)
    | Marking(pid: Pid, cmdline: Cmdline)
    | Notice(pid: Pid)
    | Restoring(refused: set<Pid>)

  /** The values that each process had before its first tuning since the last restoration, and the next id. */
  datatype History = History(rt: map<nat, Rt>, affinity: map<nat, seq<nat>>, next: nat)

  function Step(s: State, h: History, e: Event): State {
    match e
    case Spawn(pid, cmdline, kthread, rt, cpus) =>
      if pid in s.procs then s else s.(procs := s.procs[pid := Proc(h.next, cmdline, kthread, rt, Listed(cpus))])
    case Exit(pid) => s.(procs := s.procs - {pid})
    case Exec(pid, cmdline) => if pid in s.procs then s.(procs := s.procs[pid := s.procs[pid].(cmdline := cmdline)]) else s
    case Change(pid, rt, cpus) =>
      if pid in s.procs then s.(procs := s.procs[pid := s.procs[pid].(rt := rt, affinity := Listed(cpus))]) else s
    case RtTuning(pid, r, a) => TuneRt(s, pid, r, a)
    case AffinityTuning(pid, cpus, a) => TuneAffinity(s, pid, cpus, a)
    case Marking(pid, cmdline) => Mark(s, pid, cmdline)
    case Notice(pid) => s.(originals := s.originals - {pid})
    case Restoring(refused) => Restore(s, refused)
  }

  function First<V>(m: map<nat, V>, id: nat, v: V): map<nat, V> {
    if id in m then m else m[id := v]
  }

  function StepHistory(s: State, h: History, e: Event): History {
    match e
    case Spawn(pid, _, _, _, _) => if pid in s.procs then h else h.(next := h.next + 1)
    case RtTuning(pid, _, a) =>
      if pid in s.procs && a.readable then h.(rt := First(h.rt, s.procs[pid].id, s.procs[pid].rt)) else h
    case AffinityTuning(pid, _, a) =>
      if pid in s.procs && a.readable then h.(affinity := First(h.affinity, s.procs[pid].id, s.procs[pid].affinity)) else h
    case Restoring(_) => h.(rt := map[], affinity := map[])
    case _ => h
  }

  ghost predicate NothingSaved(s: State, pid: Pid) {
    Entry(s, pid).rt.None? && Entry(s, pid).affinity.None?
  }

  /** A new process does not get the PID of a tuned one whose exit was not noticed, and no notice for a tuned
      process comes while it, or another one with its PID, is alive. */
  ghost predicate Timely(s: State, e: Event) {
    && (e.Spawn? ==> e.pid in s.procs || NothingSaved(s, e.pid))
    && (e.Notice? ==> e.pid !in s.procs || NothingSaved(s, e.pid))
  }

  datatype Configuration = Configuration(s: State, h: History)

  ghost predicate IsRun(cs: seq<Configuration>, es: seq<Event>) {
    && |cs| == |es| + 1
    && forall i :: 0 <= i < |es| ==>
         cs[i + 1] == Configuration(Step(cs[i].s, cs[i].h, es[i]), StepHistory(cs[i].s, cs[i].h, es[i]))
  }

  /** No process has been tuned, and affinities are listed in increasing order. */
  ghost predicate Untuned(c: Configuration) {
    && c.s.originals == map[] && c.h.rt == map[] && c.h.affinity == map[]
    && Living(c.s, c.h)
  }

  // ----- The invariant -----

  ghost predicate Living(s: State, h: History) {
    && (forall p :: p in s.procs ==> s.procs[p].id < h.next && Increasing(s.procs[p].affinity))
    && (forall p, q :: p in s.procs && q in s.procs && s.procs[p].id == s.procs[q].id ==> p == q)
    && (forall id :: id in h.rt || id in h.affinity ==> id < h.next)
  }

  /** The originals of a living process are the values before its first tuning, and it has them exactly if it
      was tuned. */
  ghost predicate Kept(p: Proc, e: Params, h: History) {
    && e.rt == (if p.id in h.rt then Some(h.rt[p.id]) else None)
    && e.affinity == (if p.id in h.affinity then Some(ListToMask(h.affinity[p.id])) else None)
    && (p.id in h.affinity ==> Increasing(h.affinity[p.id]))
  }

  ghost predicate Faithful(s: State, h: History) {
    forall p :: p in s.procs ==> Kept(s.procs[p], Entry(s, p), h)
  }

  ghost predicate Inv(s: State, h: History) {
    Living(s, h) && Faithful(s, h)
  }

  lemma ListedIncreasing(cpus: seq<nat>)
    ensures Increasing(Listed(cpus))
  {
    ListMaskList(cpus);
  }

  lemma RtTuningInv(s: State, h: History, pid: Pid, r: RtRequest, a: Access)
    requires Inv(s, h)
    ensures var e := RtTuning(pid, r, a); Inv(TuneRt(s, pid, r, a), StepHistory(s, h, e))
  {
    hide Increasing, ListToMask;
  }

  lemma AffinityTuningInv(s: State, h: History, pid: Pid, cpus: seq<nat>, a: Access)
    requires Inv(s, h)
    ensures var e := AffinityTuning(pid, cpus, a); Inv(TuneAffinity(s, pid, cpus, a), StepHistory(s, h, e))
  {
    hide Increasing, ListToMask, Listed;
    ListedIncreasing(cpus);
  }

  lemma SpawnInv(s: State, h: History, e: Event)
    requires Inv(s, h) && e.Spawn?
    ensures Inv(Step(s, h, e), StepHistory(s, h, e)) <==> Timely(s, e)
  {
    hide Increasing, ListToMask, Listed;
    ListedIncreasing(e.cpus);
    var t := Step(s, h, e);
    if e.pid !in s.procs {
      assert t.procs[e.pid].id == h.next && Entry(t, e.pid) == Entry(s, e.pid);
      assert Kept(t.procs[e.pid], Entry(t, e.pid), StepHistory(s, h, e)) <==> NothingSaved(s, e.pid);
    }
  }

  lemma NoticeInv(s: State, h: History, e: Event)
    requires Inv(s, h) && e.Notice?
    ensures Inv(Step(s, h, e), StepHistory(s, h, e)) <==> Timely(s, e)
  {
    hide Increasing, ListToMask, Listed, Living;
    var t := Step(s, h, e);
    NoticeLiving(s, h, e.pid);
    if e.pid in s.procs {
      assert Kept(s.procs[e.pid], Entry(s, e.pid), h);
      assert Kept(t.procs[e.pid], Entry(t, e.pid), h) <==> NothingSaved(s, e.pid);
    }
    forall p | p in s.procs && p != e.pid ensures Entry(t, p) == Entry(s, p) {
    }
  }

  lemma NoticeLiving(s: State, h: History, pid: Pid)
    ensures Living(s.(originals := s.originals - {pid}), h) <==> Living(s, h)
  {
  }

  lemma ChangeInv(s: State, h: History, e: Event)
    requires Inv(s, h) && (e.Exit? || e.Exec? || e.Change? || e.Marking?)
    ensures Inv(Step(s, h, e), StepHistory(s, h, e))
  {
    hide Increasing, ListToMask, Listed;
    if e.Change? { ListedIncreasing(e.cpus); }
  }

  lemma BackIncreasing(p: Proc, e: Params)
    requires Increasing(p.affinity)
    ensures Increasing(Back(p, e).affinity) && Back(p, e).id == p.id
  {
    hide Increasing, Listed;
    if e.affinity.Some? { ListedIncreasing(MaskToList(e.affinity.value)); }
  }

  lemma RestoreInv(s: State, h: History, refused: set<Pid>)
    requires Inv(s, h)
    ensures Inv(Restore(s, refused), StepHistory(s, h, Restoring(refused)))
  {
    hide Increasing, Back, ListToMask;
    forall p | p in s.procs ensures Increasing(Restore(s, refused).procs[p].affinity) && Restore(s, refused).procs[p].id == s.procs[p].id {
      if p in s.originals { BackIncreasing(s.procs[p], s.originals[p]); }
    }
  }

  /** Every event keeps that exactly when it is timely. */
  lemma StepInv(s: State, h: History, e: Event)
    requires Inv(s, h)
    ensures Inv(Step(s, h, e), StepHistory(s, h, e)) <==> Timely(s, e)
  {
    hide Inv, TuneRt, TuneAffinity, Restore, Mark, StepHistory, NothingSaved;
    match e
    case RtTuning(pid, r, a) => RtTuningInv(s, h, pid, r, a);
    case AffinityTuning(pid, cpus, a) => AffinityTuningInv(s, h, pid, cpus, a);
    case Spawn(_, _, _, _, _) => SpawnInv(s, h, e);
    case Notice(_) => NoticeInv(s, h, e);
    case Restoring(refused) => RestoreInv(s, h, refused);
    case _ => ChangeInv(s, h, e);
  }

  /** As long as the events are timely, the originals of each living process are its values from before its first
      tuning. */
  lemma {:induction false} RunInv(cs: seq<Configuration>, es: seq<Event>, i: nat)
    requires IsRun(cs, es) && i <= |es| && Untuned(cs[0])
    requires forall j :: 0 <= j < i ==> Timely(cs[j].s, es[j])
    ensures Inv(cs[i].s, cs[i].h)
  {
    hide Living, Kept, Step, StepHistory, Timely;
    if i == 0 {
      UntunedInv(cs[0]);
    } else {
      RunInv(cs, es, i - 1);
      StepInv(cs[i - 1].s, cs[i - 1].h, es[i - 1]);
    }
  }

  /** Over any run, that holds in every configuration exactly when every event is timely. */
  lemma RunInvIff(cs: seq<Configuration>, es: seq<Event>)
    requires IsRun(cs, es) && Untuned(cs[0])
    ensures (forall i :: 0 <= i <= |es| ==> Inv(cs[i].s, cs[i].h)) <==> (forall i :: 0 <= i < |es| ==> Timely(cs[i].s, es[i]))
  {
    hide Inv, Step, StepHistory, Timely, Untuned;
    if forall i :: 0 <= i <= |es| ==> Inv(cs[i].s, cs[i].h) {
      forall i | 0 <= i < |es| ensures Timely(cs[i].s, es[i]) {
        assert Inv(cs[i].s, cs[i].h) && Inv(cs[i + 1].s, cs[i + 1].h);
        StepInv(cs[i].s, cs[i].h, es[i]);
      }
    }
    if forall i :: 0 <= i < |es| ==> Timely(cs[i].s, es[i]) {
      forall i | 0 <= i <= |es| ensures Inv(cs[i].s, cs[i].h) { RunInv(cs, es, i); }
    }
  }

  lemma UntunedInv(c: Configuration)
    requires Untuned(c)
    ensures Inv(c.s, c.h)
  {
    hide Living;
  }

  /** The process with the values it had before it was tuned. */
  ghost function Original(p: Proc, h: History): Proc {
    p.(rt := if p.id in h.rt then h.rt[p.id] else p.rt,
       affinity := if p.id in h.affinity then h.affinity[p.id] else p.affinity)
  }

  /** Through the bit mask and back. */
  lemma BackIsOriginal(p: Proc, e: Params, h: History)
    requires Kept(p, e, h)
    ensures Back(p, e) == Original(p, h)
  {
    if p.id in h.affinity {
      var cpus := h.affinity[p.id];
      ListMaskList(cpus);
      assert MaskToList(ListToMask(cpus)) == cpus;
    }
  }

  /** Main result: after any run of timely events, a restoration gives every living process that is still recognised exactly the
      policy, priority and affinity from before its first tuning, and touches no other process. */
  lemma RunThenRestore(cs: seq<Configuration>, es: seq<Event>, refused: set<Pid>)
    requires IsRun(cs, es) && Untuned(cs[0]) && forall i :: 0 <= i < |es| ==> Timely(cs[i].s, es[i])
    ensures var c := cs[|es|];
            var r := Restore(c.s, refused);
            && r.procs.Keys == c.s.procs.Keys && r.originals == map[]
            && forall pid :: pid in c.s.procs ==>
                 r.procs[pid] == if Recognised(c.s, pid) && pid !in refused then Original(c.s.procs[pid], c.h)
                                 else c.s.procs[pid]
  {
    hide Living, Kept, Back, Untuned, Step, StepHistory, Timely;
    RunInv(cs, es, |es|);
    var c := cs[|es|];
    forall pid | pid in c.s.procs && pid in c.s.originals
      ensures Back(c.s.procs[pid], c.s.originals[pid]) == Original(c.s.procs[pid], c.h)
    {
      BackIsOriginal(c.s.procs[pid], Entry(c.s, pid), c.h);
    }
  }

  // ----- When a PID is used again -----

  /** In any state: tuning a process and restoring it gives its policy and priority back exactly when no other
      values were left under its PID. */
  lemma RestoresRtIff(s: State, pid: Pid, r: RtRequest)
    requires pid in s.procs
    ensures var p := s.procs[pid];
            var t := Mark(TuneRt(s, pid, r, Access(true, true)), pid, p.cmdline);
            Restore(t, {}).procs[pid].rt == p.rt <==> Entry(s, pid).rt == None || Entry(s, pid).rt == Some(p.rt)
  {
  }

  lemma RestoresAffinityIff(s: State, pid: Pid, cpus: seq<nat>)
    requires pid in s.procs && Increasing(s.procs[pid].affinity)
    ensures var p := s.procs[pid];
            var t := Mark(TuneAffinity(s, pid, cpus, Access(true, true)), pid, p.cmdline);
            Restore(t, {}).procs[pid].affinity == p.affinity <==>
            Entry(s, pid).affinity == None || Entry(s, pid).affinity == Some(ListToMask(p.affinity))
  {
    hide ListToMask;
    var p := s.procs[pid];
    var e := Entry(s, pid);
    ListMaskList(p.affinity);
    if e.affinity.Some? {
      var m := e.affinity.value;
      MaskListMask(m);
      assert Listed(MaskToList(m)) == MaskToList(m);
    }
    assert Listed(MaskToList(ListToMask(p.affinity))) == p.affinity by { MaskListMask(ListToMask(p.affinity)); }
  }

  /** A process whose policy and priority were tuned from 0, 0 to 1, 5. */
  ghost function Example(pid: Pid, cmd: Cmdline): State {
    var s := State(map[pid := Proc(0, cmd, false, Rt(0, 0), [])], map[]);
    Mark(TuneRt(s, pid, RtRequest(Some(1), 5), Access(true, true)), pid, cmd)
  }

  /** It exits unnoticed, and its PID and command line are used again: its values are written to the new
      process. */
  lemma ReusedPid(pid: Pid, cmd: Cmdline, h: History)
    ensures var s := Step(Example(pid, cmd), h, Exit(pid));
            var e := Spawn(pid, cmd, false, Rt(2, 9), []);
            var t := Step(s, h, e);
            !Timely(s, e) && t.procs[pid].rt == Rt(2, 9) && Restore(t, {}).procs[pid].rt == Rt(0, 0)
  {
  }

  /** A late exit notice drops its originals while it is alive: it keeps the tuned values, and when it is tuned
      again these are taken for the originals. */
  lemma LateNotice(pid: Pid, cmd: Cmdline, h: History)
    ensures var s := Example(pid, cmd);
            var t := Step(s, h, Notice(pid));
            var u := Mark(TuneRt(t, pid, RtRequest(Some(1), 7), Access(true, true)), pid, cmd);
            && !Timely(s, Notice(pid))
            && Restore(s, {}).procs[pid].rt == Rt(0, 0)
            && Restore(t, {}).procs[pid].rt == Rt(1, 5) && Restore(u, {}).procs[pid].rt == Rt(1, 5)
  {
  }

  function After(c: Configuration, es: seq<Event>): Configuration
    decreases |es|
  {
    if es == [] then c
    else After(Configuration(Step(c.s, c.h, es[0]), StepHistory(c.s, c.h, es[0])), es[1..])
  }

  lemma AfterOne(c: Configuration, e: Event, es: seq<Event>)
    ensures After(c, [e] + es) == After(Configuration(Step(c.s, c.h, e), StepHistory(c.s, c.h, e)), es)
    ensures After(c, []) == c
  {
    assert ([e] + es)[1..] == es;
  }

  /** `_tune_process` is made of the events of the runs, none of them untimely. */
  lemma TuningIsEvents(c: Configuration, pid: Pid, cmd: Cmdline, rule: Rule, rt: Access, affinity: Access) returns (es: seq<Event>)
    ensures After(c, es).s == TunedProcess(c.s, pid, cmd, rule, rt, affinity)
    ensures forall e :: e in es ==> e.RtTuning? || e.AffinityTuning? || e.Marking?
  {
    hide TuneRt, TuneAffinity, Mark, StepHistory, After;
    var alive := pid in c.s.procs;
    if rule.rt.None? {
      es := TailIsEvents(c, pid, cmd, rule, affinity, alive);
    } else {
      var e := RtTuning(pid, rule.rt.value, rt);
      var d := Configuration(Step(c.s, c.h, e), StepHistory(c.s, c.h, e));
      es := [];
      if alive {
        es := TailIsEvents(d, pid, cmd, rule, affinity, alive);
      }
      AfterOne(c, e, es);
      AfterOne(d, e, es);
      es := [e] + es;
    }
  }

  lemma TailIsEvents(c: Configuration, pid: Pid, cmd: Cmdline, rule: Rule, affinity: Access, alive: bool) returns (es: seq<Event>)
    ensures var s2 := if rule.affinity.None? then c.s else TuneAffinity(c.s, pid, rule.affinity.value, affinity);
            After(c, es).s == if rule.affinity.Some? && !alive then s2 else Mark(s2, pid, cmd)
    ensures forall e :: e in es ==> e.AffinityTuning? || e.Marking?
  {
    hide TuneRt, TuneAffinity, Mark, StepHistory, After;
    var mark := Marking(pid, cmd);
    if rule.affinity.None? {
      MarkingIsEvent(c, mark);
      es := [mark];
    } else {
      var e := AffinityTuning(pid, rule.affinity.value, affinity);
      var d := Configuration(Step(c.s, c.h, e), StepHistory(c.s, c.h, e));
      es := if alive then [mark] else [];
      MarkingIsEvent(d, mark);
      AfterOne(d, mark, []);
      AfterOne(c, e, es);
      es := [e] + es;
    }
  }

  lemma MarkingIsEvent(c: Configuration, e: Event)
    requires e.Marking?
    ensures After(c, [e]).s == Mark(c.s, e.pid, e.cmdline)
  {
    AfterOne(c, e, []);
    AfterOne(Configuration(Step(c.s, c.h, e), StepHistory(c.s, c.h, e)), e, []);
    assert [e] + [] == [e];
  }

  lemma HasMember(s: set<Pid>)
    ensures s == {} || exists p :: p in s
  {
    if forall p :: p !in s { assert s == {}; }
  }

  // ----- The plugin -----

  class Plugin {
    var procs: map<Pid, Proc>
    var originals: map<Pid, Params>

    ghost function View(): State
      reads this
    {
      State(procs, originals)
    }

    method StoreOrigRt(pid: Pid, rt: Rt)
      modifies this`originals
      ensures originals == old(originals)[pid := SaveRt(old(Entry(View(), pid)), rt)]
    {
      var params := Params(None, None, None);
      if pid in originals {
        params := originals[pid];
      }
      if params.rt.None? {
        params := params.(rt := Some(rt));
      }
      originals := originals[pid := params];
    }

    method TuneProcessRt(pid: Pid, request: Option<RtRequest>, a: Access) returns (cont: bool)
      modifies this
      ensures View() == if request.None? then old(View()) else TuneRt(old(View()), pid, request.value, a)
      ensures cont == (request.None? || old(pid in procs)) && procs.Keys == old(procs.Keys)
    {
      if request.None? {
        return true;
      }
      if pid !in procs {
        originals := originals - {pid};
        return false;
      }
      if a.readable {
        var prev := procs[pid].rt;
        if a.accepted {
          procs := procs[pid := procs[pid].(rt := NewRt(procs[pid], request.value))];
        }
        StoreOrigRt(pid, prev);
      }
      cont := true;
    }

    method StoreOrigAffinity(pid: Pid, cpus: seq<nat>)
      modifies this`originals
      ensures originals == old(originals)[pid := SaveAffinity(old(Entry(View(), pid)), cpus)]
    {
      var params := Params(None, None, None);
      if pid in originals {
        params := originals[pid];
      }
      if params.affinity.None? {
        var mask := CpuListToBitmask(cpus);
        params := params.(affinity := Some(mask));
      }
      originals := originals[pid := params];
    }

    method TuneProcessAffinity(pid: Pid, cpus: Option<seq<nat>>, a: Access) returns (cont: bool)
      modifies this
      ensures View() == if cpus.None? then old(View()) else TuneAffinity(old(View()), pid, cpus.value, a)
      ensures cont == (cpus.None? || old(pid in procs)) && procs.Keys == old(procs.Keys)
    {
      hide ListToMask, Listed;
      if cpus.None? {
        return true;
      }
      if pid !in procs {
        originals := originals - {pid};
        return false;
      }
      if a.readable {
        var prev := procs[pid].affinity;
        if a.accepted {
          procs := procs[pid := procs[pid].(affinity := Listed(cpus.value))];
        }
        StoreOrigAffinity(pid, prev);
      }
      cont := true;
    }

    method TuneProcess(pid: Pid, cmd: Cmdline, rule: Rule, rt: Access, affinity: Access)
      modifies this
      ensures View() == TunedProcess(old(View()), pid, cmd, rule, rt, affinity)
    {
      hide TuneRt, TuneAffinity;
      var cont := TuneProcessRt(pid, rule.rt, rt);
      if !cont {
        return;
      }
      cont := TuneProcessAffinity(pid, rule.affinity, affinity);
      if !cont || pid !in originals {
        return;
      }
      originals := originals[pid := originals[pid].(cmdline := Some(cmd))];
    }

    /** A new or renamed process: tuned when a rule matches its command line and it has no originals yet, unless
        it is a kernel thread and these are excluded. */
    method AddPid(pid: Pid, lookup: Cmdline -> Option<Rule>, kthreads: bool, rt: Access, affinity: Access)
      modifies this
      ensures var tuned := old(pid in procs && (kthreads || !procs[pid].kthread) && pid !in originals) &&
                           lookup(old(procs)[pid].cmdline).Some?;
              View() == if tuned then
                          TunedProcess(old(View()), pid, old(procs)[pid].cmdline,
                                                lookup(old(procs)[pid].cmdline).value, rt, affinity)
                        else old(View())
    {
      if pid !in procs || (!kthreads && procs[pid].kthread) {
        return;
      }
      var cmd := procs[pid].cmdline;
      var rule := lookup(cmd);
      if rule.Some? && pid !in originals {
        TuneProcess(pid, cmd, rule.value, rt, affinity);
      }
    }

    method RemovePid(pid: Pid)
      modifies this`originals
      ensures originals == old(originals) - {pid}
    {
      if pid in originals {
        originals := originals - {pid};
      }
    }

    /** Restore the recognised processes one by one, then forget all originals; nothing happens when the
        processes cannot be listed. */
    method RestorePs(listable: bool, refused: set<Pid>)
      modifies this
      ensures View() == if listable then Restore(old(View()), refused) else old(View())
    {
      hide Back;
      if !listable {
        return;
      }
      var todo := originals.Keys;
      ghost var s := View();
      ghost var target := Restore(s, refused).procs;
      while todo != {}
        invariant originals == s.originals && todo <= originals.Keys && procs.Keys == s.procs.Keys
        invariant forall p :: p in procs ==> procs[p] == if p in todo then s.procs[p] else target[p]
        decreases todo
      {
        HasMember(todo);
        var pid :| pid in todo;
        RestoreOne(pid, refused, s);
        todo := todo - {pid};
      }
      assert procs == target;
      originals := map[];
    }

    method RestoreOne(pid: Pid, refused: set<Pid>, ghost s: State)
      requires pid in originals && originals == s.originals && procs.Keys == s.procs.Keys
      requires pid in procs ==> procs[pid] == s.procs[pid]
      modifies this`procs
      ensures procs.Keys == old(procs.Keys)
      ensures forall p :: p in procs ==>
                procs[p] == if p == pid then Restore(s, refused).procs[pid] else old(procs)[p]
    {
      if pid in procs && originals[pid].cmdline == Some(procs[pid].cmdline) && pid !in refused {
        var e := originals[pid];
        if e.rt.Some? {
          procs := procs[pid := procs[pid].(rt := e.rt.value)];
        }
        if e.affinity.Some? {
          var cpus := BitmaskToCpuList(e.affinity.value);
          procs := procs[pid := procs[pid].(affinity := Listed(cpus))];
        }
      }
    }
  }
}
