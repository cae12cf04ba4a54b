/** The daemon's life cycle: loading profiles, the tuning worker, and the calls that start, stop, switch, reload
    and disable it (tuned/daemon/daemon.py, tuned/daemon/controller.py). */
module Lifecycle {
  import opened Text

  /** What the units of a profile say. */
  type Content(!new)

  /** A loaded profile: the names it was requested by, its own name and its content. */
  datatype Loaded = Loaded(requested: seq<string>, name: string, content: Content)

  /** The profile directories at the time of a call; `load` gives `None` for an invalid profile. */
  datatype Disk = Disk(known: set<string>, load: seq<string> -> Option<(string, Content)>)

  /** What the configuration files ask for at start-up; reading them can fail. */
  datatype Startup = Unreadable | Preset(names: Option<string>, manual: bool, post: Option<string>)

  /** `worker` is the profile the living worker thread was started with, `starts` the number of threads so far. */
  datatype State = State(
    profile: Option<Loaded>,
    manual: Option<bool>,
    active: seq<string>,
    post: Option<string>,
    worker: Option<Loaded>,
    starts: nat)

  predicate Running(d: State) {
    d.worker.Some?
  }

  // ----- Loading -----

  function Words(s: string): seq<string> {
    WordsFrom(s, "")
  }

  function WordsFrom(s: string, word: string): seq<string> {
    if s == "" then if word == "" then [] else [word]
    else if IsSpace(s[0]) then (if word == "" then [] else [word]) + WordsFrom(s[1..], "")
    else WordsFrom(s[1..], word + [s[0]])
  }

  lemma {:induction false} WordsGrow(a: string, c: char, b: string, word: string)
    requires IsSpace(c)
    ensures WordsFrom(a + [c] + b, word) == WordsFrom(a, word) + WordsFrom(b, "")
    decreases |a|
  {
    var s := a + [c] + b;
    if a == "" {
      assert s[0] == c && s[1..] == b;
    } else {
      assert s[0] == a[0] && s[1..] == a[1..] + [c] + b;
      WordsGrow(a[1..], c, b, if IsSpace(a[0]) then "" else word + [a[0]]);
    }
  }

  lemma {:induction false} OneWordGrows(s: string, word: string)
    requires forall i :: 0 <= i < |s| ==> !IsSpace(s[i])
    ensures WordsFrom(s, word) == if word + s == "" then [] else [word + s]
    decreases |s|
  {
    if s == "" {
      assert word + s == word;
    } else {
      OneWordGrows(s[1..], word + [s[0]]);
      assert word + [s[0]] + s[1..] == word + s;
    }
  }

  /** `s.split()`: blanks separate the words, as many as there are, and a text without blanks is one word. */
  lemma WordsSpec(a: string, c: char, b: string, w: string)
    requires IsSpace(c) && forall i :: 0 <= i < |w| ==> !IsSpace(w[i])
    ensures Words(a + [c] + b) == Words(a) + Words(b)
    ensures Words(w) == if w == "" then [] else [w]
  {
    WordsGrow(a, c, b, "");
    OneWordGrows(w, "");
    assert "" + w == w;
  }

  function Named(names: Option<string>): seq<string> {
    if names.None? then [] else Words(names.value)
  }

  function Requested(active: seq<string>, post: Option<string>): seq<string> {
    active + if post.None? then [] else [post.value]
  }

  /** `_load_profiles`; `None` when it raises, and then nothing has changed. */
  function Load(d: State, names: Option<string>, manual: bool, disk: Disk): Option<State> {
    var list := Requested(Named(names), d.post);
    if exists n :: n in list && n !in disk.known then None
    else if list == [] then Some(d.(profile := None, manual := Some(manual), active := Named(names)))
    else
      match disk.load(list)
      case None => None
      case Some((name, content)) =>
        Some(d.(profile := Some(Loaded(list, name, content)), manual := Some(manual), active := Named(names)))
  }

  function SetProfile(d: State, names: Option<string>, manual: bool, disk: Disk): Option<State> {
    if Running(d) then None else Load(d, names, manual, disk)
  }

  datatype Outcome = Outcome(ok: bool, state: State)

  /** The post-loaded profile is set first, so that a failure keeps it. */
  function SetAll(d: State, names: Option<string>, manual: bool, post: Option<string>, disk: Disk): Outcome {
    if Running(d) then Outcome(false, d)
    else if post.Some? && |Words(post.value)| > 1 then Outcome(false, d)
    else
      var e := d.(post := if post == Some("") then None else post);
      match Load(e, names, manual, disk)
      case None => Outcome(false, e)
      case Some(f) => Outcome(true, f)
  }

  function InitProfile(d: State, startup: Startup, disk: Disk): Outcome {
    match startup
    case Unreadable => Outcome(false, d)
    case Preset(names, manual, post) =>
      SetAll(d.(profile := None, manual := None, active := [], post := None), names, manual, post, disk)
  }

  // ----- Calls -----

  function Started(d: State): State {
    if Running(d) || d.profile.None? then d else d.(worker := d.profile, starts := d.starts + 1)
  }

  function Stopped(d: State): State {
    d.(worker := None)
  }

  /** `_switch_profile` stops the worker, sets the profile and starts it again, also when setting it failed. */
  function Switch(d: State, names: string, manual: bool, disk: Disk): Outcome {
    var loaded := SetProfile(Stopped(d), Some(names), manual, disk);
    var next := if loaded.Some? then loaded.value else Stopped(d);
    Outcome(loaded.Some?, if Running(d) then Started(next) else next)
  }

  function Reload(d: State, startup: Startup, disk: Disk): Outcome {
    var r := InitProfile(Stopped(d), startup, disk);
    if r.ok then Outcome(Running(Started(r.state)), Started(r.state)) else r
  }

  function Disable(d: State): State {
    if d.profile.None? then Stopped(d) else Stopped(d).(profile := None, manual := Some(true), active := [], post := None)
  }

  // ----- Invariant -----

  /** The worker runs the loaded profile; the loaded profile is the one that the active and the post-loaded
      names stand for; and a profile that is not there has no names. */
  ghost predicate Inv(d: State) {
    && (Running(d) ==> d.profile == d.worker)
    && (d.profile.Some? ==> d.manual.Some? && d.profile.value.requested == Requested(d.active, d.post))
    && (d.profile.None? ==> d.active == [])
  }

  datatype Event =
    | Starting
    | Stopping
    | Switching(names: string, manual: bool, disk: Disk)
    | Reloading(startup: Startup, disk: Disk)
    | Disabling

  function Step(d: State, e: Event): State {
    match e
    case Starting => Started(d)
    case Stopping => Stopped(d)
    case Switching(names, manual, disk) => Switch(d, names, manual, disk).state
    case Reloading(startup, disk) => Reload(d, startup, disk).state
    case Disabling => Disable(d)
  }

  function Run(d: State, es: seq<Event>): State {
    if es == [] then d else Step(Run(d, es[..|es| - 1]), es[|es| - 1])
  }

  const INITIAL := State(None, None, [], None, None, 0)

  lemma LoadInv(d: State, names: Option<string>, manual: bool, disk: Disk)
    requires !Running(d)
    ensures var r := Load(d, names, manual, disk);
            r.Some? ==> Inv(r.value) && r.value.worker == d.worker && r.value.starts == d.starts && r.value.post == d.post
  {
    hide Words;
  }

  lemma SetAllInv(d: State, names: Option<string>, manual: bool, post: Option<string>, disk: Disk)
    requires !Running(d) && d.profile.None? && d.active == []
    ensures var r := SetAll(d, names, manual, post, disk);
            && Inv(r.state) && r.state.worker == d.worker && r.state.starts == d.starts
            && (!r.ok ==> r.state.profile.None?)
  {
    hide Load, Words;
    LoadInv(d.(post := if post == Some("") then None else post), names, manual, disk);
  }

  lemma StepInv(d: State, e: Event)
    requires Inv(d)
    ensures Inv(Step(d, e)) && Step(d, e).starts >= d.starts
    ensures Running(d) && Running(Step(d, e)) && Step(d, e).starts == d.starts ==> Step(d, e).profile == d.profile
    ensures !Running(d) && Running(Step(d, e)) ==> Step(d, e).starts > d.starts
  {
    hide Load, SetAll;
    match e
    case Starting =>
    case Stopping =>
    case Switching(names, manual, disk) => LoadInv(Stopped(d), Some(names), manual, disk);
    case Reloading(startup, disk) =>
      if startup.Preset? {
        SetAllInv(Stopped(d).(profile := None, manual := None, active := [], post := None),
                  startup.names, startup.manual, startup.post, disk);
      }
    case Disabling =>
  }

  /** Main result: in every run from the initial state, however the disk and the configuration change between
      the calls, a running worker has a loaded profile, and it is the one it was started with. */
  lemma {:induction false} RunInv(es: seq<Event>)
    ensures Inv(Run(INITIAL, es))
    ensures Running(Run(INITIAL, es)) ==> Run(INITIAL, es).profile.Some?
  {
    hide Step;
    if es != [] {
      RunInv(es[..|es| - 1]);
      StepInv(Run(INITIAL, es[..|es| - 1]), es[|es| - 1]);
    }
  }

  /** As long as the same worker is alive the loaded profile is not exchanged. */
  lemma {:induction false} WorkerKeepsProfile(d: State, es: seq<Event>)
    requires Inv(d)
    ensures var r := Run(d, es);
            && Inv(r) && r.starts >= d.starts
            && (Running(d) && Running(r) && r.starts == d.starts ==> r.profile == d.profile)
            && (!Running(d) && Running(r) ==> r.starts > d.starts)
  {
    hide Step;
    if es != [] {
      WorkerKeepsProfile(d, es[..|es| - 1]);
      StepInv(Run(d, es[..|es| - 1]), es[|es| - 1]);
    }
  }

  // ----- Switching -----

  /** The request can be served: every profile is known and they load together. */
  ghost predicate Loads(disk: Disk, list: seq<string>) {
    (forall n :: n in list ==> n in disk.known) && (list == [] || disk.load(list).Some?)
  }

  /** The profile is what the directories have for the names, and there is none without names. */
  ghost predicate Fetched(disk: Disk, list: seq<string>, profile: Option<Loaded>) {
    if list == [] then profile.None?
    else profile.Some? && profile.value.requested == list && disk.load(list) == Some((profile.value.name, profile.value.content))
  }

  /** A switch succeeds exactly when the requested profiles load. A failed one leaves profile, mode, active list
      and post-loaded profile as they were, and the daemon runs exactly if it did, with the same profile. After a
      successful one it has the profile of the requested names, and runs it exactly if it ran before and there is
      something to run. */
  lemma SwitchSpec(d: State, names: string, manual: bool, disk: Disk)
    requires Inv(d)
    ensures var r := Switch(d, names, manual, disk);
            var list := Words(names) + (match d.post case Some(p) => [p] case None => []);
            && (r.ok <==> Loads(disk, list))
            && (!r.ok ==> r.state == d.(starts := r.state.starts))
            && (r.ok ==>
                  && r.state.manual == Some(manual) && r.state.active == Words(names) && r.state.post == d.post
                  && Fetched(disk, list, r.state.profile)
                  && r.state.worker == if Running(d) then r.state.profile else None)
  {
    hide Words;
  }

  /** A reload succeeds exactly when the configuration can be read, names at most one post-loaded profile, and the
      configured profiles load and there are some. Then the daemon runs the profile of the configured names. */
  lemma ReloadSpec(d: State, startup: Startup, disk: Disk)
    requires Inv(d)
    ensures var r := Reload(d, startup, disk);
            if startup.Unreadable? then !r.ok
            else
              var active := match startup.names case Some(n) => Words(n) case None => [];
              var post := if startup.post == Some("") then None else startup.post;
              var list := active + (match post case Some(p) => [p] case None => []);
              && (r.ok <==> (startup.post.Some? ==> |Words(startup.post.value)| <= 1) && list != [] && Loads(disk, list))
              && (r.ok ==>
                    && r.state.active == active && r.state.post == post && r.state.manual == Some(startup.manual)
                    && Fetched(disk, list, r.state.profile) && r.state.worker == r.state.profile && r.state.starts == d.starts + 1)
  {
    hide Words;
  }

  /** A failed reload keeps nothing running; with readable configuration files it also leaves no profile. */
  lemma FailedReload(d: State, startup: Startup, disk: Disk)
    requires Inv(d) && !Reload(d, startup, disk).ok
    ensures var r := Reload(d, startup, disk).state;
            && !Running(r)
            && (startup.Unreadable? ==> r == Stopped(d))
            && (startup.Preset? ==> r.profile.None? && r.active == [])
  {
    hide Load, SetAll;
    if startup.Preset? {
      SetAllInv(Stopped(d).(profile := None, manual := None, active := [], post := None),
                startup.names, startup.manual, startup.post, disk);
    }
  }

  /** Disabling always leaves a stopped daemon without profile, and starting it then does nothing. */
  lemma DisableSpec(d: State)
    requires Inv(d)
    ensures var r := Disable(d);
            !Running(r) && r.profile.None? && r.active == [] && Started(r) == r
    ensures d.profile.Some? ==> SetAll(Stopped(d), None, true, None, Disk({}, (_: seq<string>) => None)) == Outcome(true, Disable(d))
  {
  }

  // ----- The objects -----

  class Daemon {
    var profile: Option<Loaded>
    var manual: Option<bool>
    var active: seq<string>
    var post: Option<string>
    var worker: Option<Loaded>
    var starts: nat

    ghost function View(): State
      reads this
    {
      State(profile, manual, active, post, worker, starts)
    }

    constructor ()
      ensures View() == INITIAL
    {
      profile, manual, active, post, worker, starts := None, None, [], None, None, 0;
    }

    predicate IsRunning()
      reads this
      ensures IsRunning() == Running(View())
    {
      worker.Some?
    }

    /** `_load_profiles` */
    method LoadProfiles(names: Option<string>, isManual: bool, disk: Disk) returns (ok: bool)
      modifies this`profile, this`manual, this`active
      ensures var r := Load(old(View()), names, isManual, disk);
              ok == r.Some? && View() == if ok then r.value else old(View())
    {
      var list := Named(names);
      if post.Some? {
        list := list + [post.value];
      }
      assert list == Requested(Named(names), post);
      for i := 0 to |list|
        invariant forall j :: 0 <= j < i ==> list[j] in disk.known
      {
        if list[i] !in disk.known {
          return false;
        }
      }
      if list != [] {
        var loaded := disk.load(list);
        if loaded.None? {
          return false;
        }
        profile := Some(Loaded(list, loaded.value.0, loaded.value.1));
      } else {
        profile := None;
      }
      manual, active := Some(isManual), Named(names);
      ok := true;
    }

    method Set(names: Option<string>, isManual: bool, disk: Disk) returns (ok: bool)
      modifies this`profile, this`manual, this`active
      ensures var r := SetProfile(old(View()), names, isManual, disk);
              ok == r.Some? && View() == if ok then r.value else old(View())
    {
      hide Load;
      if IsRunning() {
        return false;
      }
      ok := LoadProfiles(names, isManual, disk);
    }

    method SetAllProfiles(names: Option<string>, isManual: bool, postLoaded: Option<string>, disk: Disk) returns (ok: bool)
      modifies this`profile, this`manual, this`active, this`post
      ensures Outcome(ok, View()) == SetAll(old(View()), names, isManual, postLoaded, disk)
    {
      hide Load, Words;
      if IsRunning() {
        return false;
      }
      if postLoaded.None? || postLoaded.value == "" {
        EmptyHasNoWords();
        post := None;
      } else if |Words(postLoaded.value)| > 1 {
        return false;
      } else {
        post := postLoaded;
      }
      ok := LoadProfiles(names, isManual, disk);
    }

    method Init(startup: Startup, disk: Disk) returns (ok: bool)
      modifies this`profile, this`manual, this`active, this`post
      ensures Outcome(ok, View()) == InitProfile(old(View()), startup, disk)
    {
      hide SetAll;
      if startup.Unreadable? {
        return false;
      }
      profile, manual, active, post := None, None, [], None;
      ok := SetAllProfiles(startup.names, startup.manual, startup.post, disk);
    }

    method StartWorker() returns (ok: bool)
      modifies this`worker, this`starts
      ensures View() == Started(old(View()))
      ensures ok == (old(!IsRunning()) && profile.Some?)
    {
      if IsRunning() || profile.None? {
        return false;
      }
      worker, starts := profile, starts + 1;
      ok := true;
    }

    method StopWorker() returns (ok: bool)
      modifies this`worker
      ensures View() == Stopped(old(View())) && ok == old(IsRunning())
    {
      if !IsRunning() {
        return false;
      }
      worker := None;
      ok := true;
    }
  }

  lemma EmptyHasNoWords()
    ensures Words("") == []
  {
  }

  class Controller {
    const daemon: Daemon

    constructor (daemon: Daemon)
      ensures this.daemon == daemon
    {
      this.daemon := daemon;
    }

    method Start() returns (ok: bool)
      modifies daemon
      ensures daemon.View() == Started(old(daemon.View())) && ok == daemon.IsRunning()
    {
      if daemon.IsRunning() {
        return true;
      }
      if daemon.profile.None? {
        return false;
      }
      ok := daemon.StartWorker();
    }

    method Stop() returns (ok: bool)
      modifies daemon
      ensures daemon.View() == Stopped(old(daemon.View())) && ok
    {
      if daemon.IsRunning() {
        ok := daemon.StopWorker();
      } else {
        ok := true;
      }
    }

    method ReloadConfig(startup: Startup, disk: Disk) returns (ok: bool)
      requires Inv(daemon.View())
      modifies daemon
      ensures Outcome(ok, daemon.View()) == Reload(old(daemon.View()), startup, disk) && Inv(daemon.View())
    {
      hide InitProfile;
      StepInv(daemon.View(), Reloading(startup, disk));
      if daemon.IsRunning() {
        var stopped := Stop();
      }
      ok := daemon.Init(startup, disk);
      if ok {
        ok := Start();
      }
    }

    /** Looking up the name of the loaded profile after a failure needs a loaded profile. */
    method SwitchProfile(names: string, manual: bool, disk: Disk) returns (ok: bool, reapplied: bool)
      requires Inv(daemon.View())
      modifies daemon
      ensures Outcome(ok, daemon.View()) == Switch(old(daemon.View()), names, manual, disk) && Inv(daemon.View())
    {
      hide Load;
      StepInv(daemon.View(), Switching(names, manual, disk));
      var wasRunning := daemon.IsRunning();
      reapplied := false;
      if wasRunning {
        var stopped := daemon.StopWorker();
      }
      ok := daemon.Set(Some(names), manual, disk);
      if !ok && wasRunning {
        reapplied := daemon.profile.value.name == names;
      }
      if wasRunning {
        var started := daemon.StartWorker();
      }
    }

    method DisableTuning()
      requires Inv(daemon.View())
      modifies daemon
      ensures daemon.View() == Disable(old(daemon.View())) && Inv(daemon.View())
    {
      DisableSpec(daemon.View());
      if daemon.IsRunning() {
        var stopped := daemon.StopWorker();
      }
      if daemon.profile.Some? {
        var done := daemon.SetAllProfiles(None, true, None, Disk({}, (_: seq<string>) => None));
      }
    }
  }
}
