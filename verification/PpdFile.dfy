/** What tuned-ppd does in terms of its configuration file: which TuneD profile each power profile stands for on mains
    power and on battery, and what every call and signal leads to
    (tuned/ppd/config.py, tuned/ppd/controller.py). */
module PpdFile {
  import opened Text
  import opened PpdConfig
  import opened PpdModel

  /** Whether the battery is looked at: as the option says, else if there is a battery section. */
  predicate Detects(f: File) {
    match f.batteryDetection case Some(b) => b case None => f.battery.Some?
  }

  /** The TuneD profile that the file names for a power profile. */
  function Named(f: File, onBattery: bool, k: string): Option<string> {
    if f.profiles.None? || k !in f.profiles.value then None
    else if onBattery && Detects(f) && f.battery.Some? && k in f.battery.value then Some(f.battery.value[k])
    else Some(f.profiles.value[k])
  }

  function DefaultOf(f: File): string {
    match f.defaultProfile case Some(k) => k case None => "balanced"
  }

  /** The maps of a configuration are what the file names, on mains power and on battery, both ways. */
  lemma LoadedNames(f: File, tuned: set<string>, k: string, v: string)
    requires Load(f, tuned).Loaded?
    ensures var c := Load(f, tuned).config;
            && (k in c.ac && c.ac[k] == v <==> Named(f, false, k) == Some(v))
            && (k in c.dc && c.dc[k] == v <==> Named(f, true, k) == Some(v))
            && (v in c.acInverse && c.acInverse[v] == k <==> Named(f, false, k) == Some(v))
            && (v in c.dcInverse && c.dcInverse[v] == k <==> Named(f, true, k) == Some(v))
            && c.defaultProfile == DefaultOf(f)
  {
    LoadedMaps(f, tuned, k, v);
    LoadedIsValid(f, tuned);
    ValidInverts(Load(f, tuned).config, k, v);
  }

  lemma LoadedMaps(f: File, tuned: set<string>, k: string, v: string)
    requires Load(f, tuned).Loaded?
    ensures var c := Load(f, tuned).config;
            && (k in c.ac && c.ac[k] == v <==> Named(f, false, k) == Some(v))
            && (k in c.dc && c.dc[k] == v <==> Named(f, true, k) == Some(v))
            && c.defaultProfile == DefaultOf(f)
  {
    hide Invert;
    var c := Load(f, tuned).config;
    assert c.dc.Keys - c.ac.Keys == {} && k !in c.dc.Keys - c.ac.Keys;
  }

  lemma ValidInverts(c: Config, k: string, v: string)
    requires Valid(c)
    ensures k in c.ac && c.ac[k] == v <==> v in c.acInverse && c.acInverse[v] == k
    ensures k in c.dc && c.dc[k] == v <==> v in c.dcInverse && c.dcInverse[v] == k
  {
    hide Injective;
  }

  /** The maps the daemon looks a profile up in. */
  lemma NamedBothWays(f: File, tuned: set<string>, b: bool, k: string, v: string)
    requires Load(f, tuned).Loaded?
    ensures var c := Load(f, tuned).config;
            && (k in PpdToTuned(c, b) && PpdToTuned(c, b)[k] == v <==> Named(f, b, k) == Some(v))
            && (v in TunedToPpd(c, b) && TunedToPpd(c, b)[v] == k <==> Named(f, b, k) == Some(v))
            && (k in PpdToTuned(c, b) <==> Named(f, b, k).Some?)
  {
    hide Load, Named;
    LoadedNames(f, tuned, k, v);
    var c := Load(f, tuned).config;
    if k in PpdToTuned(c, b) { LoadedNames(f, tuned, k, PpdToTuned(c, b)[k]); }
    if Named(f, b, k).Some? { LoadedNames(f, tuned, k, Named(f, b, k).value); }
  }

  // ----- Asking TuneD -----

  /** TuneD was asked for the profile that the file names: it has it now, or nothing has changed. */
  ghost predicate Asked(f: File, s: State, t: State, k: string, accepts: bool) {
    if accepts || Named(f, t.onBattery, k) == Some(s.tuned) then t.active == Some(k) && Named(f, t.onBattery, k) == Some(t.tuned)
    else t.active == s.active && t.tuned == s.tuned
  }

  /** Switching to a power profile runs the TuneD profile that the file names for it, unless TuneD refuses; a profile
      that the file does not name raises. */
  lemma SwitchAsks(f: File, tuned: set<string>, s: State, k: string, r: Reply)
    requires Load(f, tuned).Loaded?
    ensures var (t, o) := Switch(Load(f, tuned).config, s, Some(k), r);
            && (o == Raised <==> Named(f, s.onBattery, k).None?)
            && (o == Raised ==> t == s)
            && (o != Raised ==> Asked(f, s, t, k, r.accepts))
            && (o == Switched <==> Named(f, s.onBattery, k).Some? && (r.accepts || Named(f, s.onBattery, k) == Some(s.tuned)))
            && t.holds == s.holds && t.base == s.base && t.onBattery == s.onBattery
  {
    hide Load, Named;
    var c := Load(f, tuned).config;
    NamedBothWays(f, tuned, s.onBattery, k, s.tuned);
    if k in PpdToTuned(c, s.onBattery) { NamedBothWays(f, tuned, s.onBattery, k, PpdToTuned(c, s.onBattery)[k]); }
  }

  lemma NamedOnBoth(f: File, k: string)
    ensures Named(f, true, k).Some? <==> Named(f, false, k).Some?
  {
  }

  lemma StandardNamed(f: File, tuned: set<string>, b: bool)
    requires Load(f, tuned).Loaded?
    ensures Named(f, b, "power-saver").Some? && Named(f, b, "balanced").Some? && Named(f, b, "performance").Some?
    ensures Named(f, b, DefaultOf(f)).Some?
  {
  }

  // ----- Every event -----

  /** Which profile the holds and the base call for: power-saver before performance before the base. */
  ghost predicate Wins(holds: map<nat, Hold>, base: string, p: string) {
    && ((exists k :: k in holds && holds[k].profile == "power-saver") ==> p == "power-saver")
    && (holds != map[] && (forall k :: k in holds ==> holds[k].profile != "power-saver") ==> p == "performance")
    && (holds == map[] ==> p == base)
  }

  lemma ExpectedWins(s: State)
    ensures Wins(s.holds, s.base, Expected(s))
    ensures s.holds != map[] ==> Expected(s) == Effective(s.holds)
  {
  }

  /** The holds are now `holds`, and TuneD was asked for what they and the base call for. */
  ghost predicate Held(f: File, s: State, t: State, holds: map<nat, Hold>, accepts: bool) {
    t.holds == holds && t.base == s.base && t.onBattery == s.onBattery &&
    exists p :: Wins(holds, s.base, p) && Asked(f, s, t, p, accepts)
  }

  /** The power profile that a TuneD profile stands for. */
  ghost predicate StandsFor(f: File, onBattery: bool, tuned: string, p: string) {
    Named(f, onBattery, p) == Some(tuned) || (p == "unknown" && forall q :: Named(f, onBattery, q) != Some(tuned))
  }

  function PlatformName(content: string): Option<string> {
    match content
    case "low-power" => Some("power-saver")
    case "balanced" => Some("balanced")
    case "performance" => Some("performance")
    case _ => None
  }

  /** What an event leads to. */
  ghost predicate Answers(f: File, s: State, e: Event, t: State) {
    match e
    case HoldProfile(cookie, profile, caller, r) =>
      if profile == "power-saver" || profile == "performance" then Held(f, s, t, s.holds[cookie := Hold(profile, caller)], r.accepts)
      else t == s
    case ReleaseProfile(cookie, caller, r) =>
      if cookie in s.holds && s.holds[cookie].caller == caller then Held(f, s, t, s.holds - {cookie}, r.accepts) else t == s
    case CallerGone(cookie, r) => Held(f, s, t, s.holds - {cookie}, r.accepts)
    case SetActiveProfile(k, r) =>
      if Named(f, false, k).None? then t == s
      else
        && t.holds == map[] && t.onBattery == s.onBattery && Asked(f, s, t, k, r.accepts)
        && t.base == if r.accepts || Named(f, s.onBattery, k) == Some(s.tuned) then k else s.base
    case PlatformProfile(content, r) =>
      if PlatformName(content).None? then t == s
      else
        var k := PlatformName(content).value;
        t.holds == map[] && t.base == k && t.onBattery == s.onBattery && Asked(f, s, t, k, r.accepts)
    case Battery(b, r) =>
      && t.holds == s.holds && t.base == s.base && t.onBattery == b
      && if s.active.Some? && Named(f, false, s.active.value).Some? then Asked(f, s, t, s.active.value, r.accepts)
         else t.active == s.active && t.tuned == s.tuned
    case Deliver =>
      if s.queue == [] then t == s
      else if s.queue[0] != Signal(s.tuned, true) then t == s.(queue := s.queue[1..])
      else
        && t.tuned == s.tuned && t.onBattery == s.onBattery && t.queue == s.queue[1..]
        && t.active.Some? && StandsFor(f, s.onBattery, s.tuned, t.active.value)
        && if t.active == s.active then t.holds == s.holds && t.base == s.base
           else t.holds == map[] && t.base == if t.active == Some("unknown") then s.base else t.active.value
    case OutsideSwitch(profile, r) =>
      t == s.(tuned := if r.accepts then profile else s.tuned, queue := t.queue)
  }

  lemma HoldAnswers(f: File, tuned: set<string>, s: State, u: State, r: Reply)
    requires Load(f, tuned).Loaded? && Mapped(Load(f, tuned).config, u) && u == s.(holds := u.holds)
    ensures Held(f, s, Switch(Load(f, tuned).config, u, Some(Expected(u)), r).0, u.holds, r.accepts)
  {
    hide Load, Switch, Expected, Wins, Named;
    var c := Load(f, tuned).config;
    LoadedIsValid(f, tuned);
    ExpectedMapped(c, u);
    MapsAgree(c, Expected(u), u.onBattery);
    NamedBothWays(f, tuned, u.onBattery, Expected(u), u.tuned);
    SwitchAsks(f, tuned, u, Expected(u), r);
    ExpectedWins(u);
  }

  lemma DeliverAnswers(f: File, tuned: set<string>, s: State)
    requires Load(f, tuned).Loaded?
    ensures Answers(f, s, Deliver, Handle(Load(f, tuned).config, s))
  {
    hide Load, Named;
    var c := Load(f, tuned).config;
    forall q ensures s.tuned in TunedToPpd(c, s.onBattery) && TunedToPpd(c, s.onBattery)[s.tuned] == q <==> Named(f, s.onBattery, q) == Some(s.tuned) {
      NamedBothWays(f, tuned, s.onBattery, q, s.tuned);
    }
  }

  lemma BatteryAnswers(f: File, tuned: set<string>, s: State, b: bool, r: Reply)
    requires Load(f, tuned).Loaded?
    ensures Answers(f, s, Battery(b, r), BatteryChanged(Load(f, tuned).config, s, b, r))
  {
    hide Load, Named;
    if s.active.Some? {
      SwitchAsks(f, tuned, s.(onBattery := b), s.active.value, r);
      NamedOnBoth(f, s.active.value);
    }
  }

  lemma SetActiveAnswers(f: File, tuned: set<string>, s: State, k: string, r: Reply)
    requires Load(f, tuned).Loaded?
    ensures Answers(f, s, SetActiveProfile(k, r), SetActive(Load(f, tuned).config, s, k, r))
  {
    hide Load, Named, Switch;
    SwitchAsks(f, tuned, s.(holds := map[]), k, r);
    NamedBothWays(f, tuned, s.onBattery, k, s.tuned);
    NamedOnBoth(f, k);
  }

  lemma PlatformAnswers(f: File, tuned: set<string>, s: State, content: string, r: Reply)
    requires Load(f, tuned).Loaded?
    ensures Answers(f, s, PlatformProfile(content, r), PlatformKey(Load(f, tuned).config, s, content, r))
  {
    hide Load, Named, Switch;
    if PlatformName(content).Some? {
      SwitchAsks(f, tuned, s.(holds := map[]), PlatformName(content).value, r);
      StandardNamed(f, tuned, s.onBattery);
    }
  }

  /** Main result: in every state that occurs, every call, signal and battery change leads to what the file and the
      holds call for, whatever TuneD answers. */
  lemma StepAnswers(f: File, tuned: set<string>, s: State, e: Event)
    requires Load(f, tuned).Loaded? && Mapped(Load(f, tuned).config, s)
    ensures Answers(f, s, e, Step(Load(f, tuned).config, s, e))
  {
    hide Load, Named, Switch, Held, Effective, Asked;
    match e {
      case HoldProfile(cookie, profile, caller, r) =>
        var u := s.(holds := s.holds[cookie := Hold(profile, caller)]);
        ExpectedWins(u);
        assert cookie in u.holds;
        if profile == "power-saver" || profile == "performance" { HoldAnswers(f, tuned, s, u, r); }
      case ReleaseProfile(cookie, caller, r) => HoldAnswers(f, tuned, s, s.(holds := s.holds - {cookie}), r);
      case CallerGone(cookie, r) => HoldAnswers(f, tuned, s, s.(holds := s.holds - {cookie}), r);
      case SetActiveProfile(k, r) => SetActiveAnswers(f, tuned, s, k, r);
      case PlatformProfile(content, r) => PlatformAnswers(f, tuned, s, content, r);
      case Battery(b, r) => BatteryAnswers(f, tuned, s, b, r);
      case Deliver => DeliverAnswers(f, tuned, s);
      case OutsideSwitch(profile, r) =>
    }
  }

  /** The base profile on start-up: the saved one, else the one that TuneD's recommendation stands for, else the
      default of the file. */
  lemma StartupBaseNamed(f: File, tuned: set<string>, saved: string, recommended: string, b: bool)
    requires Load(f, tuned).Loaded?
    ensures var base := StartupBase(Load(f, tuned).config, saved, recommended, b);
            if saved != "" then base == saved
            else (base != "" && Named(f, b, base) == Some(recommended)) ||
                 (base == DefaultOf(f) && forall k :: k != "" ==> Named(f, b, k) != Some(recommended))
  {
    hide Load, Named;
    var c := Load(f, tuned).config;
    LoadedNames(f, tuned, "", "");
    forall k ensures recommended in TunedToPpd(c, b) && TunedToPpd(c, b)[recommended] == k <==> Named(f, b, k) == Some(recommended) {
      NamedBothWays(f, tuned, b, k, recommended);
    }
  }

  // ----- Runs -----

  /** Nothing is known of TuneD's profile, or TuneD runs the profile that the file names for the active one. */
  ghost predicate Runs(f: File, s: State) {
    s.active.None? || s.active.value == "unknown" || Named(f, s.onBattery, s.active.value) == Some(s.tuned)
  }

  lemma SyncedRuns(f: File, tuned: set<string>, s: State)
    requires Load(f, tuned).Loaded?
    ensures Synced(Load(f, tuned).config, s) <==> Runs(f, s)
  {
    hide Load, Named;
    if s.active.Some? { NamedBothWays(f, tuned, s.onBattery, s.active.value, s.tuned); }
  }

  /** Main result: over any run, at every moment, delivering the signals leaves TuneD with the profile that the file
      names for the active one, exactly when every event keeps track. */
  lemma RunRunsNamed(f: File, tuned: set<string>, s: State, es: seq<Event>)
    requires Load(f, tuned).Loaded? && Mapped(Load(f, tuned).config, s) && Runs(f, s)
    ensures var c := Load(f, tuned).config;
            (forall i :: 0 <= i <= |es| ==> Runs(f, Drain(c, At(c, s, es, i)))) <==>
            (forall i :: 0 <= i < |es| ==> KeepsTrack(c, At(c, s, es, i), es[i]))
  {
    hide Load, Runs, Synced, At, Drain, KeepsTrack, Mapped;
    var c := Load(f, tuned).config;
    LoadedIsValid(f, tuned);
    SyncedRuns(f, tuned, s);
    RunThenDrainSynced(c, s, es);
    forall i | 0 <= i <= |es| ensures InStep(c, At(c, s, es, i)) <==> Runs(f, Drain(c, At(c, s, es, i))) {
      SyncedRuns(f, tuned, Drain(c, At(c, s, es, i)));
    }
  }
}
