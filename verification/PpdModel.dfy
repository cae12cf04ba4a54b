/** The tuned-ppd controller as a state machine: profile holds, base profile, battery state, and the
    signals that arrive from TuneD in order (tuned/ppd/controller.py). */
module PpdModel {
  import opened Text
  import opened PpdConfig

  const UNKNOWN := "unknown"

  datatype Hold = Hold(profile: string, caller: string)

  /** A TuneD `profile_changed` signal on its way. */
  datatype Signal = Signal(profile: string, ok: bool)

  /** `active` is `None` until a profile was set. `tuned` is the profile TuneD reports as active, and
      `queue` holds the signals TuneD has sent and tuned-ppd has not handled. */
  datatype State = State(
    holds: map<nat, Hold>,
    active: Option<string>,
    base: string,
    onBattery: bool,
    tuned: string,
    queue: seq<Signal>)

  /** How TuneD answers a switch request, and whether it is running: a running TuneD restarts after the
      request and announces the profile it ends up with. */
  datatype Reply = Reply(accepts: bool, running: bool)

  datatype Outcome = Switched | Refused | Raised

  // ----- Profile maps -----

  function PpdToTuned(c: Config, onBattery: bool): map<string, string> {
    if onBattery then c.dc else c.ac
  }

  function TunedToPpd(c: Config, onBattery: bool): map<string, string> {
    if onBattery then c.dcInverse else c.acInverse
  }

  /** The power profile a TuneD profile stands for. */
  function PpdOf(c: Config, tuned: string, onBattery: bool): string {
    if tuned in TunedToPpd(c, onBattery) then TunedToPpd(c, onBattery)[tuned] else UNKNOWN
  }

  // ----- Switching -----

  function Announce(profile: string, running: bool): seq<Signal> {
    if running then [Signal(profile, true)] else []
  }

  /** TuneD takes a switch request. */
  function TunedSwitch(s: State, profile: string, r: Reply): State {
    if r.accepts then s.(tuned := profile, queue := s.queue + Announce(profile, r.running))
    else s.(queue := s.queue + [Signal(profile, false)] + Announce(s.tuned, r.running))
  }

  /** `switch_profile`; `Raised` is a `KeyError` for a profile that is not in the map. */
  function Switch(c: Config, s: State, profile: Option<string>, r: Reply): (State, Outcome) {
    var m := PpdToTuned(c, s.onBattery);
    if profile.None? || profile.value !in m then (s, Raised)
    else if s.tuned == m[profile.value] then (s.(active := profile), Switched)
    else
      var t := TunedSwitch(s, m[profile.value], r);
      if r.accepts then (t.(active := profile), Switched) else (t, Refused)
  }

  /** The profile asked for by the holds: power-saver wins. */
  ghost function Effective(holds: map<nat, Hold>): string {
    if exists k :: k in holds && holds[k].profile == POWER_SAVER then POWER_SAVER else PERFORMANCE
  }

  /** The profile the holds and the base call for. */
  ghost function Expected(s: State): string {
    if s.holds == map[] then s.base else Effective(s.holds)
  }

  // ----- Events -----

  datatype Event =
    | HoldProfile(cookie: nat, profile: string, caller: string, reply: Reply)
    | ReleaseProfile(cookie: nat, caller: string, reply: Reply)
    | CallerGone(cookie: nat, reply: Reply)
    | SetActiveProfile(profile: string, reply: Reply)
    | PlatformProfile(content: string, reply: Reply)
    | Battery(onBattery: bool, reply: Reply)
    | Deliver
    | OutsideSwitch(profile: string, reply: Reply)

  ghost function AddHold(c: Config, s: State, cookie: nat, h: Hold, r: Reply): State {
    var t := s.(holds := s.holds[cookie := h]);
    Switch(c, t, Some(Effective(t.holds)), r).0
  }

  ghost function RemoveHold(c: Config, s: State, cookie: nat, r: Reply): State {
    var t := s.(holds := s.holds - {cookie});
    Switch(c, t, Some(Expected(t)), r).0
  }

  ghost function SetActive(c: Config, s: State, profile: string, r: Reply): State {
    if profile !in PpdToTuned(c, s.onBattery) then s
    else
      var (t, o) := Switch(c, s.(holds := map[]), Some(profile), r);
      if o == Switched then t.(base := profile) else t
  }

  function PlatformMapping(content: string): Option<string> {
    if content == "low-power" then Some(POWER_SAVER)
    else if content == "balanced" then Some(BALANCED)
    else if content == "performance" then Some(PERFORMANCE)
    else None
  }

  /** The base profile follows the key even when TuneD refuses the switch. */
  ghost function PlatformKey(c: Config, s: State, content: string, r: Reply): State {
    match PlatformMapping(content)
    case None => s
    case Some(p) =>
      var (t, o) := Switch(c, s.(holds := map[]), Some(p), r);
      if o == Raised then t else t.(base := p)
  }

  ghost function BatteryChanged(c: Config, s: State, onBattery: bool, r: Reply): State {
    Switch(c, s.(onBattery := onBattery), s.active, r).0
  }

  /** `_tuned_profile_changed` for the signal at the head of the queue. */
  ghost function Handle(c: Config, s: State): State {
    if s.queue == [] then s
    else
      var signal, t := s.queue[0], s.(queue := s.queue[1..]);
      var p := PpdOf(c, signal.profile, s.onBattery);
      if !signal.ok || signal.profile != s.tuned || s.active == Some(p) then t
      else t.(holds := map[], active := Some(p), base := if p == UNKNOWN then s.base else p)
  }

  ghost function Step(c: Config, s: State, e: Event): State {
    match e
    case HoldProfile(cookie, profile, caller, r) =>
      if profile != POWER_SAVER && profile != PERFORMANCE then s else AddHold(c, s, cookie, Hold(profile, caller), r)
    case ReleaseProfile(cookie, caller, r) =>
      if cookie !in s.holds || s.holds[cookie].caller != caller then s else RemoveHold(c, s, cookie, r)
    case CallerGone(cookie, r) => RemoveHold(c, s, cookie, r)
    case SetActiveProfile(profile, r) => SetActive(c, s, profile, r)
    case PlatformProfile(content, r) => PlatformKey(c, s, content, r)
    case Battery(b, r) => BatteryChanged(c, s, b, r)
    case Deliver => Handle(c, s)
    case OutsideSwitch(profile, r) => TunedSwitch(s, profile, r)
  }

  ghost function Run(c: Config, s: State, es: seq<Event>): State
    decreases |es|
  {
    if es == [] then s else Run(c, Step(c, s, es[0]), es[1..])
  }

  // ----- The law of holds -----

  /** Profiles that occur in the state are in the map. */
  ghost predicate Mapped(c: Config, s: State) {
    && s.base in c.ac
    && (s.active.Some? ==> s.active.value in c.ac || s.active.value == UNKNOWN)
    && (forall k :: k in s.holds ==> s.holds[k].profile == POWER_SAVER || s.holds[k].profile == PERFORMANCE)
  }

  /** Unknown without holds, or what the holds and the base call for. */
  ghost predicate Law(s: State) {
    (s.active == Some(UNKNOWN) && s.holds == map[]) || s.active == Some(Expected(s))
  }

  /** A switch to a mapped profile changes no hold and no base, and ends with that profile active unless
      TuneD refuses. */
  lemma SwitchKeeps(c: Config, s: State, p: string, r: Reply)
    requires Valid(c) && p in c.ac
    ensures var (t, o) := Switch(c, s, Some(p), r);
            && t.holds == s.holds && t.base == s.base && t.onBattery == s.onBattery
            && (r.accepts ==> o == Switched)
            && (o == Switched || o == Refused)
            && t.active == if o == Switched then Some(p) else s.active
  {
    hide Valid;
    MapsAgree(c, p, s.onBattery);
  }

  /** Both maps have the same power profiles, the three standard ones among them. */
  lemma MapsAgree(c: Config, p: string, onBattery: bool)
    requires Valid(c)
    ensures p in PpdToTuned(c, onBattery) <==> p in c.ac
    ensures POWER_SAVER in c.ac && BALANCED in c.ac && PERFORMANCE in c.ac
  {
    hide Injective;
  }

  lemma ExpectedMapped(c: Config, s: State)
    requires Valid(c) && Mapped(c, s)
    ensures Expected(s) in c.ac
  {
  }

  lemma RemoveHoldKeeps(c: Config, s: State, cookie: nat, r: Reply)
    requires Valid(c) && Mapped(c, s)
    ensures Mapped(c, RemoveHold(c, s, cookie, r))
    ensures r.accepts ==> Law(RemoveHold(c, s, cookie, r))
  {
    hide Switch, Effective;
    var t := s.(holds := s.holds - {cookie});
    ExpectedMapped(c, t);
    SwitchKeeps(c, t, Expected(t), r);
  }

  lemma AddHoldKeeps(c: Config, s: State, cookie: nat, h: Hold, r: Reply)
    requires Valid(c) && Mapped(c, s) && (h.profile == POWER_SAVER || h.profile == PERFORMANCE)
    ensures Mapped(c, AddHold(c, s, cookie, h, r))
    ensures r.accepts ==> Law(AddHold(c, s, cookie, h, r))
  {
    hide Switch;
    var t := s.(holds := s.holds[cookie := h]);
    assert cookie in t.holds;
    SwitchKeeps(c, t, Effective(t.holds), r);
  }

  lemma SetActiveKeeps(c: Config, s: State, profile: string, r: Reply)
    requires Valid(c) && Mapped(c, s)
    ensures Mapped(c, SetActive(c, s, profile, r))
    ensures r.accepts && Law(s) ==> Law(SetActive(c, s, profile, r))
  {
    hide Switch, Effective;
    if profile in c.ac { SwitchKeeps(c, s.(holds := map[]), profile, r); }
  }

  lemma PlatformKeyKeeps(c: Config, s: State, content: string, r: Reply)
    requires Valid(c) && Mapped(c, s)
    ensures Mapped(c, PlatformKey(c, s, content, r))
    ensures r.accepts && Law(s) ==> Law(PlatformKey(c, s, content, r))
  {
    hide Switch, Effective, Valid;
    MapsAgree(c, s.base, s.onBattery);
    var p := PlatformMapping(content);
    if p.Some? { SwitchKeeps(c, s.(holds := map[]), p.value, r); }
  }

  lemma BatteryKeeps(c: Config, s: State, b: bool, r: Reply)
    requires Valid(c) && Mapped(c, s)
    ensures Mapped(c, BatteryChanged(c, s, b, r))
    ensures Law(s) ==> Law(BatteryChanged(c, s, b, r))
  {
    hide Effective;
    if s.active.Some? && s.active.value in c.ac { SwitchKeeps(c, s.(onBattery := b), s.active.value, r); }
  }

  lemma HandleKeeps(c: Config, s: State)
    requires Valid(c) && Mapped(c, s)
    ensures Mapped(c, Handle(c, s))
    ensures Law(s) ==> Law(Handle(c, s))
  {
    hide Effective, PpdOf, Valid;
    if s.queue != [] { PpdOfMapped(c, s.queue[0].profile, s.onBattery); }
  }

  lemma PpdOfMapped(c: Config, tuned: string, onBattery: bool)
    requires Valid(c)
    ensures PpdOf(c, tuned, onBattery) in c.ac || PpdOf(c, tuned, onBattery) == UNKNOWN
  {
    hide Valid;
    if tuned in TunedToPpd(c, onBattery) { Inverts(c, tuned, onBattery); }
  }

  /** The map back leads to a profile that is mapped to the given one. */
  lemma Inverts(c: Config, tuned: string, onBattery: bool)
    requires Valid(c) && tuned in TunedToPpd(c, onBattery)
    ensures var p := TunedToPpd(c, onBattery)[tuned];
            p in c.ac && p in PpdToTuned(c, onBattery) && PpdToTuned(c, onBattery)[p] == tuned
  {
    hide Injective;
    if onBattery {
      assert c.dcInverse[tuned] in c.dc;
    } else {
      assert c.acInverse[tuned] in c.ac;
    }
  }

  ghost predicate Accepted(e: Event) {
    e.Deliver? || e.OutsideSwitch? || e.reply.accepts
  }

  /** While TuneD accepts each request of tuned-ppd, every event keeps the law. */
  lemma StepLaw(c: Config, s: State, e: Event)
    requires Valid(c) && Mapped(c, s)
    ensures Mapped(c, Step(c, s, e))
    ensures Law(s) && Accepted(e) ==> Law(Step(c, s, e))
  {
    hide Valid, AddHold, RemoveHold, SetActive, PlatformKey, BatteryChanged, Handle, Effective;
    match e {
      case HoldProfile(cookie, profile, caller, r) =>
        if profile == POWER_SAVER || profile == PERFORMANCE { AddHoldKeeps(c, s, cookie, Hold(profile, caller), r); }
      case ReleaseProfile(cookie, caller, r) => RemoveHoldKeeps(c, s, cookie, r);
      case CallerGone(cookie, r) => RemoveHoldKeeps(c, s, cookie, r);
      case SetActiveProfile(profile, r) => SetActiveKeeps(c, s, profile, r);
      case PlatformProfile(content, r) => PlatformKeyKeeps(c, s, content, r);
      case Battery(b, r) => BatteryKeeps(c, s, b, r);
      case Deliver => HandleKeeps(c, s);
      case OutsideSwitch(profile, r) =>
    }
  }

  /** Main result: the law holds in every state reached while TuneD accepts the requests. */
  lemma {:induction false} RunLaw(c: Config, s: State, es: seq<Event>)
    requires Valid(c) && Mapped(c, s) && Law(s) && forall i :: 0 <= i < |es| ==> Accepted(es[i])
    ensures Mapped(c, Run(c, s, es)) && Law(Run(c, s, es))
    decreases |es|
  {
    hide Mapped, Law, Step, Valid;
    if es != [] {
      StepLaw(c, s, es[0]);
      RunLaw(c, Step(c, s, es[0]), es[1..]);
    }
  }

  /** TuneD accepts the switch to a profile, or has it already. */
  ghost predicate Obliges(c: Config, s: State, p: string, r: Reply) {
    r.accepts || (p in PpdToTuned(c, s.onBattery) && PpdToTuned(c, s.onBattery)[p] == s.tuned)
  }

  /** When an event keeps the law, whatever TuneD answers: TuneD obliges, or the profile that stays active is
      lawful for the holds and the base that the event leaves. */
  ghost predicate KeepsLaw(c: Config, s: State, e: Event) {
    match e
    case HoldProfile(cookie, profile, caller, r) =>
      var p := Effective(s.holds[cookie := Hold(profile, caller)]);
      (profile != POWER_SAVER && profile != PERFORMANCE) || Obliges(c, s, p, r) || s.active == Some(p)
    case ReleaseProfile(cookie, caller, r) =>
      cookie !in s.holds || s.holds[cookie].caller != caller || KeepsLawWithout(c, s, cookie, r)
    case CallerGone(cookie, r) => KeepsLawWithout(c, s, cookie, r)
    case SetActiveProfile(profile, r) =>
      profile !in c.ac || Obliges(c, s, profile, r) || s.active == Some(UNKNOWN) || s.active == Some(s.base)
    case PlatformProfile(content, r) =>
      var p := PlatformMapping(content);
      p.None? || Obliges(c, s, p.value, r) || s.active == Some(UNKNOWN) || s.active == p
    case _ => true
  }

  ghost predicate KeepsLawWithout(c: Config, s: State, cookie: nat, r: Reply) {
    var t := s.(holds := s.holds - {cookie});
    Obliges(c, s, Expected(t), r) || s.active == Some(Expected(t)) || (s.active == Some(UNKNOWN) && t.holds == map[])
  }

  lemma SwitchObliges(c: Config, s: State, p: string, r: Reply)
    requires Valid(c) && p in c.ac
    ensures Switch(c, s, Some(p), r).1 == Switched <==> Obliges(c, s, p, r)
  {
  }

  lemma AddHoldLawIff(c: Config, s: State, cookie: nat, h: Hold, r: Reply)
    requires Valid(c) && Mapped(c, s) && (h.profile == POWER_SAVER || h.profile == PERFORMANCE)
    ensures var p := Effective(s.holds[cookie := h]);
            Law(AddHold(c, s, cookie, h, r)) <==> Obliges(c, s, p, r) || s.active == Some(p)
  {
    hide Switch, Effective, Obliges, Mapped;
    var t := s.(holds := s.holds[cookie := h]);
    assert cookie in t.holds;
    HoldsMapped(c, t);
    SwitchKeeps(c, t, Effective(t.holds), r);
    SwitchObliges(c, t, Effective(t.holds), r);
    SameObliges(c, s, t, Effective(t.holds), r);
  }

  lemma SameObliges(c: Config, s: State, t: State, p: string, r: Reply)
    requires t.onBattery == s.onBattery && t.tuned == s.tuned
    ensures Obliges(c, s, p, r) <==> Obliges(c, t, p, r)
  {
  }

  lemma RemoveHoldLawIff(c: Config, s: State, cookie: nat, r: Reply)
    requires Valid(c) && Mapped(c, s)
    ensures Law(RemoveHold(c, s, cookie, r)) <==> KeepsLawWithout(c, s, cookie, r)
  {
    hide Switch, Effective, Obliges;
    var t := s.(holds := s.holds - {cookie});
    ExpectedMapped(c, t);
    SwitchKeeps(c, t, Expected(t), r);
    SwitchObliges(c, t, Expected(t), r);
    SameObliges(c, s, t, Expected(t), r);
  }

  lemma SetActiveLawIff(c: Config, s: State, profile: string, r: Reply)
    requires Valid(c) && Mapped(c, s) && Law(s)
    ensures Law(SetActive(c, s, profile, r)) <==>
            profile !in c.ac || Obliges(c, s, profile, r) || s.active == Some(UNKNOWN) || s.active == Some(s.base)
  {
    hide Switch, Effective, Obliges;
    var t := s.(holds := map[]);
    if profile in c.ac {
      SwitchKeeps(c, t, profile, r);
      SwitchObliges(c, t, profile, r);
      SameObliges(c, s, t, profile, r);
    }
  }

  lemma PlatformKeyLawIff(c: Config, s: State, content: string, r: Reply)
    requires Valid(c) && Mapped(c, s) && Law(s)
    ensures var p := PlatformMapping(content);
            Law(PlatformKey(c, s, content, r)) <==>
            p.None? || Obliges(c, s, p.value, r) || s.active == Some(UNKNOWN) || s.active == p
  {
    hide Switch, Effective, Obliges;
    var p := PlatformMapping(content);
    var t := s.(holds := map[]);
    if p.Some? {
      SwitchKeeps(c, t, p.value, r);
      SwitchObliges(c, t, p.value, r);
      SameObliges(c, s, t, p.value, r);
    }
  }

  /** Every event keeps the law exactly under that condition. */
  lemma StepLawIff(c: Config, s: State, e: Event)
    requires Valid(c) && Mapped(c, s) && Law(s)
    ensures Law(Step(c, s, e)) <==> KeepsLaw(c, s, e)
  {
    hide Valid, AddHold, RemoveHold, SetActive, PlatformKey, BatteryChanged, Handle, Effective, KeepsLawWithout, Obliges;
    match e {
      case HoldProfile(cookie, profile, caller, r) =>
        if profile == POWER_SAVER || profile == PERFORMANCE { AddHoldLawIff(c, s, cookie, Hold(profile, caller), r); }
      case ReleaseProfile(cookie, caller, r) => RemoveHoldLawIff(c, s, cookie, r);
      case CallerGone(cookie, r) => RemoveHoldLawIff(c, s, cookie, r);
      case SetActiveProfile(profile, r) => SetActiveLawIff(c, s, profile, r);
      case PlatformProfile(content, r) => PlatformKeyLawIff(c, s, content, r);
      case Battery(b, r) => BatteryKeeps(c, s, b, r);
      case Deliver => HandleKeeps(c, s);
      case OutsideSwitch(profile, r) =>
    }
  }

  /** A hold that TuneD refuses stays in force without its profile: the law is broken. */
  lemma RefusedHoldBreaksLaw(c: Config, s: State, cookie: nat, caller: string, running: bool)
    requires Valid(c) && Mapped(c, s) && s.holds == map[] && s.base == BALANCED && s.active == Some(BALANCED)
    requires PpdToTuned(c, s.onBattery)[PERFORMANCE] != s.tuned
    ensures Law(s) && !Law(Step(c, s, HoldProfile(cookie, PERFORMANCE, caller, Reply(false, running))))
  {
    hide Switch, AddHold, Valid;
    var h := Hold(PERFORMANCE, caller);
    AddHoldLawIff(c, s, cookie, h, Reply(false, running));
    assert s.holds[cookie := h] == map[cookie := h];
    assert Effective(map[cookie := h]) == PERFORMANCE;
  }

  lemma {:induction false} RunSnoc(c: Config, s: State, es: seq<Event>, e: Event)
    ensures Run(c, s, es + [e]) == Step(c, Run(c, s, es), e)
    decreases |es|
  {
    hide Step;
    if es == [] {
      assert [e][1..] == [] && es + [e] == [e];
    } else {
      assert (es + [e])[1..] == es[1..] + [e];
      RunSnoc(c, Step(c, s, es[0]), es[1..], e);
    }
  }

  /** The state after the first i events. */
  ghost function At(c: Config, s: State, es: seq<Event>, i: nat): State
    requires i <= |es|
  {
    Run(c, s, es[..i])
  }

  lemma AtNext(c: Config, s: State, es: seq<Event>, i: nat)
    requires i < |es|
    ensures At(c, s, es, i + 1) == Step(c, At(c, s, es, i), es[i])
  {
    assert es[..i + 1] == es[..i] + [es[i]];
    RunSnoc(c, s, es[..i], es[i]);
  }

  lemma {:induction false} AtMapped(c: Config, s: State, es: seq<Event>, i: nat)
    requires Valid(c) && Mapped(c, s) && i <= |es|
    ensures Mapped(c, At(c, s, es, i))
  {
    hide Mapped, Step, Valid, Law;
    if i == 0 {
      AtStart(c, s, es);
    } else {
      AtMapped(c, s, es, i - 1);
      AtNext(c, s, es, i - 1);
      StepLaw(c, At(c, s, es, i - 1), es[i - 1]);
    }
  }

  lemma AtStart(c: Config, s: State, es: seq<Event>)
    ensures At(c, s, es, 0) == s
  {
  }

  /** Main result: over any run, whatever TuneD answers, the law holds in every state exactly when every event
      keeps it in the state it meets. */
  lemma RunLawIff(c: Config, s: State, es: seq<Event>)
    requires Valid(c) && Mapped(c, s) && Law(s)
    ensures (forall i :: 0 <= i <= |es| ==> Law(At(c, s, es, i))) <==>
            (forall i :: 0 <= i < |es| ==> KeepsLaw(c, At(c, s, es, i), es[i]))
  {
    hide Mapped, Law, KeepsLaw, Step, Valid, At;
    if forall i :: 0 <= i <= |es| ==> Law(At(c, s, es, i)) {
      forall i | 0 <= i < |es| ensures KeepsLaw(c, At(c, s, es, i), es[i]) {
        AtNext(c, s, es, i);
        AtMapped(c, s, es, i);
        assert Law(At(c, s, es, i + 1));
        StepLawIff(c, At(c, s, es, i), es[i]);
      }
    }
    if forall i :: 0 <= i < |es| ==> KeepsLaw(c, At(c, s, es, i), es[i]) {
      forall i | 0 <= i <= |es| ensures Law(At(c, s, es, i)) { LawUpTo(c, s, es, i); }
    }
  }

  lemma {:induction false} LawUpTo(c: Config, s: State, es: seq<Event>, i: nat)
    requires Valid(c) && Mapped(c, s) && Law(s) && i <= |es|
    requires forall j :: 0 <= j < |es| ==> KeepsLaw(c, At(c, s, es, j), es[j])
    ensures Law(At(c, s, es, i))
  {
    hide Mapped, Law, KeepsLaw, Step, Valid, At;
    if i == 0 {
      AtStart(c, s, es);
    } else {
      LawUpTo(c, s, es, i - 1);
      AtNext(c, s, es, i - 1);
      AtMapped(c, s, es, i - 1);
      StepLawIff(c, At(c, s, es, i - 1), es[i - 1]);
    }
  }

  // ----- Agreement with TuneD -----

  /** The active profile is unknown or not set, or TuneD runs exactly its mapped profile. */
  ghost predicate Synced(c: Config, s: State) {
    s.active.None? || s.active.value == UNKNOWN ||
    (s.active.value in PpdToTuned(c, s.onBattery) && PpdToTuned(c, s.onBattery)[s.active.value] == s.tuned)
  }

  /** A signal for TuneD's current profile is still on its way. */
  ghost predicate Pending(s: State) {
    Signal(s.tuned, true) in s.queue
  }

  ghost predicate Tracked(c: Config, s: State) {
    Synced(c, s) || Pending(s)
  }

  /** With TuneD on that profile and no further signal from it, the active profile needs no correction. */
  ghost predicate NeedsNoSignal(c: Config, s: State, onBattery: bool, tuned: string) {
    || s.active.None? || s.active.value == UNKNOWN
    || (s.active.value in PpdToTuned(c, onBattery) && PpdToTuned(c, onBattery)[s.active.value] == tuned)
    || Signal(tuned, true) in s.queue
  }

  /** When an event keeps track of TuneD. Only a stopped TuneD can be lost sight of, by an outside switch or
      when it refuses the switch that a battery change asks for. */
  ghost predicate KeepsTrack(c: Config, s: State, e: Event) {
    match e
    case OutsideSwitch(profile, r) => r.running || !r.accepts || NeedsNoSignal(c, s, s.onBattery, profile)
    case Battery(b, r) => r.accepts || r.running || NeedsNoSignal(c, s, b, s.tuned)
    case _ => true
  }

  lemma TunedSwitchTracked(c: Config, s: State, profile: string, r: Reply)
    ensures var t := TunedSwitch(s, profile, r);
            && t.active == s.active && t.onBattery == s.onBattery
            && (r.running ==> Pending(t))
            && (!r.accepts ==> t.tuned == s.tuned && (Pending(s) ==> Pending(t)))
  {
    var t := TunedSwitch(s, profile, r);
    if r.running { assert t.queue[|t.queue| - 1] == Signal(t.tuned, true); }
    if !r.accepts && Pending(s) {
      var i :| 0 <= i < |s.queue| && s.queue[i] == Signal(s.tuned, true);
      assert t.queue[i] == s.queue[i];
    }
  }

  lemma SwitchTracked(c: Config, s: State, p: string, r: Reply)
    requires Valid(c) && p in c.ac
    ensures var (t, o) := Switch(c, s, Some(p), r);
            && (o == Switched ==> Synced(c, t))
            && (o == Refused ==> t.tuned == s.tuned && t.active == s.active && t.onBattery == s.onBattery &&
                                 (Pending(s) ==> Pending(t)) && (r.running ==> Pending(t)))
  {
    var m := PpdToTuned(c, s.onBattery);
    TunedSwitchTracked(c, s, m[p], r);
  }

  /** A request to switch keeps track of TuneD, whatever TuneD answers. */
  lemma SwitchKeepsTrack(c: Config, s: State, p: string, r: Reply)
    requires Valid(c) && p in c.ac && Tracked(c, s)
    ensures Tracked(c, Switch(c, s, Some(p), r).0)
  {
    hide Valid, Switch, Pending;
    SwitchKeeps(c, s, p, r);
    SwitchTracked(c, s, p, r);
  }

  lemma BatteryTrackedIff(c: Config, s: State, b: bool, r: Reply)
    requires Valid(c) && Mapped(c, s)
    ensures Tracked(c, BatteryChanged(c, s, b, r)) <==> r.accepts || r.running || NeedsNoSignal(c, s, b, s.tuned)
  {
    var m := PpdToTuned(c, b);
    var s' := s.(onBattery := b);
    if s.active.Some? && s.active.value in c.ac {
      SwitchTracked(c, s', s.active.value, r);
      if !r.accepts && !r.running && m[s.active.value] != s.tuned {
        RefusedQueue(s', m[s.active.value]);
      }
    }
  }

  /** A stopped TuneD that refuses a request announces only the refusal. */
  lemma RefusedQueue(s: State, profile: string)
    ensures var t := TunedSwitch(s, profile, Reply(false, false));
            t == s.(queue := t.queue) && (Pending(t) <==> Pending(s))
  {
    var t := TunedSwitch(s, profile, Reply(false, false));
    assert t.queue == s.queue + [Signal(profile, false)];
  }

  lemma OutsideSwitchTrackedIff(c: Config, s: State, profile: string, r: Reply)
    requires Tracked(c, s)
    ensures Tracked(c, TunedSwitch(s, profile, r)) <==>
            r.running || !r.accepts || NeedsNoSignal(c, s, s.onBattery, profile)
  {
    TunedSwitchTracked(c, s, profile, r);
    if !r.running && r.accepts { assert s.queue + [] == s.queue; }
  }

  lemma HandleTracked(c: Config, s: State)
    requires Valid(c) && Tracked(c, s)
    ensures Tracked(c, Handle(c, s))
  {
    if s.queue != [] {
      var signal := s.queue[0];
      if signal == Signal(s.tuned, true) {
        PpdOfSynced(c, s);
      } else if Pending(s) {
        var i :| 0 <= i < |s.queue| && s.queue[i] == Signal(s.tuned, true);
        assert s.queue[1..][i - 1] == Signal(s.tuned, true);
      }
    }
  }

  /** The profile a signal leads to is mapped back to TuneD's profile. */
  lemma PpdOfSynced(c: Config, s: State)
    requires Valid(c)
    ensures Synced(c, s.(active := Some(PpdOf(c, s.tuned, s.onBattery))))
  {
    hide Valid;
    if s.tuned in TunedToPpd(c, s.onBattery) { Inverts(c, s.tuned, s.onBattery); }
  }

  /** Every event keeps track of TuneD exactly under that condition. */
  lemma StepTrackedIff(c: Config, s: State, e: Event)
    requires Valid(c) && Mapped(c, s) && Tracked(c, s)
    ensures Tracked(c, Step(c, s, e)) <==> KeepsTrack(c, s, e)
  {
    hide Valid, Switch, Handle, Effective, Pending, Mapped, NeedsNoSignal;
    match e {
      case HoldProfile(cookie, profile, caller, r) =>
        if profile == POWER_SAVER || profile == PERFORMANCE {
          var t := s.(holds := s.holds[cookie := Hold(profile, caller)]);
          SameTuned(c, s, t);
          HoldsMapped(c, t);
          SwitchKeepsTrack(c, t, Effective(t.holds), r);
        }
      case ReleaseProfile(cookie, caller, r) => RemoveHoldTracked(c, s, cookie, r);
      case CallerGone(cookie, r) => RemoveHoldTracked(c, s, cookie, r);
      case SetActiveProfile(profile, r) => SetActiveTracked(c, s, profile, r);
      case PlatformProfile(content, r) => PlatformKeyTracked(c, s, content, r);
      case Battery(b, r) => BatteryTrackedIff(c, s, b, r);
      case Deliver => HandleTracked(c, s);
      case OutsideSwitch(profile, r) => OutsideSwitchTrackedIff(c, s, profile, r);
    }
  }

  /** Holds and base play no part in tracking. */
  lemma SameTuned(c: Config, s: State, t: State)
    requires t.active == s.active && t.onBattery == s.onBattery && t.tuned == s.tuned && t.queue == s.queue
    ensures Tracked(c, s) <==> Tracked(c, t)
  {
  }

  lemma HoldsMapped(c: Config, s: State)
    requires Valid(c)
    ensures Effective(s.holds) in c.ac
  {
  }

  lemma RemoveHoldTracked(c: Config, s: State, cookie: nat, r: Reply)
    requires Valid(c) && Mapped(c, s) && Tracked(c, s)
    ensures Tracked(c, RemoveHold(c, s, cookie, r))
  {
    hide Switch, Effective, Tracked, Injective;
    var t := s.(holds := s.holds - {cookie});
    SameTuned(c, s, t);
    ExpectedMapped(c, t);
    SwitchKeepsTrack(c, t, Expected(t), r);
  }

  lemma SetActiveTracked(c: Config, s: State, profile: string, r: Reply)
    requires Valid(c) && Tracked(c, s)
    ensures Tracked(c, SetActive(c, s, profile, r))
  {
    hide Switch, Tracked, Injective;
    if profile in c.ac {
      var t := s.(holds := map[]);
      SameTuned(c, s, t);
      SwitchKeepsTrack(c, t, profile, r);
      var u := Switch(c, t, Some(profile), r).0;
      SameTuned(c, u, u.(base := profile));
    }
  }

  lemma PlatformKeyTracked(c: Config, s: State, content: string, r: Reply)
    requires Valid(c) && Tracked(c, s)
    ensures Tracked(c, PlatformKey(c, s, content, r))
  {
    hide Switch, Tracked, Injective;
    var p := PlatformMapping(content);
    if p.Some? {
      var t := s.(holds := map[]);
      SameTuned(c, s, t);
      SwitchKeepsTrack(c, t, p.value, r);
      var u := Switch(c, t, Some(p.value), r).0;
      SameTuned(c, u, u.(base := p.value));
    }
  }

  /** Deliver every signal on its way. */
  ghost function Drain(c: Config, s: State): State
    decreases |s.queue|
  {
    if s.queue == [] then s else Drain(c, Handle(c, s))
  }

  lemma HandleTrackedIff(c: Config, s: State)
    requires Valid(c)
    ensures Tracked(c, Handle(c, s)) <==> Tracked(c, s)
  {
    if Tracked(c, s) {
      HandleTracked(c, s);
    } else if s.queue != [] {
      assert s.queue[0] != Signal(s.tuned, true);
    }
  }

  /** Delivering every signal brings the two in step exactly when track was kept. */
  lemma {:induction false} DrainSyncedIff(c: Config, s: State)
    requires Valid(c)
    ensures Drain(c, s).queue == [] && (Synced(c, Drain(c, s)) <==> Tracked(c, s))
    decreases |s.queue|
  {
    hide Synced, Valid;
    if s.queue != [] {
      HandleTrackedIff(c, s);
      DrainSyncedIff(c, Handle(c, s));
    }
  }

  lemma {:induction false} TrackedUpTo(c: Config, s: State, es: seq<Event>, i: nat)
    requires Valid(c) && Mapped(c, s) && Tracked(c, s) && i <= |es|
    requires forall j :: 0 <= j < i ==> KeepsTrack(c, At(c, s, es, j), es[j])
    ensures Tracked(c, At(c, s, es, i))
  {
    hide Mapped, Tracked, KeepsTrack, Step, Valid, At;
    if i == 0 {
      AtStart(c, s, es);
    } else {
      TrackedUpTo(c, s, es, i - 1);
      AtNext(c, s, es, i - 1);
      AtMapped(c, s, es, i - 1);
      StepTrackedIff(c, At(c, s, es, i - 1), es[i - 1]);
    }
  }

  /** The active profile is unknown, or TuneD runs exactly its mapped profile, once every signal is delivered. */
  ghost predicate InStep(c: Config, s: State) {
    Synced(c, Drain(c, s))
  }

  /** Main result: under any interleaving of holds, switches, platform keys, battery changes, signals and
      outside switches, and whatever TuneD answers, delivering the signals brings the two in step at every
      moment exactly when every event keeps track in the state it meets. */
  lemma RunThenDrainSynced(c: Config, s: State, es: seq<Event>)
    requires Valid(c) && Mapped(c, s) && Tracked(c, s)
    ensures (forall i :: 0 <= i <= |es| ==> InStep(c, At(c, s, es, i))) <==>
            (forall i :: 0 <= i < |es| ==> KeepsTrack(c, At(c, s, es, i), es[i]))
  {
    hide Mapped, Tracked, KeepsTrack, Step, Valid, At, Synced;
    forall i | 0 <= i <= |es| ensures InStep(c, At(c, s, es, i)) <==> Tracked(c, At(c, s, es, i)) {
      DrainSyncedIff(c, At(c, s, es, i));
    }
    if forall i :: 0 <= i <= |es| ==> InStep(c, At(c, s, es, i)) {
      forall i | 0 <= i < |es| ensures KeepsTrack(c, At(c, s, es, i), es[i]) {
        AtNext(c, s, es, i);
        AtMapped(c, s, es, i);
        assert InStep(c, At(c, s, es, i)) && InStep(c, At(c, s, es, i + 1));
        StepTrackedIff(c, At(c, s, es, i), es[i]);
      }
    }
    if forall i :: 0 <= i < |es| ==> KeepsTrack(c, At(c, s, es, i), es[i]) {
      forall i | 0 <= i <= |es| ensures InStep(c, At(c, s, es, i)) { TrackedUpTo(c, s, es, i); }
    }
  }

  /** While TuneD runs, no event can lose track of it. */
  lemma RunningIsTracked(c: Config, s: State, es: seq<Event>)
    requires Valid(c) && Mapped(c, s) && Tracked(c, s)
    requires forall i :: 0 <= i < |es| && !es[i].Deliver? ==> es[i].reply.running
    ensures Drain(c, Run(c, s, es)).queue == [] && Synced(c, Drain(c, Run(c, s, es)))
  {
    hide Mapped, Tracked, Step, Valid;
    TrackedUpTo(c, s, es, |es|);
    assert es[..|es|] == es;
    DrainSyncedIff(c, Run(c, s, es));
  }

  /** The active profile is the one TuneD's profile stands for. */
  ghost predicate Agree(c: Config, s: State) {
    s.active == Some(PpdOf(c, s.tuned, s.onBattery))
  }

  /** While they agree no signal changes holds, base or active profile; a signal for TuneD's current
      profile changes the active profile exactly when they do not agree, and then they do. */
  lemma SignalChangesIff(c: Config, s: State)
    requires s.queue != []
    ensures var t := Handle(c, s);
            && (Agree(c, s) ==> t == s.(queue := s.queue[1..]))
            && (s.queue[0] == Signal(s.tuned, true) ==> (t.active != s.active <==> !Agree(c, s)) && Agree(c, t))
  {
  }

  /** A known active profile that TuneD runs is one they agree on: the map can be inverted. */
  lemma SyncedAgrees(c: Config, s: State)
    requires Valid(c) && s.active.Some? && s.active.value in c.ac
    ensures s.active.value != UNKNOWN ==> (Synced(c, s) <==> Agree(c, s))
  {
    hide Injective;
  }

  /** An outside switch of a stopped TuneD is never announced: tuned-ppd stays on a profile that TuneD does
      not have. */
  lemma SilentSwitchIsMissed(c: Config, s: State, profile: string)
    requires Valid(c) && s.queue == [] && Synced(c, s) && s.active.Some? && s.active.value in c.ac
    requires s.active.value != UNKNOWN && profile != s.tuned
    ensures var t := Step(c, s, OutsideSwitch(profile, Reply(true, false)));
            Drain(c, t) == t && !Synced(c, t)
  {
  }

  /** A battery change that a stopped TuneD refuses to follow is never corrected: tuned-ppd keeps a profile that
      stands for another TuneD profile now. */
  lemma SilentBatteryIsMissed(c: Config, s: State, b: bool)
    requires Valid(c) && Mapped(c, s) && s.queue == [] && s.active.Some? && s.active.value in c.ac
    requires s.active.value != UNKNOWN && PpdToTuned(c, b)[s.active.value] != s.tuned
    ensures !InStep(c, Step(c, s, Battery(b, Reply(false, false))))
  {
    hide Drain, Valid;
    BatteryTrackedIff(c, s, b, Reply(false, false));
    DrainSyncedIff(c, BatteryChanged(c, s, b, Reply(false, false)));
  }

  // ----- Initialisation -----

  /** The base profile on start-up: the saved one, else the one TuneD's recommendation stands for, else the
      configured default. */
  function StartupBase(c: Config, saved: string, recommended: string, onBattery: bool): string {
    if saved != "" then saved
    else if recommended in TunedToPpd(c, onBattery) && TunedToPpd(c, onBattery)[recommended] != "" then
      TunedToPpd(c, onBattery)[recommended]
    else c.defaultProfile
  }

  /** `initialize`; a base profile that is not in the map raises. */
  function Initialize(c: Config, saved: string, recommended: string, onBattery: bool, tuned: string, r: Reply): (State, Outcome) {
    var base := StartupBase(c, saved, recommended, onBattery);
    Switch(c, State(map[], None, base, onBattery, tuned, []), Some(base), r)
  }

  /** Initialisation raises exactly when a profile outside the map was saved; otherwise the controller
      starts in a tracked state, and lawful if TuneD accepts. */
  lemma InitializeStarts(c: Config, saved: string, recommended: string, onBattery: bool, tuned: string, r: Reply)
    requires Valid(c)
    ensures var (s, o) := Initialize(c, saved, recommended, onBattery, tuned, r);
            && (o == Raised <==> saved != "" && saved !in c.ac)
            && (o != Raised ==> Mapped(c, s) && Tracked(c, s) && (r.accepts ==> Law(s)))
  {
    hide Switch, Tracked, Valid;
    StartupBaseMapped(c, saved, recommended, onBattery);
    var base := StartupBase(c, saved, recommended, onBattery);
    var s := State(map[], None, base, onBattery, tuned, []);
    if base in c.ac {
      SwitchKeeps(c, s, base, r);
      assert Tracked(c, s) by { NotSetIsTracked(c, s); }
      SwitchKeepsTrack(c, s, base, r);
    } else {
      UnmappedRaises(c, s, base, r);
    }
  }

  lemma StartupBaseMapped(c: Config, saved: string, recommended: string, onBattery: bool)
    requires Valid(c)
    ensures StartupBase(c, saved, recommended, onBattery) in c.ac <==> saved == "" || saved in c.ac
  {
    if recommended in TunedToPpd(c, onBattery) { Inverts(c, recommended, onBattery); }
  }

  lemma NotSetIsTracked(c: Config, s: State)
    requires s.active.None?
    ensures Tracked(c, s)
  {
  }

  lemma UnmappedRaises(c: Config, s: State, p: string, r: Reply)
    requires Valid(c) && p !in c.ac
    ensures Switch(c, s, Some(p), r).1 == Raised
  {
  }
}
