/** The tuned-ppd controller object: each event method is proved to take the step of the state machine
    (tuned/ppd/controller.py). */
module PpdController {
  import opened Text
  import opened PpdConfig
  import opened PpdModel

  class Controller {
    const config: Config
    var holds: map<nat, Hold>
    var active: Option<string>
    var base: string
    var onBattery: bool
    /** The other daemon: its active profile, and the signals it has sent and this one has not handled. */
    var tuned: string
    var queue: seq<Signal>

    ghost function View(): State
      reads this
    {
      State(holds, active, base, onBattery, tuned, queue)
    }

    /** Set the TuneD profile unless TuneD has it already. */
    method SetTunedProfile(profile: string, r: Reply) returns (ok: bool)
      modifies this`tuned, this`queue
      ensures View() == if old(tuned) == profile then old(View()) else TunedSwitch(old(View()), profile, r)
      ensures ok == (old(tuned) == profile || r.accepts)
    {
      if tuned == profile {
        return true;
      }
      if r.accepts {
        queue := queue + Announce(profile, r.running);
        tuned := profile;
      } else {
        queue := queue + [Signal(profile, false)] + Announce(tuned, r.running);
      }
      ok := r.accepts;
    }

    method SwitchProfile(profile: Option<string>, r: Reply) returns (o: Outcome)
      modifies this`active, this`tuned, this`queue
      ensures (View(), o) == Switch(config, old(View()), profile, r)
    {
      var m := PpdToTuned(config, onBattery);
      if profile.None? || profile.value !in m {
        return Raised;
      }
      var ok := SetTunedProfile(m[profile.value], r);
      if !ok {
        return Refused;
      }
      if active != profile {
        active := profile;
      }
      o := Switched;
    }

    // ----- Holds -----

    method EffectiveHoldProfile() returns (profile: string)
      ensures profile == Effective(holds)
    {
      var left := holds.Keys;
      while left != {}
        invariant left <= holds.Keys
        invariant forall k :: k in holds && k !in left ==> holds[k].profile != POWER_SAVER
        decreases left
      {
        var k :| k in left;
        if holds[k].profile == POWER_SAVER {
          return POWER_SAVER;
        }
        left := left - {k};
      }
      profile := PERFORMANCE;
    }

    method Cancel(cookie: nat)
      modifies this`holds
      ensures holds == old(holds) - {cookie}
    {
      holds := holds - {cookie};
    }

    method ClearHolds()
      modifies this`holds
      ensures holds == map[]
    {
      var left := holds.Keys;
      while left != {}
        invariant holds.Keys == left
        decreases left
      {
        var cookie :| cookie in left;
        Cancel(cookie);
        left := left - {cookie};
      }
    }

    /** `cookie` is the fresh nonzero number drawn for the hold. */
    method Add(cookie: nat, h: Hold, r: Reply)
      requires cookie != 0 && cookie !in holds
      modifies this
      ensures View() == AddHold(config, old(View()), cookie, h, r)
    {
      holds := holds[cookie := h];
      var profile := EffectiveHoldProfile();
      var o := SwitchProfile(Some(profile), r);
    }

    method Remove(cookie: nat, r: Reply)
      modifies this
      ensures View() == RemoveHold(config, old(View()), cookie, r)
    {
      Cancel(cookie);
      var profile := base;
      if holds != map[] {
        profile := EffectiveHoldProfile();
      }
      var o := SwitchProfile(Some(profile), r);
    }

    // ----- Events -----

    method OnHoldProfile(cookie: nat, profile: string, caller: string, r: Reply) returns (raised: bool)
      requires cookie != 0 && cookie !in holds
      modifies this
      ensures View() == Step(config, old(View()), Event.HoldProfile(cookie, profile, caller, r))
      ensures raised <==> profile != POWER_SAVER && profile != PERFORMANCE
    {
      raised := profile != POWER_SAVER && profile != PERFORMANCE;
      if !raised {
        Add(cookie, Hold(profile, caller), r);
      }
    }

    method OnReleaseProfile(cookie: nat, caller: string, r: Reply) returns (raised: bool)
      modifies this
      ensures View() == Step(config, old(View()), Event.ReleaseProfile(cookie, caller, r))
      ensures raised <==> cookie !in old(holds) || old(holds)[cookie].caller != caller
    {
      raised := cookie !in holds || holds[cookie].caller != caller;
      if !raised {
        Remove(cookie, r);
      }
    }

    method OnCallerGone(cookie: nat, r: Reply)
      modifies this
      ensures View() == Step(config, old(View()), Event.CallerGone(cookie, r))
    {
      Remove(cookie, r);
    }

    method OnSetActiveProfile(profile: string, r: Reply) returns (raised: bool)
      modifies this
      ensures View() == Step(config, old(View()), Event.SetActiveProfile(profile, r))
      ensures raised <==> profile !in PpdToTuned(config, old(onBattery)) ||
                          Switch(config, old(View()).(holds := map[]), Some(profile), r).1 != Switched
    {
      if profile !in PpdToTuned(config, onBattery) {
        return true;
      }
      ClearHolds();
      var o := SwitchProfile(Some(profile), r);
      if o != Switched {
        return true;
      }
      base := profile;
      raised := false;
    }

    method OnPlatformProfile(content: string, r: Reply)
      modifies this
      ensures View() == Step(config, old(View()), Event.PlatformProfile(content, r))
    {
      var p := PlatformMapping(content);
      if p.None? {
        return;
      }
      ClearHolds();
      var o := SwitchProfile(p, r);
      if o == Raised {
        return;
      }
      base := p.value;
    }

    method OnBatteryChanged(b: bool, r: Reply)
      modifies this
      ensures View() == Step(config, old(View()), Event.Battery(b, r))
    {
      onBattery := b;
      var o := SwitchProfile(active, r);
    }

    /** Handle the oldest signal. */
    method OnTunedProfileChanged()
      requires queue != []
      modifies this
      ensures View() == Step(config, old(View()), Deliver)
    {
      var signal := queue[0];
      queue := queue[1..];
      if !signal.ok {
        return;
      }
      if signal.profile != tuned {
        return;
      }
      var profile := PpdOf(config, signal.profile, onBattery);
      if active != Some(profile) {
        ClearHolds();
        active := Some(profile);
        if profile != UNKNOWN {
          base := profile;
        }
      }
    }
  }
}
