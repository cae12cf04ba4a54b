/** The tuned-ppd configuration: the mapping between power profiles and TuneD profiles on mains power and
    on battery, validated so that it can be inverted (tuned/ppd/config.py). */
module PpdConfig {
  import opened Text

  const POWER_SAVER := "power-saver"
  const BALANCED := "balanced"
  const PERFORMANCE := "performance"

  /** The parsed configuration file; an absent section or option is `None`. */
  datatype File = File(
    profiles: Option<map<string, string>>,
    battery: Option<map<string, string>>,
    defaultProfile: Option<string>,
    batteryDetection: Option<bool>)

  /** `ac` and `dc` map power profiles to TuneD profiles, `acInverse` and `dcInverse` map back. */
  datatype Config = Config(
    ac: map<string, string>,
    dc: map<string, string>,
    acInverse: map<string, string>,
    dcInverse: map<string, string>,
    defaultProfile: string)

  datatype Error =
    | MissingProfiles | MissingProfile(name: string) | DefaultMissing | MissingBattery
    | UnknownTuned | UnknownPpd | Duplicate

  datatype Result = Loaded(config: Config) | Failed(error: Error)

  ghost predicate Injective(m: map<string, string>) {
    forall k, l :: k in m && l in m && k != l ==> m[k] != m[l]
  }

  /** `{v: k for k, v in m.items()}`; on equal values one of the keys is kept. */
  ghost function Invert(m: map<string, string>): map<string, string> {
    map v | v in m.Values :: (var k :| k in m && m[k] == v; k)
  }

  function Detection(f: File): bool {
    if f.batteryDetection.Some? then f.batteryDetection.value else f.battery.Some?
  }

  /** What the file says about a power profile on battery. */
  ghost function OnBattery(f: File): map<string, string>
    requires f.profiles.Some? && (Detection(f) ==> f.battery.Some?)
  {
    if Detection(f) then f.profiles.value + f.battery.value else f.profiles.value
  }

  ghost function Load(f: File, tuned: set<string>): Result {
    if f.profiles.None? then Failed(MissingProfiles)
    else
      var ac := f.profiles.value;
      var default := if f.defaultProfile.Some? then f.defaultProfile.value else BALANCED;
      if POWER_SAVER !in ac then Failed(MissingProfile(POWER_SAVER))
      else if BALANCED !in ac then Failed(MissingProfile(BALANCED))
      else if PERFORMANCE !in ac then Failed(MissingProfile(PERFORMANCE))
      else if default !in ac then Failed(DefaultMissing)
      else if Detection(f) && f.battery.None? then Failed(MissingBattery)
      else
        var dc := OnBattery(f);
        if !(ac.Values + dc.Values <= tuned) then Failed(UnknownTuned)
        else if dc.Keys - ac.Keys != {} then Failed(UnknownPpd)
        else if |ac.Values| != |ac| || |dc.Values| != |dc| then Failed(Duplicate)
        else Loaded(Config(ac, dc, Invert(ac), Invert(dc), default))
  }

  // ----- The size check is the injectivity check -----

  lemma DropKey(m: map<string, string>, k: string)
    requires k in m
    ensures var r := m - {k};
            |r| == |m| - 1 && m.Values == r.Values + {m[k]} && r.Keys == m.Keys - {k}
  {
    var r := m - {k};
    assert r.Keys == m.Keys - {k};
    forall v | v in m.Values ensures v in r.Values + {m[k]} {
      var l :| l in m && m[l] == v;
      if l != k { assert l in r && r[l] == v; }
    }
    forall v | v in r.Values + {m[k]} ensures v in m.Values {
      if v in r.Values {
        var l :| l in r && r[l] == v;
        assert l in m && m[l] == v;
      }
    }
  }

  lemma {:induction false} ValuesAtMostKeys(m: map<string, string>)
    ensures |m.Values| <= |m|
    decreases |m|
  {
    if m != map[] {
      var k :| k in m;
      DropKey(m, k);
      ValuesAtMostKeys(m - {k});
    } else {
      assert m.Values == {};
    }
  }

  /** A mapping has as many values as keys exactly when it is injective. */
  lemma {:induction false} SizeCheckIsInjectivity(m: map<string, string>)
    ensures |m.Values| == |m| <==> Injective(m)
    decreases |m|
  {
    if m == map[] {
      assert m.Values == {};
    } else {
      var k :| k in m;
      var r := m - {k};
      DropKey(m, k);
      ValuesAtMostKeys(r);
      SizeCheckIsInjectivity(r);
      if m[k] in r.Values {
        var l :| l in r && r[l] == m[k];
        assert m.Values == r.Values;
        assert !Injective(m);
      } else {
        assert |m.Values| == |r.Values| + 1;
        assert Injective(r) ==> Injective(m) by {
          if Injective(r) {
            forall a, b | a in m && b in m && a != b ensures m[a] != m[b] {
              if a == k {
                assert b in r && r[b] in r.Values;
              } else if b == k {
                assert a in r && r[a] in r.Values;
              } else {
                assert a in r && b in r;
              }
            }
          }
        }
        assert Injective(m) ==> Injective(r);
      }
    }
  }

  lemma InvertInjective(m: map<string, string>)
    requires Injective(m)
    ensures forall k, v :: (k in m && m[k] == v) <==> (v in Invert(m) && Invert(m)[v] == k)
  {
    forall k, v | k in m && m[k] == v ensures v in Invert(m) && Invert(m)[v] == k {
      assert v in m.Values;
    }
  }

  /** What the rest of the daemon relies on. */
  ghost predicate Valid(c: Config) {
    && c.ac.Keys == c.dc.Keys
    && POWER_SAVER in c.ac && BALANCED in c.ac && PERFORMANCE in c.ac && c.defaultProfile in c.ac
    && Injective(c.ac) && Injective(c.dc)
    && (forall k, v :: (k in c.ac && c.ac[k] == v) <==> (v in c.acInverse && c.acInverse[v] == k))
    && (forall k, v :: (k in c.dc && c.dc[k] == v) <==> (v in c.dcInverse && c.dcInverse[v] == k))
  }

  /** Every configuration that loads maps the same power profiles on mains and on battery, injectively,
      and its inverse maps are inverses. */
  lemma LoadedIsValid(f: File, tuned: set<string>)
    ensures Load(f, tuned).Loaded? ==> Valid(Load(f, tuned).config)
  {
    var r := Load(f, tuned);
    if r.Loaded? {
      forall k | k in r.config.dc ensures k in r.config.ac {
        assert k !in r.config.dc.Keys - r.config.ac.Keys;
      }
      SizeCheckIsInjectivity(r.config.ac);
      SizeCheckIsInjectivity(r.config.dc);
      InvertInjective(r.config.ac);
      InvertInjective(r.config.dc);
    }
  }

  /** The file passes every check but the one for duplicates. */
  ghost predicate PassesOtherChecks(f: File, tuned: set<string>) {
    && f.profiles.Some?
    && POWER_SAVER in f.profiles.value && BALANCED in f.profiles.value && PERFORMANCE in f.profiles.value
    && (f.defaultProfile.Some? ==> f.defaultProfile.value in f.profiles.value)
    && (Detection(f) ==> f.battery.Some? && forall k :: k in f.battery.value ==> k in f.profiles.value)
    && (forall k :: k in f.profiles.value ==> f.profiles.value[k] in tuned)
    && (forall k :: k in OnBattery(f) ==> OnBattery(f)[k] in tuned)
  }

  lemma ValuesIn(m: map<string, string>, S: set<string>)
    ensures m.Values <= S <==> forall k :: k in m ==> m[k] in S
  {
    if m.Values <= S {
      forall k | k in m ensures m[k] in S { assert m[k] in m.Values; }
    }
  }

  /** A file loads exactly when it passes the other checks and is injective on mains and on battery; it is refused
      for duplicates exactly when only that fails. */
  lemma DuplicatesAreRefused(f: File, tuned: set<string>)
    ensures Load(f, tuned).Loaded? <==>
            PassesOtherChecks(f, tuned) && Injective(f.profiles.value) && Injective(OnBattery(f))
    ensures Load(f, tuned) == Failed(Duplicate) <==>
            PassesOtherChecks(f, tuned) && !(Injective(f.profiles.value) && Injective(OnBattery(f)))
  {
    hide Injective;
    if f.profiles.Some? && (Detection(f) ==> f.battery.Some?) {
      var ac, dc := f.profiles.value, OnBattery(f);
      SizeCheckIsInjectivity(ac);
      SizeCheckIsInjectivity(dc);
      ValuesIn(ac, tuned);
      ValuesIn(dc, tuned);
      if Detection(f) {
        assert dc.Keys == ac.Keys + f.battery.value.Keys;
        assert dc.Keys - ac.Keys == {} <==> forall k :: k in f.battery.value ==> k in ac by {
          if dc.Keys - ac.Keys == {} {
            forall k | k in f.battery.value ensures k in ac { assert k !in dc.Keys - ac.Keys; }
          }
        }
      } else {
        assert dc.Keys - ac.Keys == {};
      }
    }
  }
}
