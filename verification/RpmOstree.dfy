/** Kernel arguments on rpm-ostree systems: the bootloader plugin appends the arguments of a profile, records
    what it appended, and takes exactly that back (tuned/plugins/plugin_bootloader.py). */
module RpmOstree {
  import opened Text

  /** A kernel argument, a word of the command line. */
  type Karg(==, !new)

  /** The deployment's arguments, and the ones recorded in /etc/tuned/bootcmdline. */
  datatype State = State(active: seq<Karg>, recorded: seq<Karg>)

  /** `list.remove`: the first occurrence goes; `None` stands for `ValueError`. */
  function RemoveOne(l: seq<Karg>, k: Karg): Option<seq<Karg>> {
    if l == [] then None
    else if l[0] == k then Some(l[1..])
    else
      match RemoveOne(l[1..], k)
      case None => None
      case Some(rest) => Some([l[0]] + rest)
  }

  function RemoveEach(l: seq<Karg>, ks: seq<Karg>): Option<seq<Karg>> {
    if ks == [] then Some(l)
    else
      match RemoveEach(l, ks[..|ks| - 1])
      case None => None
      case Some(rest) => RemoveOne(rest, ks[|ks| - 1])
  }

  /** The arguments of the profile that are not there yet. */
  function NotIn(profile: seq<Karg>, l: seq<Karg>): seq<Karg> {
    if profile == [] then []
    else NotIn(profile[..|profile| - 1], l) + if profile[|profile| - 1] in l then [] else [profile[|profile| - 1]]
  }

  /** `rpm-ostree kargs`: all deletions and additions, or nothing when it fails, as it does on an argument that
      is not there; `accepted` stands for the other reasons to fail. */
  function Modify(active: seq<Karg>, delete: seq<Karg>, append: seq<Karg>, accepted: bool): Option<seq<Karg>> {
    match RemoveEach(active, delete)
    case None => None
    case Some(rest) => if accepted then Some(rest + append) else None
  }

  /** `None` when removing a recorded argument raises `ValueError`. */
  function Update(s: State, profile: seq<Karg>, readable: bool, accepted: bool): Option<State> {
    if !readable then Some(s)
    else
      match RemoveEach(s.active, s.recorded)
      case None => None
      case Some(others) =>
        var append := NotIn(profile, others);
        if s.recorded == append then Some(s)
        else
          match Modify(s.active, s.recorded, append, accepted)
          case None => Some(s)
          case Some(active) => Some(State(active, append))
  }

  /** The record is cleared whether or not the arguments could be deleted. */
  function Remove(s: State, accepted: bool): State {
    match Modify(s.active, s.recorded, [], accepted)
    case None => s.(recorded := [])
    case Some(active) => State(active, [])
  }

  // ----- Removal of a list -----

  lemma {:induction false} RemoveOneSpec(l: seq<Karg>, k: Karg)
    ensures RemoveOne(l, k).Some? <==> k in l
    ensures k in l ==> multiset(RemoveOne(l, k).value) == multiset(l) - multiset{k}
  {
    if l != [] {
      RemoveOneSpec(l[1..], k);
      assert l == [l[0]] + l[1..];
    }
  }

  /** Removing a list of arguments works exactly when they are all there, each as often as it is listed. */
  lemma {:induction false} RemoveEachSpec(l: seq<Karg>, ks: seq<Karg>)
    ensures RemoveEach(l, ks).Some? <==> multiset(ks) <= multiset(l)
    ensures multiset(ks) <= multiset(l) ==> multiset(RemoveEach(l, ks).value) == multiset(l) - multiset(ks)
  {
    if ks != [] {
      var front, k := ks[..|ks| - 1], ks[|ks| - 1];
      RemoveEachSpec(l, front);
      assert multiset(ks) == multiset(front) + multiset{k} by { assert ks == front + [k]; }
      if multiset(front) <= multiset(l) {
        var rest := RemoveEach(l, front).value;
        RemoveOneSpec(rest, k);
        assert k in rest <==> k in multiset(rest);
        assert k in multiset(l) - multiset(front) <==> multiset(ks) <= multiset(l) by {
          assert k in multiset(l) - multiset(front) <==> multiset(front)[k] + 1 <= multiset(l)[k];
        }
      }
    }
  }

  lemma {:induction false} NotInSpec(profile: seq<Karg>, l: seq<Karg>, k: Karg)
    ensures k in NotIn(profile, l) <==> k in profile && k !in l
  {
    if profile != [] {
      NotInSpec(profile[..|profile| - 1], l, k);
      assert profile == profile[..|profile| - 1] + [profile[|profile| - 1]];
    }
  }

  lemma {:induction false} NotInSame(profile: seq<Karg>, l: seq<Karg>, m: seq<Karg>)
    requires multiset(l) == multiset(m)
    ensures NotIn(profile, l) == NotIn(profile, m)
  {
    if profile != [] {
      NotInSame(profile[..|profile| - 1], l, m);
      var k := profile[|profile| - 1];
      assert k in l <==> k in multiset(l);
    }
  }

  // ----- The invariant -----

  /** The deployment has the user's arguments and the recorded ones, and these share no value. */
  ghost predicate Accounted(s: State, user: seq<Karg>) {
    && multiset(s.active) == multiset(user) + multiset(s.recorded)
    && forall k :: k in s.recorded ==> k !in user
  }

  lemma UserPart(s: State, user: seq<Karg>)
    requires Accounted(s, user)
    ensures RemoveEach(s.active, s.recorded).Some?
    ensures multiset(RemoveEach(s.active, s.recorded).value) == multiset(user)
  {
    RemoveEachSpec(s.active, s.recorded);
  }

  lemma NotInAccounted(user: seq<Karg>, profile: seq<Karg>, others: seq<Karg>)
    requires multiset(others) == multiset(user)
    ensures Accounted(State(others + NotIn(profile, others), NotIn(profile, others)), user)
  {
    NotInSame(profile, others, user);
    forall k | k in NotIn(profile, user) ensures k !in user { NotInSpec(profile, user, k); }
  }

  /** An update never raises, keeps the account, and records precisely the profile's arguments that the user
      does not have, unless it could not read or modify the arguments. */
  lemma UpdateKeeps(s: State, user: seq<Karg>, profile: seq<Karg>, readable: bool, accepted: bool)
    requires Accounted(s, user)
    ensures var r := Update(s, profile, readable, accepted);
            && r.Some? && Accounted(r.value, user)
            && (readable && accepted ==> r.value.recorded == NotIn(profile, user))
            && (!readable || !accepted ==> r.value == s)
  {
    hide RemoveEach, NotIn, Accounted;
    UserPart(s, user);
    var others := RemoveEach(s.active, s.recorded).value;
    NotInAccounted(user, profile, others);
    NotInSame(profile, others, user);
  }

  /** Every argument of the profile is then active. */
  lemma UpdateApplies(s: State, user: seq<Karg>, profile: seq<Karg>, k: Karg)
    requires Accounted(s, user) && k in profile
    ensures Update(s, profile, true, true).Some? && k in Update(s, profile, true, true).value.active
  {
    hide Update;
    UpdateKeeps(s, user, profile, true, true);
    var r := Update(s, profile, true, true).value;
    NotInSpec(profile, user, k);
    assert k in multiset(user) + multiset(r.recorded);
    assert k in multiset(r.active);
  }

  lemma CountSnoc(l: seq<Karg>, x: Karg, k: Karg)
    ensures multiset(l + [x])[k] == multiset(l)[k] + if x == k then 1 else 0
  {
  }

  lemma NotInSnoc(front: seq<Karg>, x: Karg, l: seq<Karg>)
    ensures NotIn(front + [x], l) == if x in l then NotIn(front, l) else NotIn(front, l) + [x]
  {
    assert (front + [x])[..|front|] == front;
    assert NotIn(front, l) + [] == NotIn(front, l);
  }

  lemma {:induction false} NotInCount(profile: seq<Karg>, l: seq<Karg>, k: Karg)
    ensures multiset(NotIn(profile, l))[k] == if k in l then 0 else multiset(profile)[k]
  {
    if profile != [] {
      hide NotIn;
      var front, x := profile[..|profile| - 1], profile[|profile| - 1];
      assert profile == front + [x];
      NotInCount(front, l, k);
      NotInSnoc(front, x, l);
      CountSnoc(front, x, k);
      CountSnoc(NotIn(front, l), x, k);
    }
  }

  /** After an update that goes through, each argument is there as often as the user has it, and as often as the profile
      lists it if the user has it not at all; what was recorded before is gone. */
  lemma UpdateActive(s: State, user: seq<Karg>, profile: seq<Karg>, k: Karg)
    requires Accounted(s, user)
    ensures var r := Update(s, profile, true, true);
            && r.Some? && multiset(r.value.active)[k] == multiset(user)[k] + (if k in user then 0 else multiset(profile)[k])
            && multiset(r.value.recorded)[k] == if k in user then 0 else multiset(profile)[k]
  {
    hide Update;
    UpdateKeeps(s, user, profile, true, true);
    NotInCount(profile, user, k);
  }

  /** A second update with the same profile, as after a reboot, changes nothing, whatever rpm-ostree would do. */
  lemma UpdateTwice(s: State, user: seq<Karg>, profile: seq<Karg>, readable: bool, accepted: bool)
    requires Accounted(s, user)
    ensures var r := Update(s, profile, true, true);
            r.Some? && Update(r.value, profile, readable, accepted) == r
  {
    hide RemoveEach, NotIn, Accounted, Modify;
    UpdateKeeps(s, user, profile, true, true);
    var r := Update(s, profile, true, true).value;
    UserPart(r, user);
    NotInSame(profile, RemoveEach(r.active, r.recorded).value, user);
  }

  /** Removal gives the user's arguments back exactly when rpm-ostree accepts it or nothing was recorded. */
  lemma RemoveRestoresIff(s: State, user: seq<Karg>, accepted: bool)
    requires Accounted(s, user)
    ensures var r := Remove(s, accepted);
            && r.recorded == []
            && (multiset(r.active) == multiset(user) <==> accepted || s.recorded == [])
            && (Accounted(r, user) <==> accepted || s.recorded == [])
            && (!accepted ==> r.active == s.active)
  {
    UserPart(s, user);
    var rest := RemoveEach(s.active, s.recorded).value;
    assert rest + [] == rest;
    if !accepted && s.recorded != [] {
      assert |multiset(s.active)| == |multiset(user)| + |multiset(s.recorded)|;
      assert |multiset(s.recorded)| == |s.recorded|;
    }
  }

  // ----- Runs -----

  datatype Event = Updating(profile: seq<Karg>, readable: bool, accepted: bool) | Removing(accepted: bool)

  function Step(s: State, e: Event): Option<State> {
    match e
    case Updating(profile, readable, accepted) => Update(s, profile, readable, accepted)
    case Removing(accepted) => Some(Remove(s, accepted))
  }

  function Run(s: State, es: seq<Event>): Option<State> {
    if es == [] then Some(s)
    else
      match Run(s, es[..|es| - 1])
      case None => None
      case Some(t) => Step(t, es[|es| - 1])
  }

  /** No removal is refused by rpm-ostree; updates may fail in any way. */
  ghost predicate RemovalsAccepted(es: seq<Event>) {
    forall i :: 0 <= i < |es| && es[i].Removing? ==> es[i].accepted
  }

  /** Main result: over any run from a system that TuneD has not touched, no update raises, the arguments are
      the user's plus the recorded ones, which share no value, and a removal restores the user's arguments. */
  lemma {:induction false} RunAccounted(user: seq<Karg>, es: seq<Event>)
    requires RemovalsAccepted(es)
    ensures var r := Run(State(user, []), es);
            && r.Some? && Accounted(r.value, user)
            && multiset(Remove(r.value, true).active) == multiset(user)
  {
    hide Update, Remove;
    if es == [] {
      assert Accounted(State(user, []), user);
    } else {
      var front, e := es[..|es| - 1], es[|es| - 1];
      RunAccounted(user, front);
      var s := Run(State(user, []), front).value;
      match e
      case Updating(profile, readable, accepted) => UpdateKeeps(s, user, profile, readable, accepted);
      case Removing(accepted) => RemoveRestoresIff(s, user, accepted);
    }
    RemoveRestoresIff(Run(State(user, []), es).value, user, true);
  }

  /** No update of any run raises: the arguments are always accounted to somebody. */
  lemma {:induction false} RunNeverRaises(user: seq<Karg>, es: seq<Event>)
    ensures Run(State(user, []), es).Some?
    ensures exists u :: Accounted(Run(State(user, []), es).value, u)
  {
    hide Update, Remove, Accounted;
    if es == [] {
      Untouched(user);
    } else {
      var front, e := es[..|es| - 1], es[|es| - 1];
      RunNeverRaises(user, front);
      var s := Run(State(user, []), front).value;
      var u :| Accounted(s, u);
      match e
      case Updating(profile, readable, accepted) => UpdateKeeps(s, u, profile, readable, accepted);
      case Removing(accepted) => RemovalAccounted(s, u, accepted);
    }
  }

  lemma Untouched(user: seq<Karg>)
    ensures Accounted(State(user, []), user)
  {
  }

  lemma RemovalAccounted(s: State, user: seq<Karg>, accepted: bool)
    requires Accounted(s, user)
    ensures Accounted(Remove(s, accepted), if accepted then user else s.active)
  {
    RemoveRestoresIff(s, user, accepted);
  }

  /** The state after the first i events. */
  ghost function At(user: seq<Karg>, es: seq<Event>, i: nat): State
    requires i <= |es|
  {
    RunNeverRaises(user, es[..i]);
    Run(State(user, []), es[..i]).value
  }

  lemma AtNext(user: seq<Karg>, es: seq<Event>, i: nat)
    requires i < |es|
    ensures Step(At(user, es, i), es[i]) == Some(At(user, es, i + 1)) && At(user, es, 0) == State(user, [])
  {
    hide Update, Remove;
    RunNeverRaises(user, es[..i]);
    RunNeverRaises(user, es[..i + 1]);
    assert es[..i + 1][..i] == es[..i];
  }

  /** The event keeps the account of the user's arguments. */
  ghost predicate KeepsAccount(s: State, e: Event) {
    e.Removing? ==> e.accepted || s.recorded == []
  }

  lemma StepAccountedIff(s: State, user: seq<Karg>, e: Event)
    requires Accounted(s, user) && Step(s, e).Some?
    ensures Accounted(Step(s, e).value, user) <==> KeepsAccount(s, e)
  {
    hide Update, Remove, Accounted;
    match e
    case Updating(profile, readable, accepted) => UpdateKeeps(s, user, profile, readable, accepted);
    case Removing(accepted) => RemoveRestoresIff(s, user, accepted);
  }

  lemma {:induction false} AccountedUpTo(user: seq<Karg>, es: seq<Event>, i: nat)
    requires i <= |es| && forall j :: 0 <= j < i ==> KeepsAccount(At(user, es, j), es[j])
    ensures Accounted(At(user, es, i), user)
  {
    hide Accounted, KeepsAccount, At, Step;
    if i == 0 {
      Untouched(user);
      AtStart(user, es);
    } else {
      AccountedUpTo(user, es, i - 1);
      AtNext(user, es, i - 1);
      StepAccountedIff(At(user, es, i - 1), user, es[i - 1]);
    }
  }

  lemma AtStart(user: seq<Karg>, es: seq<Event>)
    ensures At(user, es, 0) == State(user, [])
  {
  }

  /** Main result: over any run, refused removals included, the arguments are the user's plus the recorded ones in
      every state exactly when each removal is accepted or meets an empty record. */
  lemma RunAccountedIff(user: seq<Karg>, es: seq<Event>)
    ensures (forall i :: 0 <= i <= |es| ==> Accounted(At(user, es, i), user)) <==>
            (forall i :: 0 <= i < |es| ==> KeepsAccount(At(user, es, i), es[i]))
  {
    hide Accounted, KeepsAccount, At, Step;
    if forall i :: 0 <= i <= |es| ==> Accounted(At(user, es, i), user) {
      forall i | 0 <= i < |es| ensures KeepsAccount(At(user, es, i), es[i]) {
        assert Accounted(At(user, es, i), user) && Accounted(At(user, es, i + 1), user);
        AtNext(user, es, i);
        StepAccountedIff(At(user, es, i), user, es[i]);
      }
    }
    if forall i :: 0 <= i < |es| ==> KeepsAccount(At(user, es, i), es[i]) {
      forall i | 0 <= i <= |es| ensures Accounted(At(user, es, i), user) { AccountedUpTo(user, es, i); }
    }
  }

  /** A refused removal of something leaves arguments that are from then on taken for the user's. */
  lemma RefusedRemovalAdopts(s: State, user: seq<Karg>)
    requires Accounted(s, user) && s.recorded != []
    ensures Accounted(Remove(s, false), s.active) && !Accounted(Remove(s, false), user)
  {
    RemoveRestoresIff(s, user, false);
  }

  // ----- The plugin -----

  class Bootloader {
    var active: seq<Karg>
    var recorded: seq<Karg>

    ghost function View(): State
      reads this
    {
      State(active, recorded)
    }

    /** `_modify_rpm_ostree_kargs` */
    method ModifyKargs(delete: seq<Karg>, append: seq<Karg>, accepted: bool) returns (ok: bool)
      modifies this`active
      ensures var r := Modify(old(active), delete, append, accepted);
              ok == r.Some? && active == if ok then r.value else old(active)
    {
      var rest := RemoveEach(active, delete);
      ok := rest.Some? && accepted;
      if ok {
        active := rest.value + append;
      }
    }

    /** `_rpm_ostree_update`; false when it raises. */
    method UpdateKargs(profile: seq<Karg>, readable: bool, accepted: bool) returns (ok: bool)
      modifies this
      ensures var r := Update(old(View()), profile, readable, accepted);
              ok == r.Some? && View() == if ok then r.value else old(View())
      ensures forall user :: old(Accounted(View(), user)) ==> ok && Accounted(View(), user)
    {
      hide Accounted, Modify;
      forall user | Accounted(View(), user)
        ensures Update(View(), profile, readable, accepted).Some?
        ensures Accounted(Update(View(), profile, readable, accepted).value, user)
      {
        UpdateKeeps(View(), user, profile, readable, accepted);
      }
      if !readable {
        return true;
      }
      var others := active;
      for i := 0 to |recorded|
        invariant View() == old(View())
        invariant RemoveEach(active, recorded[..i]) == Some(others)
      {
        assert recorded[..i + 1][..i] == recorded[..i];
        var r := RemoveOne(others, recorded[i]);
        if r.None? {
          PrefixFails(active, recorded, i + 1);
          return false;
        }
        others := r.value;
      }
      assert recorded[..|recorded|] == recorded;
      var append := Missing(profile, others);
      if recorded != append {
        var modified := ModifyKargs(recorded, append, accepted);
        if modified {
          recorded := append;
        }
      }
      ok := true;
    }

    /** `_remove_rpm_ostree_tuning` */
    method RemoveTuning(accepted: bool)
      modifies this
      ensures View() == Remove(old(View()), accepted)
    {
      var _ := ModifyKargs(recorded, [], accepted);
      recorded := [];
    }
  }

  lemma {:induction false} PrefixFails(l: seq<Karg>, ks: seq<Karg>, i: nat)
    requires i <= |ks| && RemoveEach(l, ks[..i]).None?
    ensures RemoveEach(l, ks).None?
    decreases |ks| - i
  {
    if i < |ks| {
      assert ks[..i + 1][..i] == ks[..i];
      PrefixFails(l, ks, i + 1);
    } else {
      assert ks[..i] == ks;
    }
  }

  method Missing(profile: seq<Karg>, l: seq<Karg>) returns (r: seq<Karg>)
    ensures r == NotIn(profile, l)
  {
    r := [];
    for i := 0 to |profile|
      invariant r == NotIn(profile[..i], l)
    {
      assert profile[..i + 1][..i] == profile[..i];
      if profile[i] !in l {
        r := r + [profile[i]];
      }
    }
    assert profile[..|profile|] == profile;
  }
}
