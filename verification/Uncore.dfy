/** The uncore plugin: validated writes to the two frequency limits of one device, and their undoing
    (tuned/plugins/plugin_uncore.py, with the command loops of tuned/plugins/base.py). */
module Uncore {
  import opened Text
  import opened PluginModel

  datatype Limit = Max | Min

  datatype Freqs = Freqs(initialMin: nat, initialMax: nat, min: nat, max: nat)

  /** What a setter is given: an option text, or a number that was saved. */
  datatype Request = Number(khz: int) | Option(text: string)

  ghost predicate InRange(f: Freqs) {
    f.initialMin <= f.min <= f.max <= f.initialMax
  }

  function Get(f: Freqs, which: Limit): nat {
    if which.Max? then f.max else f.min
  }

  function Put(f: Freqs, which: Limit, khz: nat): Freqs {
    if which.Max? then f.(max := khz) else f.(min := khz)
  }

  // ----- Validation -----

  function ValidateKhz(f: Freqs, which: Limit, khz: int): Text.Option<nat> {
    match which
    case Max => if khz < f.min then None else if khz > f.initialMax then Some(f.initialMax) else Some(khz)
    case Min => if khz > f.max then None else if khz < f.initialMin then Some(f.initialMin) else Some(khz)
  }

  function ValidatePercent(t: string): Text.Option<nat> {
    match ParseInt(t, 10)
    case None => None
    case Some(pct) => if pct < 0 || pct > 100 then None else Some(pct)
  }

  function RightStripPercent(t: string): string {
    if t != "" && t[|t| - 1] == '%' then RightStripPercent(t[..|t| - 1]) else t
  }

  function PercentKhz(f: Freqs, pct: nat): int {
    var range: int := f.initialMax - f.initialMin;
    f.initialMin + pct * range / 100
  }

  function Validate(f: Freqs, which: Limit, request: Request): Text.Option<nat> {
    match request
    case Number(khz) => ValidateKhz(f, which, khz)
    case Option(t) =>
      if t != "" && t[|t| - 1] == '%' then
        match ValidatePercent(RightStripPercent(t))
        case None => None
        case Some(pct) => ValidateKhz(f, which, PercentKhz(f, pct))
      else
        match ParseInt(t, 10)
        case None => None
        case Some(khz) => ValidateKhz(f, which, khz)
  }

  /** The limits after the setter; `written` tells whether the sysfs write succeeds. */
  function SetLimit(f: Freqs, which: Limit, request: Request, written: bool): Freqs {
    match Validate(f, which, request)
    case None => f
    case Some(khz) => if written then Put(f, which, khz) else f
  }

  /** A frequency is the given part of the initial range above its start, in whole kilohertz. */
  ghost predicate IsPart(f: Freqs, pct: nat, khz: int) {
    var range, above := f.initialMax - f.initialMin, khz - f.initialMin;
    100 * above <= pct * range < 100 * (above + 1)
  }

  /** Percent values land inside the initial range, at that part of it, and the ends of the scale are its ends. */
  lemma PercentInRange(f: Freqs, pct: nat)
    requires f.initialMin <= f.initialMax && pct <= 100
    ensures f.initialMin <= PercentKhz(f, pct) <= f.initialMax && IsPart(f, pct, PercentKhz(f, pct))
    ensures PercentKhz(f, 0) == f.initialMin && PercentKhz(f, 100) == f.initialMax
  {
    var range := f.initialMax - f.initialMin;
    assert 0 <= pct * range <= 100 * range;
  }

  /** A percentage is therefore never capped: it is refused exactly when it is on the wrong side of the
      other limit. */
  lemma PercentNeverCapped(f: Freqs, which: Limit, pct: nat)
    requires InRange(f) && pct <= 100
    ensures var khz := PercentKhz(f, pct);
            ValidateKhz(f, which, khz) ==
            if (if which.Max? then khz < f.min else khz > f.max) then None else Some(khz)
  {
    PercentInRange(f, pct);
  }

  /** No request moves a limit out of the initial range or past the other limit, and it moves only the
      limit it names. */
  lemma SetLimitInRange(f: Freqs, which: Limit, request: Request, written: bool)
    requires InRange(f)
    ensures var r := SetLimit(f, which, request, written);
            && InRange(r) && r.initialMin == f.initialMin && r.initialMax == f.initialMax
            && (if which.Max? then r.min == f.min else r.max == f.max)
  {
    hide ParseInt, RightStripPercent, PercentKhz;
  }

  // ----- Commands with saved values -----

  datatype Device = Device(freqs: Freqs, saved: map<Limit, nat>)

  /** One option of an instance: the limit, its text, and whether the sysfs writes that set it and that put it
      back succeed. */
  datatype Setting = Setting(which: Limit, text: string, written: bool, restored: bool)

  /** What is written for a setting, after the assignment modifiers. */
  function Requested(f: Freqs, s: Setting): Text.Option<string> {
    ProcessModifiers(s.text, Some(Print(Get(f, s.which), 10)))
  }

  /** Save the current value, then set; nothing of both when a modifier finds nothing to change. */
  function Execute(d: Device, s: Setting): Device {
    match Requested(d.freqs, s)
    case None => d
    case Some(t) =>
      Device(SetLimit(d.freqs, s.which, Request.Option(t), s.written), d.saved[s.which := Get(d.freqs, s.which)])
  }

  /** Execute the settings in order. An empty text raises an exception, which ends the loop. */
  function ExecuteAll(d: Device, settings: seq<Setting>): Device
    decreases |settings|
  {
    if settings == [] then d
    else if settings[0].text == "" then Execute(d, settings[0])
    else ExecuteAll(Execute(d, settings[0]), settings[1..])
  }

  /** Write the saved value back, if there is one, and forget it, also when the write fails. */
  function Cleanup(d: Device, which: Limit, restored: bool): Device {
    if which !in d.saved then d
    else Device(SetLimit(d.freqs, which, Number(d.saved[which]), restored), d.saved - {which})
  }

  function CleanupReversed(d: Device, settings: seq<Setting>): Device {
    if settings == [] then d
    else Cleanup(CleanupReversed(d, settings[1..]), settings[0].which, settings[0].restored)
  }

  ghost predicate Distinct(settings: seq<Setting>) {
    forall i, j :: 0 <= i < j < |settings| ==> settings[i].which != settings[j].which
  }

  ghost predicate Unsaved(d: Device, settings: seq<Setting>) {
    forall i :: 0 <= i < |settings| ==> settings[i].which !in d.saved
  }

  /** Undoing a command at once is neither refused nor capped, and restores the device. */
  lemma ExecuteCleanup(d: Device, s: Setting)
    requires InRange(d.freqs) && s.which !in d.saved
    ensures var e := Execute(d, s);
            && InRange(e.freqs)
            && (s.which in e.saved ==> ValidateKhz(e.freqs, s.which, e.saved[s.which]) == Some(e.saved[s.which]))
            && Cleanup(e, s.which, true) == d
  {
    hide ProcessModifiers, Validate;
    if Requested(d.freqs, s).Some? {
      var t := Requested(d.freqs, s).value;
      SetLimitInRange(d.freqs, s.which, Request.Option(t), s.written);
      var e := Execute(d, s);
      assert Validate(e.freqs, s.which, Number(e.saved[s.which])) == ValidateKhz(e.freqs, s.which, e.saved[s.which]) by {
        NumberIsKhz(e.freqs, s.which, e.saved[s.which]);
      }
      ChangesOneLimit(d.freqs, s.which, Request.Option(t), s.written);
      assert e.saved - {s.which} == d.saved;
    }
  }

  // ----- What a setting sets -----

  /** The limit after that frequency was asked for: refused on the wrong side of the other limit, else capped to the
      initial range. */
  function Asked(f: Freqs, which: Limit, khz: int): int {
    match which
    case Max => if khz < f.min then f.max else if khz < f.initialMax then khz else f.initialMax
    case Min => if khz > f.max then f.min else if khz > f.initialMin then khz else f.initialMin
  }

  /** The current limit was saved, the limit is now that one, and nothing else has changed. */
  ghost predicate Sets(d: Device, e: Device, which: Limit, khz: int) {
    e.saved == d.saved[which := Get(d.freqs, which)] && khz >= 0 && e.freqs == Put(d.freqs, which, khz)
  }

  lemma PrintedDigits(n: nat)
    ensures var t := Print(n, 10); t != "" && '0' <= t[0] <= '9' && '0' <= t[|t| - 1] <= '9'
  {
    hide Print;
    PrintIsDigits(n, 10);
  }

  /** A number sets the limit to that many kilohertz, as far as the limits allow. */
  lemma NumberSets(d: Device, which: Limit, n: nat, restored: bool)
    requires InRange(d.freqs)
    ensures Sets(d, Execute(d, Setting(which, Print(n, 10), true, restored)), which, Asked(d.freqs, which, n))
  {
    hide Print, ParseInt;
    PrintedDigits(n);
    ParseIntOfPrint(n);
  }

  lemma StripOnePercent(t: string)
    requires t != "" && t[|t| - 1] != '%'
    ensures RightStripPercent(t + "%") == t
  {
    assert (t + "%")[..|t|] == t;
  }

  /** A percentage sets the limit to that part of the initial range, unless the other limit is in the way; one above 100
      is refused. */
  lemma PercentSets(d: Device, which: Limit, pct: nat, restored: bool) returns (khz: int)
    requires InRange(d.freqs)
    ensures var e := Execute(d, Setting(which, Print(pct, 10) + "%", true, restored));
            if pct > 100 then Sets(d, e, which, Get(d.freqs, which))
            else IsPart(d.freqs, pct, khz) && Sets(d, e, which, Asked(d.freqs, which, khz))
  {
    hide Print, ParseInt, PercentKhz, RightStripPercent;
    PrintedDigits(pct);
    ParseIntOfPrint(pct);
    StripOnePercent(Print(pct, 10));
    khz := 0;
    if pct <= 100 {
      khz := PercentKhz(d.freqs, pct);
      PercentInRange(d.freqs, pct);
    }
  }

  /** With `>` or `<` a number sets the limit only to raise or to lower it; else the device stays as it is. */
  lemma ModifierSets(d: Device, which: Limit, op: char, n: nat, restored: bool)
    requires InRange(d.freqs) && (op == '<' || op == '>')
    ensures var e := Execute(d, Setting(which, [op] + Print(n, 10), true, restored));
            if (if op == '>' then n > Get(d.freqs, which) else n < Get(d.freqs, which))
            then Sets(d, e, which, Asked(d.freqs, which, n)) else e == d
  {
    hide Print, ParseInt;
    PrintedDigits(n);
    ParseIntOfPrint(n);
    ParseIntOfPrint(Get(d.freqs, which));
    assert ([op] + Print(n, 10))[1..] == Print(n, 10);
  }

  lemma NumberIsKhz(f: Freqs, which: Limit, khz: int)
    ensures Validate(f, which, Number(khz)) == ValidateKhz(f, which, khz)
  {
  }

  lemma ChangesOneLimit(f: Freqs, which: Limit, request: Request, written: bool)
    ensures Put(SetLimit(f, which, request, written), which, Get(f, which)) == f
  {
    hide Validate;
  }

  lemma ExecuteSavesOwn(d: Device, s: Setting)
    ensures forall w :: w != s.which ==> (w in Execute(d, s).saved <==> w in d.saved)
  {
  }

  lemma ExecuteKeepsOthers(d: Device, s: Setting, w: Limit)
    requires w != s.which
    ensures Get(Execute(d, s).freqs, w) == Get(d.freqs, w)
  {
    hide ProcessModifiers, Validate;
  }

  lemma {:induction false} ExecuteAllKeepsOthers(d: Device, settings: seq<Setting>, w: Limit)
    requires forall i :: 0 <= i < |settings| ==> settings[i].which != w
    ensures Get(ExecuteAll(d, settings).freqs, w) == Get(d.freqs, w)
    decreases |settings|
  {
    hide Execute;
    if settings != [] {
      ExecuteKeepsOthers(d, settings[0], w);
      if settings[0].text != "" { ExecuteAllKeepsOthers(Execute(d, settings[0]), settings[1..], w); }
    }
  }

  /** The settings are executed one after the other, up to the first empty text; that one is the last. */
  lemma {:induction false} ExecuteAllAppend(d: Device, a: seq<Setting>, b: seq<Setting>)
    ensures ExecuteAll(d, a + b) ==
            if exists i :: 0 <= i < |a| && a[i].text == "" then ExecuteAll(d, a) else ExecuteAll(ExecuteAll(d, a), b)
    decreases |a|
  {
    hide Execute;
    if a == [] {
      assert a + b == b;
    } else {
      assert (a + b)[1..] == a[1..] + b && (a + b)[0] == a[0];
      if a[0].text != "" {
        ExecuteAllAppend(Execute(d, a[0]), a[1..], b);
        assert (exists i :: 0 <= i < |a| && a[i].text == "") <==> (exists i :: 0 <= i < |a[1..]| && a[1..][i].text == "") by {
          if i :| 0 <= i < |a| && a[i].text == "" { assert a[1..][i - 1].text == ""; }
        }
      }
    }
  }

  /** The write that puts the limit back succeeds, or the limit has its old value anyway. */
  ghost predicate GetsBack(d: Device, e: Device, s: Setting) {
    s.restored || Get(e.freqs, s.which) == Get(d.freqs, s.which)
  }

  lemma {:induction false} CleanupRestores(d: Device, settings: seq<Setting>)
    requires InRange(d.freqs) && Distinct(settings) && Unsaved(d, settings)
    requires forall i :: 0 <= i < |settings| ==> GetsBack(d, ExecuteAll(d, settings), settings[i])
    ensures CleanupReversed(ExecuteAll(d, settings), settings) == d
    decreases |settings|
  {
    hide Execute, Cleanup, Get;
    if settings != [] {
      var s, rest := settings[0], settings[1..];
      var e, all := Execute(d, s), ExecuteAll(d, settings);
      ExecuteCleanup(d, s);
      ExecuteSavesOwn(d, s);
      assert Unsaved(e, rest);
      if s.text == "" {
        NothingSaved(e, rest);
      } else {
        ExecuteAllKeepsOthers(e, rest, s.which);
        forall i | 0 <= i < |rest| ensures GetsBack(e, ExecuteAll(e, rest), rest[i]) {
          assert GetsBack(d, all, settings[i + 1]);
          ExecuteKeepsOthers(d, s, rest[i].which);
        }
        CleanupRestores(e, rest);
      }
      assert GetsBack(d, all, settings[0]);
      if !s.restored { CleanupUnchanged(d, s); }
    }
  }

  /** Forgetting the saved value of a limit that has not changed is as good as writing it back. */
  lemma CleanupUnchanged(d: Device, s: Setting)
    requires InRange(d.freqs) && s.which !in d.saved && Get(Execute(d, s).freqs, s.which) == Get(d.freqs, s.which)
    ensures Cleanup(Execute(d, s), s.which, false) == d
  {
    hide ProcessModifiers, Validate;
    var e := Execute(d, s);
    if Requested(d.freqs, s).Some? {
      ChangesOneLimit(d.freqs, s.which, Request.Option(Requested(d.freqs, s).value), s.written);
      assert e.saved - {s.which} == d.saved;
    }
  }

  lemma CleanupKeepsOthers(d: Device, which: Limit, restored: bool, w: Limit)
    requires w != which || !restored
    ensures Get(Cleanup(d, which, restored).freqs, w) == Get(d.freqs, w)
  {
    hide Validate;
  }

  lemma {:induction false} CleanupReversedKeeps(d: Device, settings: seq<Setting>, w: Limit)
    requires forall i :: 0 <= i < |settings| && settings[i].which == w ==> !settings[i].restored
    ensures Get(CleanupReversed(d, settings).freqs, w) == Get(d.freqs, w)
  {
    hide Cleanup, Get;
    if settings != [] {
      CleanupReversedKeeps(d, settings[1..], w);
      CleanupKeepsOthers(CleanupReversed(d, settings[1..]), settings[0].which, settings[0].restored, w);
    }
  }

  lemma {:induction false} ExecuteAllInRange(d: Device, settings: seq<Setting>)
    requires InRange(d.freqs)
    ensures InRange(ExecuteAll(d, settings).freqs)
    decreases |settings|
  {
    hide Execute;
    if settings != [] {
      ExecuteInRange(d, settings[0]);
      if settings[0].text != "" { ExecuteAllInRange(Execute(d, settings[0]), settings[1..]); }
    }
  }

  lemma ExecuteInRange(d: Device, s: Setting)
    requires InRange(d.freqs)
    ensures InRange(Execute(d, s).freqs)
  {
    hide ProcessModifiers, SetLimit;
    if Requested(d.freqs, s).Some? {
      SetLimitInRange(d.freqs, s.which, Request.Option(Requested(d.freqs, s).value), s.written);
    }
  }

  /** Main result: for any texts, any failing writes and any order of the limits, the limits stay in range, and
      cleaning up in reverse order restores both and forgets the saved values exactly when each write that puts
      a changed limit back succeeds. */
  lemma CleanupRestoresIff(d: Device, settings: seq<Setting>)
    requires InRange(d.freqs) && Distinct(settings) && Unsaved(d, settings)
    ensures InRange(ExecuteAll(d, settings).freqs)
    ensures CleanupReversed(ExecuteAll(d, settings), settings) == d <==>
            forall i :: 0 <= i < |settings| ==> GetsBack(d, ExecuteAll(d, settings), settings[i])
  {
    hide ExecuteAll, CleanupReversed, Get;
    ExecuteAllInRange(d, settings);
    var e := ExecuteAll(d, settings);
    if forall i :: 0 <= i < |settings| ==> GetsBack(d, e, settings[i]) {
      CleanupRestores(d, settings);
    } else {
      var i :| 0 <= i < |settings| && !GetsBack(d, e, settings[i]);
      CleanupReversedKeeps(e, settings, settings[i].which);
    }
  }

  lemma {:induction false} NothingSaved(d: Device, settings: seq<Setting>)
    requires Unsaved(d, settings)
    ensures CleanupReversed(d, settings) == d
  {
    if settings != [] { NothingSaved(d, settings[1..]); }
  }

  // ----- Why the order matters -----

  /** After both limits were set, restoring the maximum first restores the device exactly when the new minimum
      is not above the old maximum. */
  lemma ForwardCleanupIff(d: Device, hi: Setting, lo: Setting)
    requires InRange(d.freqs) && d.saved == map[] && hi.which.Max? && lo.which.Min? && hi.text != ""
    requires var e := ExecuteAll(d, [hi, lo]); Max in e.saved && Min in e.saved
    ensures var e := ExecuteAll(d, [hi, lo]);
            Cleanup(Cleanup(e, Max, true), Min, true).freqs == d.freqs <==> e.freqs.min <= d.freqs.max
  {
    hide ProcessModifiers, ParseInt, RightStripPercent, PercentKhz;
    assert [hi, lo][1..] == [lo] && [lo][1..] == [];
    var e1 := Execute(d, hi);
    var e := Execute(e1, lo);
    assert ExecuteAll(d, [hi, lo]) == e by {
      assert ExecuteAll(e, []) == e;
      assert ExecuteAll(e1, [lo]) == e;
    }
    ExecuteCleanup(d, hi);
    ExecuteCleanup(e1, lo);
    assert e1.saved[Max] == d.freqs.max;
  }

  lemma ForwardCleanupFails()
    ensures exists d: Device, hi: Setting, lo: Setting ::
              && InRange(d.freqs) && d.saved == map[] && hi.which.Max? && lo.which.Min?
              && Cleanup(Cleanup(ExecuteAll(d, [hi, lo]), Max, true), Min, true).freqs != d.freqs
  {
    var d := Device(Freqs(0, 9, 0, 1), map[]);
    var hi, lo := Setting(Max, "9", true, true), Setting(Min, "5", true, true);
    assert ParseInt("9", 10) == Some(9) && ParseInt("5", 10) == Some(5);
    var e1 := Execute(d, hi);
    var e := Execute(e1, lo);
    assert e1.freqs == Freqs(0, 9, 0, 9) && e.freqs == Freqs(0, 9, 5, 9);
    assert [hi, lo][1..] == [lo] && ExecuteAll(e1, [lo]) == ExecuteAll(e, []) == e;
    ForwardCleanupIff(d, hi, lo);
  }

  // ----- The plugin -----

  /** One device with its sysfs limits and the saved originals. */
  class Plugin {
    var freqs: Freqs
    var saved: map<Limit, nat>

    ghost function View(): Device
      reads this
    {
      Device(freqs, saved)
    }

    method SetFreq(which: Limit, request: Request, written: bool) returns (value: Text.Option<nat>)
      requires InRange(freqs)
      modifies this`freqs
      ensures freqs == SetLimit(old(freqs), which, request, written) && InRange(freqs)
      ensures value == if written then Validate(old(freqs), which, request) else None
    {
      SetLimitInRange(freqs, which, request, written);
      value := Validate(freqs, which, request);
      if value.Some? {
        if written {
          freqs := Put(freqs, which, value.value);
        } else {
          value := None;
        }
      }
    }

    method ExecuteCommand(s: Setting)
      requires InRange(freqs)
      modifies this
      ensures View() == Execute(old(View()), s) && InRange(freqs)
    {
      hide ProcessModifiers, SetLimit;
      var current := Get(freqs, s.which);
      var value := ProcessModifiers(s.text, Some(Print(current, 10)));
      if value.Some? {
        saved := saved[s.which := current];
        var _ := SetFreq(s.which, Request.Option(value.value), s.written);
      }
    }

    method ExecuteAllCommands(settings: seq<Setting>)
      requires InRange(freqs)
      modifies this
      ensures View() == ExecuteAll(old(View()), settings) && InRange(freqs)
    {
      hide Execute;
      var i := 0;
      while i < |settings|
        invariant 0 <= i <= |settings| && InRange(freqs)
        invariant ExecuteAll(old(View()), settings) == ExecuteAll(View(), settings[i..])
      {
        assert settings[i..][1..] == settings[i + 1..];
        ExecuteCommand(settings[i]);
        if settings[i].text == "" {
          return;
        }
        i := i + 1;
      }
    }

    method CleanupCommand(which: Limit, restored: bool)
      requires InRange(freqs)
      modifies this
      ensures View() == Cleanup(old(View()), which, restored) && InRange(freqs)
    {
      hide SetLimit;
      if which in saved {
        var _ := SetFreq(which, Number(saved[which]), restored);
      }
      assert which !in saved ==> saved - {which} == saved;
      saved := saved - {which};
    }

    method CleanupAllCommands(settings: seq<Setting>)
      requires InRange(freqs)
      modifies this
      ensures View() == CleanupReversed(old(View()), settings) && InRange(freqs)
    {
      hide Cleanup;
      var i := |settings|;
      assert settings[i..] == [];
      while i > 0
        invariant 0 <= i <= |settings| && InRange(freqs)
        invariant View() == CleanupReversed(old(View()), settings[i..])
      {
        i := i - 1;
        assert settings[i..][1..] == settings[i + 1..];
        CleanupCommand(settings[i].which, settings[i].restored);
      }
      assert settings[0..] == settings;
    }
  }
}
