/** Locating profile files and resolving includes over any include graph, cycles included
    (tuned/profiles/locator.py, tuned/profiles/loader.py). */
module IncludeLoader {
  import opened Text

  type Dir(==, !new)
  type Path(==, !new)

  /** The directories in increasing precedence, the configuration file a directory would hold for a profile
      name, the files that exist, which of them parse, and the names each file includes. */
  datatype FileSystem = FileSystem(
    dirs: seq<Dir>,
    path: (Dir, string) -> Path,
    files: set<Path>,
    parses: Path -> bool,
    includes: Path -> Option<seq<string>>)

  // ----- Locating -----

  datatype Located = Found(path: Path) | Skip | Missing

  predicate Conditional(name: string) {
    name != "" && name[0] == '-'
  }

  function BareName(name: string): string {
    if Conditional(name) then name[1..] else name
  }

  function Candidate(fs: FileSystem, name: string, k: nat): Path
    requires k < |fs.dirs|
  {
    fs.path(fs.dirs[k], BareName(name))
  }

  predicate Usable(fs: FileSystem, name: string, skip: seq<Path>, k: nat)
    requires k < |fs.dirs|
  {
    Candidate(fs, name, k) !in skip && Candidate(fs, name, k) in fs.files
  }

  /** `get_config`: the directories from the last to the first. */
  method GetConfig(fs: FileSystem, name: string, skip: seq<Path>) returns (r: Located)
    ensures r == Locate(fs, name, skip)
  {
    var ret := Missing;
    var k := |fs.dirs|;
    while k > 0
      invariant 0 <= k <= |fs.dirs|
      invariant forall j :: k <= j < |fs.dirs| ==> !Usable(fs, name, skip, j)
      invariant ret == Skip || ret == Missing
      invariant ret == Skip <==> exists j :: k <= j < |fs.dirs| && Candidate(fs, name, j) in skip
    {
      k := k - 1;
      var file := Candidate(fs, name, k);
      if file in skip {
        ret := Skip;
      } else if file in fs.files {
        LocateUnique(fs, name, skip, Found(file), k);
        return Found(file);
      }
    }
    r := if Conditional(name) && ret == Missing then Skip else ret;
    LocateUnique(fs, name, skip, r, 0);
  }

  /** The file of the last directory that has an unskipped one; without one, skipped if some candidate was
      or the name is conditional, else missing. */
  ghost predicate Locates(fs: FileSystem, name: string, skip: seq<Path>, r: Located) {
    match r
    case Found(p) =>
      exists k :: 0 <= k < |fs.dirs| && p == Candidate(fs, name, k) && Usable(fs, name, skip, k) &&
        forall j :: k < j < |fs.dirs| ==> !Usable(fs, name, skip, j)
    case Skip =>
      && (forall j :: 0 <= j < |fs.dirs| ==> !Usable(fs, name, skip, j))
      && (Conditional(name) || exists j :: 0 <= j < |fs.dirs| && Candidate(fs, name, j) in skip)
    case Missing =>
      && (forall j :: 0 <= j < |fs.dirs| ==> !Usable(fs, name, skip, j))
      && !Conditional(name) && forall j :: 0 <= j < |fs.dirs| ==> Candidate(fs, name, j) !in skip
  }

  ghost function LocateFrom(fs: FileSystem, name: string, skip: seq<Path>, k: nat): Located
    requires k <= |fs.dirs|
  {
    if k == 0 then
      if Conditional(name) || exists j :: 0 <= j < |fs.dirs| && Candidate(fs, name, j) in skip then Skip else Missing
    else if Usable(fs, name, skip, k - 1) then Found(Candidate(fs, name, k - 1))
    else LocateFrom(fs, name, skip, k - 1)
  }

  ghost function Locate(fs: FileSystem, name: string, skip: seq<Path>): Located {
    LocateFrom(fs, name, skip, |fs.dirs|)
  }

  lemma {:induction false} LocateFromSpec(fs: FileSystem, name: string, skip: seq<Path>, k: nat)
    requires k <= |fs.dirs| && forall j :: k <= j < |fs.dirs| ==> !Usable(fs, name, skip, j)
    ensures Locates(fs, name, skip, LocateFrom(fs, name, skip, k))
  {
    if k > 0 && !Usable(fs, name, skip, k - 1) {
      LocateFromSpec(fs, name, skip, k - 1);
    }
  }

  lemma LocateSpec(fs: FileSystem, name: string, skip: seq<Path>)
    ensures Locates(fs, name, skip, Locate(fs, name, skip))
  {
    LocateFromSpec(fs, name, skip, |fs.dirs|);
  }

  /** Only one answer meets the specification. */
  lemma LocateUnique(fs: FileSystem, name: string, skip: seq<Path>, r: Located, k: nat)
    requires match r
             case Found(p) => k < |fs.dirs| && p == Candidate(fs, name, k) && Usable(fs, name, skip, k) &&
                              forall j :: k < j < |fs.dirs| ==> !Usable(fs, name, skip, j)
             case _ => Locates(fs, name, skip, r)
    ensures r == Locate(fs, name, skip)
  {
    LocateSpec(fs, name, skip);
    var l := Locate(fs, name, skip);
    if l.Found? {
      var m :| 0 <= m < |fs.dirs| && l.path == Candidate(fs, name, m) && Usable(fs, name, skip, m) &&
        forall j :: m < j < |fs.dirs| ==> !Usable(fs, name, skip, j);
      assert r.Found? ==> m == k;
    }
  }

  /** Directory k has an unskipped file of that name. */
  predicate Offers(fs: FileSystem, name: string, skip: seq<Path>, k: nat)
    requires k < |fs.dirs|
  {
    fs.path(fs.dirs[k], name) in fs.files && fs.path(fs.dirs[k], name) !in skip
  }

  /** A plain name is the file of that name in the last directory that has one which is not skipped; it is missing when
      no directory has one and none was skipped. */
  lemma LocateNamed(fs: FileSystem, name: string, skip: seq<Path>)
    requires name == "" || name[0] != '-'
    ensures forall k :: 0 <= k < |fs.dirs| && Offers(fs, name, skip, k) && (forall j :: k < j < |fs.dirs| ==> !Offers(fs, name, skip, j)) ==>
              Locate(fs, name, skip) == Found(fs.path(fs.dirs[k], name))
    ensures (forall k :: 0 <= k < |fs.dirs| ==> !Offers(fs, name, skip, k)) ==>
              Locate(fs, name, skip) == if exists k :: 0 <= k < |fs.dirs| && fs.path(fs.dirs[k], name) in skip then Skip else Missing
  {
    hide Locate;
    forall k | 0 <= k < |fs.dirs|
      ensures Candidate(fs, name, k) == fs.path(fs.dirs[k], name) && (Usable(fs, name, skip, k) <==> Offers(fs, name, skip, k))
    {
    }
    forall k | 0 <= k < |fs.dirs| && Offers(fs, name, skip, k) && (forall j :: k < j < |fs.dirs| ==> !Offers(fs, name, skip, j))
      ensures Locate(fs, name, skip) == Found(fs.path(fs.dirs[k], name))
    {
      LocateUnique(fs, name, skip, Found(fs.path(fs.dirs[k], name)), k);
    }
    hide Usable;
    if forall k :: 0 <= k < |fs.dirs| ==> !Offers(fs, name, skip, k) {
      if k :| 0 <= k < |fs.dirs| && fs.path(fs.dirs[k], name) in skip {
        assert Candidate(fs, name, k) in skip;
        LocateUnique(fs, name, skip, Skip, 0);
      } else {
        LocateUnique(fs, name, skip, Missing, 0);
      }
    }
  }

  /** With a minus sign before it a name is located in the same way, but not missed. */
  lemma ConditionalName(fs: FileSystem, name: string, skip: seq<Path>)
    requires name == "" || name[0] != '-'
    ensures Locate(fs, "-" + name, skip) == if Locate(fs, name, skip) == Missing then Skip else Locate(fs, name, skip)
  {
    hide Locate;
    var n := "-" + name;
    assert n[1..] == name;
    assert forall k :: 0 <= k < |fs.dirs| ==> Candidate(fs, n, k) == Candidate(fs, name, k);
    assert forall k :: 0 <= k < |fs.dirs| ==> (Usable(fs, n, skip, k) <==> Usable(fs, name, skip, k));
    LocateSpec(fs, name, skip);
    var l := Locate(fs, name, skip);
    if l.Found? {
      var k :| 0 <= k < |fs.dirs| && l.path == Candidate(fs, name, k) && Usable(fs, name, skip, k) &&
        forall j :: k < j < |fs.dirs| ==> !Usable(fs, name, skip, j);
      LocateUnique(fs, n, skip, l, k);
    } else {
      LocateUnique(fs, n, skip, Skip, 0);
    }
  }

  /** Asking again for a name whose file is already loaded gives the file of the next directory that has
      another one, or nothing to load; it is never missing. */
  lemma RepeatedName(fs: FileSystem, name: string, skip: seq<Path>, k: nat)
    requires k < |fs.dirs| && Usable(fs, name, skip, k) && forall j :: k < j < |fs.dirs| ==> !Usable(fs, name, skip, j)
    ensures Locate(fs, name, skip) == Found(Candidate(fs, name, k))
    ensures var again := Locate(fs, name, skip + [Candidate(fs, name, k)]);
            && again != Missing
            && (again.Found? ==>
                  exists j :: 0 <= j < k && again.path == Candidate(fs, name, j) && again.path != Candidate(fs, name, k) &&
                    Usable(fs, name, skip, j) &&
                    forall i :: j < i < k ==> !Usable(fs, name, skip, i) || Candidate(fs, name, i) == Candidate(fs, name, k))
            && (again == Skip <==>
                  forall j :: 0 <= j < k ==> !Usable(fs, name, skip, j) || Candidate(fs, name, j) == Candidate(fs, name, k))
  {
    LocateUnique(fs, name, skip, Found(Candidate(fs, name, k)), k);
    var more := skip + [Candidate(fs, name, k)];
    LocateSpec(fs, name, more);
    assert forall p :: p in more <==> p in skip || p == Candidate(fs, name, k);
    var again := Locate(fs, name, more);
    if again.Found? {
      var j :| 0 <= j < |fs.dirs| && again.path == Candidate(fs, name, j) && Usable(fs, name, more, j) &&
        forall i :: j < i < |fs.dirs| ==> !Usable(fs, name, more, i);
      assert Usable(fs, name, skip, j);
      assert j < k;
      forall i | j < i < k ensures !Usable(fs, name, skip, i) || Candidate(fs, name, i) == Candidate(fs, name, k) {
        assert !Usable(fs, name, more, i);
      }
    } else {
      forall j | 0 <= j < k ensures !Usable(fs, name, skip, j) || Candidate(fs, name, j) == Candidate(fs, name, k) {
        assert !Usable(fs, name, more, j);
      }
    }
  }

  // ----- Loading -----

  /** A loaded file with the files loaded through its includes. */
  datatype Tree = Node(file: Path, children: seq<Tree>)

  datatype Error = NotFound(name: string) | CannotParse(file: Path)

  datatype Result = Loaded(forest: seq<Tree>) | Failed(error: Error)

  /** The files in the order they are opened. */
  function PreOrder(forest: seq<Tree>): seq<Path> {
    if forest == [] then []
    else [forest[0].file] + PreOrder(forest[0].children) + PreOrder(forest[1..])
  }

  /** The files in the order their profiles are merged: included ones first. */
  function PostOrder(forest: seq<Tree>): seq<Path> {
    if forest == [] then []
    else PostOrder(forest[0].children) + [forest[0].file] + PostOrder(forest[1..])
  }

  function Unprocessed(fs: FileSystem, processed: seq<Path>): set<Path> {
    set p | p in fs.files && p !in processed
  }

  lemma FoundIsNew(fs: FileSystem, name: string, processed: seq<Path>)
    ensures Locate(fs, name, processed).Found? ==>
              var p := Locate(fs, name, processed).path; p in fs.files && p !in processed
  {
    LocateSpec(fs, name, processed);
  }

  lemma ProcessingShrinks(fs: FileSystem, processed: seq<Path>, p: Path, more: seq<Path>)
    requires p in fs.files && p !in processed
    ensures |Unprocessed(fs, processed + [p] + more)| < |Unprocessed(fs, processed)|
  {
    var a, b := Unprocessed(fs, processed + [p] + more), Unprocessed(fs, processed);
    assert p in b && p !in a;
    assert a <= b - {p};
    SubsetSize(a, b - {p});
  }

  lemma {:induction false} SubsetSize(a: set<Path>, b: set<Path>)
    requires a <= b
    ensures |a| <= |b|
  {
    if a != {} {
      var x :| x in a;
      SubsetSize(a - {x}, b - {x});
    }
  }

  /** What `_load_profile` loads for the names, after the files already processed. Each file is processed
      at most once, so this ends on every include graph. */
  ghost function Load(fs: FileSystem, names: seq<string>, processed: seq<Path>): Result
    decreases |Unprocessed(fs, processed)|, |names|
  {
    if names == [] then Loaded([])
    else
      FoundIsNew(fs, names[0], processed);
      match Locate(fs, names[0], processed)
      case Missing => Failed(NotFound(names[0]))
      case Skip => Load(fs, names[1..], processed)
      case Found(p) =>
        if !fs.parses(p) then Failed(CannotParse(p))
        else
          ProcessingShrinks(fs, processed, p, []);
          assert processed + [p] + [] == processed + [p];
          var below := if fs.includes(p).None? then Loaded([]) else Load(fs, fs.includes(p).value, processed + [p]);
          if below.Failed? then below
          else
            ProcessingShrinks(fs, processed, p, PreOrder(below.forest));
            Before(Node(p, below.forest), Load(fs, names[1..], processed + [p] + PreOrder(below.forest)))
  }

  function Before(t: Tree, r: Result): Result {
    if r.Failed? then r else Loaded([t] + r.forest)
  }

  /** What one located file adds: the forest of its includes. */
  ghost function LoadBelow(fs: FileSystem, processed: seq<Path>, p: Path): Result {
    if !fs.parses(p) then Failed(CannotParse(p))
    else if fs.includes(p).None? then Loaded([])
    else Load(fs, fs.includes(p).value, processed + [p])
  }

  /** Loading one found file and then the other names. */
  lemma LoadFound(fs: FileSystem, names: seq<string>, processed: seq<Path>, p: Path, below: seq<Tree>)
    requires names != [] && Locate(fs, names[0], processed) == Found(p) && LoadBelow(fs, processed, p) == Loaded(below)
    ensures Load(fs, names, processed) ==
            Before(Node(p, below), Load(fs, names[1..], processed + [p] + PreOrder(below)))
  {
  }

  lemma LoadFails(fs: FileSystem, names: seq<string>, processed: seq<Path>, p: Path)
    requires names != [] && Locate(fs, names[0], processed) == Found(p) && LoadBelow(fs, processed, p).Failed?
    ensures Load(fs, names, processed) == LoadBelow(fs, processed, p)
  {
  }

  function After(done: seq<Tree>, r: Result): Result {
    if r.Failed? then r else Loaded(done + r.forest)
  }

  lemma {:induction false} OrdersAppend(a: seq<Tree>, b: seq<Tree>)
    ensures PreOrder(a + b) == PreOrder(a) + PreOrder(b)
    ensures PostOrder(a + b) == PostOrder(a) + PostOrder(b)
  {
    if a == [] {
      assert a + b == b;
    } else {
      assert (a + b)[0] == a[0] && (a + b)[1..] == a[1..] + b;
      OrdersAppend(a[1..], b);
    }
  }

  /** What one name loads: its file above what the includes load, nothing if it is skipped. */
  lemma LoadOne(fs: FileSystem, name: string, processed: seq<Path>)
    ensures Load(fs, [name], processed) ==
            match Locate(fs, name, processed)
            case Missing => Failed(NotFound(name))
            case Skip => Loaded([])
            case Found(p) =>
              (match LoadBelow(fs, processed, p) case Failed(e) => Failed(e) case Loaded(below) => Loaded([Node(p, below)]))
  {
    hide Locate;
    assert [name][1..] == [];
    if Locate(fs, name, processed).Found? {
      var p := Locate(fs, name, processed).path;
      var below := LoadBelow(fs, processed, p);
      if below.Failed? {
        LoadFails(fs, [name], processed, p);
      } else {
        LoadFound(fs, [name], processed, p, below.forest);
        LoadNothing(fs, processed + [p] + PreOrder(below.forest));
      }
    }
  }

  /** Names are loaded in their order: the later ones after the files of the earlier ones, and not at all when these
      fail. */
  lemma {:induction false} LoadAppend(fs: FileSystem, a: seq<string>, b: seq<string>, processed: seq<Path>)
    ensures Load(fs, a + b, processed) ==
            match Load(fs, a, processed)
            case Failed(e) => Failed(e)
            case Loaded(forest) => After(forest, Load(fs, b, processed + PreOrder(forest)))
    decreases |a|
  {
    hide Locate, Load;
    if a == [] {
      assert a + b == b;
      LoadNothing(fs, processed);
      NoOrder(processed);
      NothingLoaded(fs, b, processed);
    } else {
      var all := a + b;
      assert all[0] == a[0] && all[1..] == a[1..] + b;
      LoadOther(fs, a, processed);
      LoadOther(fs, all, processed);
      if Locate(fs, a[0], processed).Found? {
        var p := Locate(fs, a[0], processed).path;
        var below := LoadBelow(fs, processed, p);
        if below.Failed? {
          LoadFails(fs, a, processed, p);
          LoadFails(fs, all, processed, p);
        } else {
          LoadFound(fs, a, processed, p, below.forest);
          LoadFound(fs, all, processed, p, below.forest);
          var next := processed + [p] + PreOrder(below.forest);
          LoadAppend(fs, a[1..], b, next);
          var rest := Load(fs, a[1..], next);
          if rest.Loaded? {
            FirstOrder(processed, Node(p, below.forest), rest.forest);
            BeforeAfter(Node(p, below.forest), rest.forest, Load(fs, b, next + PreOrder(rest.forest)));
          }
        }
      } else {
        LoadAppend(fs, a[1..], b, processed);
      }
    }
  }

  lemma BeforeAfter(t: Tree, rest: seq<Tree>, r: Result)
    ensures Before(t, After(rest, r)) == After([t] + rest, r)
  {
    if r.Loaded? { assert [t] + (rest + r.forest) == [t] + rest + r.forest; }
  }

  /** The loader's two lists: the files processed so far, and the profiles in merge order. */
  class Loader {
    const fs: FileSystem
    var processed: seq<Path>
    var profiles: seq<Path>

    constructor (fs: FileSystem)
      ensures this.fs == fs && processed == [] && profiles == []
    {
      this.fs, processed, profiles := fs, [], [];
    }

    /** Load the named profiles and, before each, the profiles it includes. */
    method LoadProfile(names: seq<string>) returns (r: Result)
      modifies this
      ensures r == Load(fs, names, old(processed))
      ensures r.Loaded? ==> processed == old(processed) + PreOrder(r.forest)
      ensures r.Loaded? ==> profiles == old(profiles) + PostOrder(r.forest)
      decreases |Unprocessed(fs, processed)|, 1
    {
      var done: seq<Tree> := [];
      ghost var processed0, profiles0 := processed, profiles;
      assert names[0..] == names;
      NothingLoaded(fs, names, processed);
      for i := 0 to |names|
        invariant processed == processed0 + PreOrder(done)
        invariant profiles == profiles0 + PostOrder(done)
        invariant Load(fs, names, processed0) == After(done, Load(fs, names[i..], processed))
      {
        hide PreOrder, PostOrder, Load;
        var name := names[i];
        assert names[i..][0] == name && names[i..][1..] == names[i + 1..];
        FoundIsNew(fs, name, processed);
        LoadOther(fs, names[i..], processed);
        var located := GetConfig(fs, name, processed);
        if located == Missing {
          return Failed(NotFound(name));
        }
        if located.Found? {
          var p := located.path;
          MeasureKeeps(fs, processed0, PreOrder(done));
          ghost var before := processed;
          var below := LoadFile(p);
          if below.Failed? {
            LoadFails(fs, names[i..], before, p);
            return below;
          }
          var t := Node(p, below.forest);
          LoadFound(fs, names[i..], before, p, below.forest);
          SnocOrders(processed0, profiles0, done, t);
          AfterBefore(done, t, Load(fs, names[i + 1..], processed));
          done := done + [t];
        }
      }
      assert names[|names|..] == [];
      r := Loaded(done);
    }

    /** Process one located file: parse it, load its includes, then append its profile. */
    method LoadFile(p: Path) returns (below: Result)
      requires p in fs.files && p !in processed
      modifies this
      ensures below == LoadBelow(fs, old(processed), p)
      ensures below.Loaded? ==> processed == old(processed) + [p] + PreOrder(below.forest)
      ensures below.Loaded? ==> profiles == old(profiles) + PostOrder(below.forest) + [p]
      decreases |Unprocessed(fs, processed)|, 0
    {
      MeasureDecreases(fs, processed, p);
      processed := processed + [p];
      if !fs.parses(p) {
        return Failed(CannotParse(p));
      }
      below := Loaded([]);
      if fs.includes(p).Some? {
        below := LoadProfile(fs.includes(p).value);
        if below.Failed? {
          return below;
        }
      }
      profiles := profiles + [p];
    }
  }

  lemma NothingLoaded(fs: FileSystem, names: seq<string>, processed: seq<Path>)
    ensures Load(fs, names, processed) == After([], Load(fs, names, processed))
  {
    var r := Load(fs, names, processed);
    if r.Loaded? { assert [] + r.forest == r.forest; }
  }

  lemma MeasureDecreases(fs: FileSystem, processed: seq<Path>, p: Path)
    requires p in fs.files && p !in processed
    ensures |Unprocessed(fs, processed + [p])| < |Unprocessed(fs, processed)|
  {
    ProcessingShrinks(fs, processed, p, []);
    assert processed + [p] + [] == processed + [p];
  }

  lemma MeasureKeeps(fs: FileSystem, processed: seq<Path>, more: seq<Path>)
    ensures |Unprocessed(fs, processed + more)| <= |Unprocessed(fs, processed)|
  {
    SubsetSize(Unprocessed(fs, processed + more), Unprocessed(fs, processed));
  }

  /** The cases of loading that do not find a file. */
  lemma LoadOther(fs: FileSystem, names: seq<string>, processed: seq<Path>)
    requires names != []
    ensures Locate(fs, names[0], processed) == Missing ==> Load(fs, names, processed) == Failed(NotFound(names[0]))
    ensures Locate(fs, names[0], processed) == Skip ==> Load(fs, names, processed) == Load(fs, names[1..], processed)
  {
  }

  lemma SnocOrders(processed: seq<Path>, profiles: seq<Path>, done: seq<Tree>, t: Tree)
    ensures processed + PreOrder(done + [t]) == (processed + PreOrder(done)) + [t.file] + PreOrder(t.children)
    ensures profiles + PostOrder(done + [t]) == (profiles + PostOrder(done)) + PostOrder(t.children) + [t.file]
  {
    OrdersAppend(done, [t]);
    OneOrder(t);
    hide PreOrder, PostOrder;
    var a, b := PreOrder(done), PreOrder(t.children);
    assert processed + (a + ([t.file] + b)) == (processed + a) + [t.file] + b;
    var c, d := PostOrder(done), PostOrder(t.children);
    assert profiles + (c + (d + [t.file])) == (profiles + c) + d + [t.file];
  }

  lemma OneOrder(t: Tree)
    ensures PreOrder([t]) == [t.file] + PreOrder(t.children)
    ensures PostOrder([t]) == PostOrder(t.children) + [t.file]
  {
    assert [t][1..] == [];
  }

  lemma AfterBefore(done: seq<Tree>, t: Tree, r: Result)
    ensures After(done, Before(t, r)) == After(done + [t], r)
  {
    if r.Loaded? { assert done + ([t] + r.forest) == done + [t] + r.forest; }
  }

  // ----- What loading guarantees -----

  ghost predicate Distinct(l: seq<Path>) {
    forall i, j :: 0 <= i < j < |l| ==> l[i] != l[j]
  }

  /** No file is loaded twice, and every loaded file exists and parses. */
  lemma {:induction false} LoadsOnce(fs: FileSystem, names: seq<string>, processed: seq<Path>)
    requires Distinct(processed)
    ensures var r := Load(fs, names, processed);
            r.Loaded? ==> Distinct(processed + PreOrder(r.forest)) &&
                          forall p :: p in PreOrder(r.forest) ==> p in fs.files && fs.parses(p)
    decreases |Unprocessed(fs, processed)|, |names|
  {
    hide PreOrder, Load, Distinct;
    if names != [] && Load(fs, names, processed).Loaded? {
      FoundIsNew(fs, names[0], processed);
      LoadOther(fs, names, processed);
      match Locate(fs, names[0], processed) {
        case Missing =>
        case Skip => LoadsOnce(fs, names[1..], processed);
        case Found(p) =>
          var below := LoadBelow(fs, processed, p);
          if below.Failed? {
            LoadFails(fs, names, processed, p);
          } else {
            LoadFound(fs, names, processed, p, below.forest);
            MeasureDecreases(fs, processed, p);
            DistinctSnoc(processed, p);
            if fs.includes(p).Some? { LoadsOnce(fs, fs.includes(p).value, processed + [p]); } else { NoOrder(processed + [p]); }
            var rest := processed + [p] + PreOrder(below.forest);
            ProcessingShrinks(fs, processed, p, PreOrder(below.forest));
            LoadsOnce(fs, names[1..], rest);
            FirstOrder(processed, Node(p, below.forest), Load(fs, names[1..], rest).forest);
          }
      }
    } else if names == [] {
      NoOrder(processed);
      LoadNothing(fs, processed);
    }
  }

  lemma DistinctSnoc(l: seq<Path>, p: Path)
    requires Distinct(l) && p !in l
    ensures Distinct(l + [p])
  {
  }

  lemma NoOrder(l: seq<Path>)
    ensures PreOrder([]) == [] && PostOrder([]) == [] && l + [] == l
  {
  }

  lemma LoadNothing(fs: FileSystem, processed: seq<Path>)
    ensures Load(fs, [], processed) == Loaded([])
  {
  }

  lemma FirstOrder(processed: seq<Path>, t: Tree, rest: seq<Tree>)
    ensures PreOrder([t] + rest) == [t.file] + PreOrder(t.children) + PreOrder(rest)
    ensures processed + PreOrder([t] + rest) == (processed + [t.file] + PreOrder(t.children)) + PreOrder(rest)
  {
    assert ([t] + rest)[1..] == rest;
    var a, b := PreOrder(t.children), PreOrder(rest);
    assert processed + ([t.file] + a + b) == (processed + [t.file] + a) + b;
  }

  /** A tree somewhere in a forest. */
  ghost predicate Occurs(t: Tree, forest: seq<Tree>) {
    forest != [] && (forest[0] == t || Occurs(t, forest[0].children) || Occurs(t, forest[1..]))
  }

  /** In the merge order every node comes right after its children. */
  lemma {:induction false} ChildrenFirst(t: Tree, forest: seq<Tree>) returns (k: nat)
    requires Occurs(t, forest)
    ensures var n := |PostOrder(t.children)|;
            && k + n < |PostOrder(forest)|
            && PostOrder(forest)[k..k + n] == PostOrder(t.children)
            && PostOrder(forest)[k + n] == t.file
  {
    hide PostOrder;
    var first, rest := forest[0], forest[1..];
    var a, b := PostOrder(first.children), PostOrder(rest);
    PostOrderFirst(forest);
    if first == t {
      k := 0;
      SliceOfLeft(a + [first.file], b, 0, |a|);
    } else if Occurs(t, first.children) {
      k := ChildrenFirst(t, first.children);
      SliceOfLeft(a, [first.file] + b, k, |PostOrder(t.children)|);
      assert a + [first.file] + b == a + ([first.file] + b);
    } else {
      var m := ChildrenFirst(t, rest);
      k := |a| + 1 + m;
      SliceOfRight(a + [first.file], b, m, |PostOrder(t.children)|);
    }
  }

  lemma PostOrderFirst(forest: seq<Tree>)
    requires forest != []
    ensures PostOrder(forest) == PostOrder(forest[0].children) + [forest[0].file] + PostOrder(forest[1..])
  {
  }

  lemma SliceOfLeft<T>(a: seq<T>, b: seq<T>, k: nat, n: nat)
    requires k + n < |a|
    ensures (a + b)[k..k + n] == a[k..k + n] && (a + b)[k + n] == a[k + n]
  {
  }

  lemma SliceOfRight<T>(a: seq<T>, b: seq<T>, k: nat, n: nat)
    requires k + n < |b|
    ensures (a + b)[|a| + k..|a| + k + n] == b[k..k + n] && (a + b)[|a| + k + n] == b[k + n]
  {
  }

  /** Every processed file contributes exactly one profile. */
  lemma {:induction false} OrdersAgree(forest: seq<Tree>)
    ensures multiset(PreOrder(forest)) == multiset(PostOrder(forest))
  {
    if forest != [] {
      OrdersAgree(forest[0].children);
      OrdersAgree(forest[1..]);
    }
  }

  /** Some file of the name is loaded, or the name is conditional and has no file. */
  ghost predicate Resolved(fs: FileSystem, name: string, processed: seq<Path>) {
    (exists k :: 0 <= k < |fs.dirs| && Candidate(fs, name, k) in processed) ||
    (Conditional(name) && forall k :: 0 <= k < |fs.dirs| ==> Candidate(fs, name, k) !in fs.files)
  }

  lemma ResolvedGrows(fs: FileSystem, name: string, a: seq<Path>, b: seq<Path>)
    requires Resolved(fs, name, a)
    ensures Resolved(fs, name, a + b)
  {
    if k :| 0 <= k < |fs.dirs| && Candidate(fs, name, k) in a {
      assert Candidate(fs, name, k) in a + b;
    }
  }

  lemma LocateResolves(fs: FileSystem, name: string, processed: seq<Path>)
    ensures var l := Locate(fs, name, processed);
            && (l == Skip ==> Resolved(fs, name, processed))
            && (l.Found? ==> Resolved(fs, name, processed + [l.path]))
  {
    LocateSpec(fs, name, processed);
    var l := Locate(fs, name, processed);
    if l.Found? { assert l.path in processed + [l.path]; }
    if l == Skip && !(exists j :: 0 <= j < |fs.dirs| && Candidate(fs, name, j) in processed) {
      forall k | 0 <= k < |fs.dirs| ensures Candidate(fs, name, k) !in fs.files {
        assert !Usable(fs, name, processed, k);
      }
    }
  }

  ghost predicate AllResolved(fs: FileSystem, names: seq<string>, processed: seq<Path>) {
    forall i :: 0 <= i < |names| ==> Resolved(fs, names[i], processed)
  }

  /** Every include of the listed files is resolved. */
  ghost predicate Closed(fs: FileSystem, files: seq<Path>, processed: seq<Path>) {
    forall p :: p in files && fs.includes(p).Some? ==> AllResolved(fs, fs.includes(p).value, processed)
  }

  lemma ClosedGrows(fs: FileSystem, names: seq<string>, files: seq<Path>, a: seq<Path>, b: seq<Path>)
    ensures AllResolved(fs, names, a) ==> AllResolved(fs, names, a + b)
    ensures Closed(fs, files, a) ==> Closed(fs, files, a + b)
  {
    if AllResolved(fs, names, a) {
      forall i | 0 <= i < |names| ensures Resolved(fs, names[i], a + b) { ResolvedGrows(fs, names[i], a, b); }
    }
    if Closed(fs, files, a) {
      forall p | p in files && fs.includes(p).Some? ensures AllResolved(fs, fs.includes(p).value, a + b) {
        var ns := fs.includes(p).value;
        forall i | 0 <= i < |ns| ensures Resolved(fs, ns[i], a + b) { ResolvedGrows(fs, ns[i], a, b); }
      }
    }
  }

  /** Main result: on every include graph, a successful load resolves every requested name and every include
      of every file it loads. */
  lemma {:induction false} LoadResolves(fs: FileSystem, names: seq<string>, processed: seq<Path>)
    ensures var r := Load(fs, names, processed);
            r.Loaded? ==>
              var all := processed + PreOrder(r.forest);
              AllResolved(fs, names, all) && Closed(fs, PreOrder(r.forest), all)
    decreases |Unprocessed(fs, processed)|, |names|
  {
    hide PreOrder, Load, Resolved, Closed, AllResolved;
    if names == [] {
      NoOrder(processed);
      LoadNothing(fs, processed);
      ResolvedNothing(fs, processed);
    } else if Load(fs, names, processed).Loaded? {
      FoundIsNew(fs, names[0], processed);
      LoadOther(fs, names, processed);
      LocateResolves(fs, names[0], processed);
      match Locate(fs, names[0], processed) {
        case Missing =>
        case Skip =>
          LoadResolves(fs, names[1..], processed);
          ResolvedGrows(fs, names[0], processed, PreOrder(Load(fs, names[1..], processed).forest));
          ResolvedCons(fs, names, processed + PreOrder(Load(fs, names[1..], processed).forest));
        case Found(p) =>
          var below := LoadBelow(fs, processed, p);
          if below.Failed? {
            LoadFails(fs, names, processed, p);
          } else {
            LoadFound(fs, names, processed, p, below.forest);
            MeasureDecreases(fs, processed, p);
            if fs.includes(p).Some? { LoadResolves(fs, fs.includes(p).value, processed + [p]); }
            var rest := processed + [p] + PreOrder(below.forest);
            ProcessingShrinks(fs, processed, p, PreOrder(below.forest));
            LoadResolves(fs, names[1..], rest);
            CombineResolved(fs, names, processed, p, below.forest, Load(fs, names[1..], rest).forest);
          }
      }
    }
  }

  /** The name was requested, or a file of the list includes it. */
  ghost predicate Asked(fs: FileSystem, names: seq<string>, files: seq<Path>, name: string) {
    name in names || exists p :: p in files && fs.includes(p).Some? && name in fs.includes(p).value
  }

  ghost predicate LocatedAt(fs: FileSystem, names: seq<string>, processed: seq<Path>, order: seq<Path>, i: nat, name: string)
    requires i < |order|
  {
    Asked(fs, names, order[..i], name) && Locate(fs, name, processed + order[..i]) == Found(order[i])
  }

  /** Every file is located for a name that was asked for before, against exactly the files processed before it. */
  lemma {:induction false} LocatedInOrder(fs: FileSystem, names: seq<string>, processed: seq<Path>, i: nat) returns (name: string)
    requires Load(fs, names, processed).Loaded? && i < |PreOrder(Load(fs, names, processed).forest)|
    ensures LocatedAt(fs, names, processed, PreOrder(Load(fs, names, processed).forest), i, name)
    decreases |Unprocessed(fs, processed)|, |names|
  {
    hide PreOrder, Load, Asked, LocatedAt;
    if names == [] {
      LoadNothing(fs, processed);
      NoOrder([]);
      assert false;
    } else {
      FoundIsNew(fs, names[0], processed);
      LoadOther(fs, names, processed);
      if Locate(fs, names[0], processed) == Skip {
        name := LocatedInOrder(fs, names[1..], processed, i);
        AskedLater(fs, names, processed, PreOrder(Load(fs, names, processed).forest), i, name);
      } else if Locate(fs, names[0], processed) == Missing {
        assert false;
      } else {
        var p := Locate(fs, names[0], processed).path;
        var below := LoadBelow(fs, processed, p);
        if below.Failed? { LoadFails(fs, names, processed, p); }
        LoadFound(fs, names, processed, p, below.forest);
        MeasureDecreases(fs, processed, p);
        ProcessingShrinks(fs, processed, p, PreOrder(below.forest));
        var b := PreOrder(below.forest);
        var rest := processed + [p] + b;
        var o := PreOrder(Load(fs, names[1..], rest).forest);
        FirstOrder([], Node(p, below.forest), Load(fs, names[1..], rest).forest);
        assert PreOrder(Load(fs, names, processed).forest) == [p] + b + o == [p] + (b + o);
        NoOrder([]);
        if i == 0 {
          name := names[0];
          AskedFirst(fs, names, processed, p, b + o);
        } else if i <= |b| {
          name := LocatedInOrder(fs, fs.includes(p).value, processed + [p], i - 1);
          AskedBelow(fs, names, processed, p, b, o, i, name);
        } else {
          name := LocatedInOrder(fs, names[1..], rest, i - 1 - |b|);
          AskedBeside(fs, names, processed, p, b, o, i, name);
        }
      }
    }
  }

  /** The children of a node are what the includes of its file load, after the files processed before it. */
  lemma {:induction false} ChildrenLoaded(fs: FileSystem, names: seq<string>, processed: seq<Path>, t: Tree) returns (i: nat)
    requires Load(fs, names, processed).Loaded? && Occurs(t, Load(fs, names, processed).forest)
    ensures var order := PreOrder(Load(fs, names, processed).forest);
            i < |order| && order[i] == t.file && LoadBelow(fs, processed + order[..i], t.file) == Loaded(t.children)
    decreases |Unprocessed(fs, processed)|, |names|
  {
    hide PreOrder, Load, LoadBelow, Occurs;
    if names == [] {
      LoadNothing(fs, processed);
      NoneOccurs(t);
      assert false;
    } else {
      FoundIsNew(fs, names[0], processed);
      LoadOther(fs, names, processed);
      if Locate(fs, names[0], processed) == Skip {
        i := ChildrenLoaded(fs, names[1..], processed, t);
      } else if Locate(fs, names[0], processed) == Missing {
        assert false;
      } else {
        var p := Locate(fs, names[0], processed).path;
        var below := LoadBelow(fs, processed, p);
        if below.Failed? { LoadFails(fs, names, processed, p); }
        LoadFound(fs, names, processed, p, below.forest);
        MeasureDecreases(fs, processed, p);
        ProcessingShrinks(fs, processed, p, PreOrder(below.forest));
        var b := PreOrder(below.forest);
        var rest := processed + [p] + b;
        var others := Load(fs, names[1..], rest);
        var o := PreOrder(others.forest);
        FirstOrder([], Node(p, below.forest), others.forest);
        assert PreOrder(Load(fs, names, processed).forest) == [p] + b + o;
        OccursFirst(t, Node(p, below.forest), others.forest);
        if t == Node(p, below.forest) {
          i := 0;
          assert processed + ([p] + b + o)[..0] == processed;
        } else if Occurs(t, below.forest) {
          LoadedBelow(fs, processed, p, t);
          var j := ChildrenLoaded(fs, fs.includes(p).value, processed + [p], t);
          i := j + 1;
          ShiftBelow(processed, p, b, o, j);
        } else {
          var j := ChildrenLoaded(fs, names[1..], rest, t);
          i := 1 + |b| + j;
          ShiftBeside(processed, p, b, o, j);
        }
      }
    }
  }

  lemma NoneOccurs(t: Tree)
    ensures !Occurs(t, [])
  {
  }

  lemma OccursFirst(t: Tree, first: Tree, rest: seq<Tree>)
    ensures Occurs(t, [first] + rest) <==> t == first || Occurs(t, first.children) || Occurs(t, rest)
  {
    assert ([first] + rest)[1..] == rest;
  }

  lemma LoadedBelow(fs: FileSystem, processed: seq<Path>, p: Path, t: Tree)
    requires LoadBelow(fs, processed, p).Loaded? && Occurs(t, LoadBelow(fs, processed, p).forest)
    ensures fs.includes(p).Some? && LoadBelow(fs, processed, p) == Load(fs, fs.includes(p).value, processed + [p])
  {
    NoneOccurs(t);
  }

  lemma ShiftBelow(processed: seq<Path>, p: Path, b: seq<Path>, o: seq<Path>, j: nat)
    requires j < |b|
    ensures var order := [p] + b + o;
            order[j + 1] == b[j] && processed + order[..j + 1] == processed + [p] + b[..j]
  {
    assert ([p] + b + o)[..j + 1] == [p] + b[..j];
  }

  lemma ShiftBeside(processed: seq<Path>, p: Path, b: seq<Path>, o: seq<Path>, j: nat)
    requires j < |o|
    ensures var order := [p] + b + o;
            order[1 + |b| + j] == o[j] && processed + order[..1 + |b| + j] == processed + [p] + b + o[..j]
  {
    assert ([p] + b + o)[..1 + |b| + j] == [p] + b + o[..j];
  }

  /** In the merge order of a load every file comes right after exactly the files that its includes load. */
  lemma IncludesFirst(fs: FileSystem, names: seq<string>, processed: seq<Path>, t: Tree) returns (i: nat, k: nat)
    requires Load(fs, names, processed).Loaded? && Occurs(t, Load(fs, names, processed).forest)
    ensures var forest := Load(fs, names, processed).forest;
            var order, merged, n := PreOrder(forest), PostOrder(forest), |PostOrder(t.children)|;
            && i < |order| && order[i] == t.file && LoadBelow(fs, processed + order[..i], t.file) == Loaded(t.children)
            && k + n < |merged| && merged[k..k + n] == PostOrder(t.children) && merged[k + n] == t.file
  {
    hide PreOrder, PostOrder, Load, LoadBelow;
    i := ChildrenLoaded(fs, names, processed, t);
    k := ChildrenFirst(t, Load(fs, names, processed).forest);
  }

  lemma AskedLater(fs: FileSystem, names: seq<string>, processed: seq<Path>, order: seq<Path>, i: nat, name: string)
    requires names != [] && i < |order| && LocatedAt(fs, names[1..], processed, order, i, name)
    ensures LocatedAt(fs, names, processed, order, i, name)
  {
  }

  lemma AskedFirst(fs: FileSystem, names: seq<string>, processed: seq<Path>, p: Path, more: seq<Path>)
    requires names != [] && Locate(fs, names[0], processed) == Found(p)
    ensures [p] + more != [] && LocatedAt(fs, names, processed, [p] + more, 0, names[0])
  {
    assert processed + ([p] + more)[..0] == processed;
  }

  lemma AskedBelow(fs: FileSystem, names: seq<string>, processed: seq<Path>, p: Path, b: seq<Path>, o: seq<Path>, i: nat, name: string)
    requires 1 <= i <= |b| && fs.includes(p).Some?
    requires LocatedAt(fs, fs.includes(p).value, processed + [p], b, i - 1, name)
    ensures LocatedAt(fs, names, processed, [p] + b + o, i, name)
  {
    var order := [p] + b + o;
    assert order[..i] == [p] + b[..i - 1] && order[i] == b[i - 1];
    assert processed + order[..i] == processed + [p] + b[..i - 1];
    assert p in order[..i];
    if name !in fs.includes(p).value {
      var q :| q in b[..i - 1] && fs.includes(q).Some? && name in fs.includes(q).value;
      assert q in order[..i];
    }
  }

  lemma AskedBeside(fs: FileSystem, names: seq<string>, processed: seq<Path>, p: Path, b: seq<Path>, o: seq<Path>, i: nat, name: string)
    requires names != [] && |b| < i < 1 + |b| + |o|
    requires LocatedAt(fs, names[1..], processed + [p] + b, o, i - 1 - |b|, name)
    ensures LocatedAt(fs, names, processed, [p] + b + o, i, name)
  {
    var order, k := [p] + b + o, i - 1 - |b|;
    assert order[..i] == [p] + b + o[..k] && order[i] == o[k];
    assert processed + order[..i] == processed + [p] + b + o[..k];
    if name !in names[1..] {
      var q :| q in o[..k] && fs.includes(q).Some? && name in fs.includes(q).value;
      assert q in order[..i];
    }
  }

  lemma ResolvedNothing(fs: FileSystem, processed: seq<Path>)
    ensures AllResolved(fs, [], processed) && Closed(fs, [], processed)
  {
  }

  lemma ResolvedCons(fs: FileSystem, names: seq<string>, processed: seq<Path>)
    requires names != [] && Resolved(fs, names[0], processed) && AllResolved(fs, names[1..], processed)
    ensures AllResolved(fs, names, processed)
  {
    forall i | 0 <= i < |names| ensures Resolved(fs, names[i], processed) {
      if i > 0 { assert names[1..][i - 1] == names[i]; }
    }
  }

  lemma CombineResolved(fs: FileSystem, names: seq<string>, processed: seq<Path>, p: Path, below: seq<Tree>, others: seq<Tree>)
    requires names != [] && Resolved(fs, names[0], processed + [p])
    requires fs.includes(p).Some? ==>
               AllResolved(fs, fs.includes(p).value, processed + [p] + PreOrder(below)) &&
               Closed(fs, PreOrder(below), processed + [p] + PreOrder(below))
    requires fs.includes(p).None? ==> below == []
    requires var all := processed + [p] + PreOrder(below) + PreOrder(others);
             AllResolved(fs, names[1..], all) && Closed(fs, PreOrder(others), all)
    ensures var forest := [Node(p, below)] + others;
            AllResolved(fs, names, processed + PreOrder(forest)) && Closed(fs, PreOrder(forest), processed + PreOrder(forest))
  {
    hide Resolved, AllResolved, PreOrder;
    var mid := processed + [p] + PreOrder(below);
    var all := mid + PreOrder(others);
    FirstOrder(processed, Node(p, below), others);
    ResolvedGrows(fs, names[0], processed + [p], PreOrder(below));
    ResolvedGrows(fs, names[0], mid, PreOrder(others));
    ResolvedCons(fs, names, all);
    if fs.includes(p).Some? {
      ClosedGrows(fs, fs.includes(p).value, PreOrder(below), mid, PreOrder(others));
    } else {
      NoOrder([]);
    }
  }

  /** A load fails only for a name without any file, or for a file that does not parse. */
  lemma {:induction false} LoadFailure(fs: FileSystem, names: seq<string>, processed: seq<Path>)
    ensures match Load(fs, names, processed)
            case Failed(NotFound(n)) => !Conditional(n) && forall k :: 0 <= k < |fs.dirs| ==> Candidate(fs, n, k) !in fs.files
            case Failed(CannotParse(p)) => p in fs.files && !fs.parses(p)
            case _ => true
    decreases |Unprocessed(fs, processed)|, |names|
  {
    hide PreOrder, Load;
    if names == [] {
      LoadNothing(fs, processed);
    } else {
      FoundIsNew(fs, names[0], processed);
      LoadOther(fs, names, processed);
      LocateSpec(fs, names[0], processed);
      match Locate(fs, names[0], processed) {
        case Missing =>
          forall k | 0 <= k < |fs.dirs| ensures Candidate(fs, names[0], k) !in fs.files {
            assert !Usable(fs, names[0], processed, k);
          }
        case Skip => LoadFailure(fs, names[1..], processed);
        case Found(p) =>
          var below := LoadBelow(fs, processed, p);
          MeasureDecreases(fs, processed, p);
          if below.Failed? {
            LoadFails(fs, names, processed, p);
            if fs.parses(p) { LoadFailure(fs, fs.includes(p).value, processed + [p]); }
          } else {
            LoadFound(fs, names, processed, p, below.forest);
            ProcessingShrinks(fs, processed, p, PreOrder(below.forest));
            LoadFailure(fs, names[1..], processed + [p] + PreOrder(below.forest));
          }
      }
    }
  }
}
