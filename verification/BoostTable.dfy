/** The version-dependent dependency table of `_Boost_COMPONENT_DEPENDENCIES`. */
module BoostTable {
  import opened CMake
  import opened Dependencies
  import opened Options
  import opened Versions

  /** The libraries that have an entry in the table or occur in one. */
  datatype Library =
    | Atomic | Chrono | Container | Context | Contract | Coroutine | Coroutine2 | DateTime
    | Fiber | Filesystem | Iostreams | Json | Log | LogSetup | Math | MathC99
    | MathC99f | MathC99l | MathTr1 | MathTr1f | MathTr1l | Mpi | MpiPython | Numpy
    | Python | Random | Regex | Serialization | System | Thread | Timer | Wave
    | Wserialization

  function Name(l: Library): string {
    match l
    case Atomic => "atomic"
    case Chrono => "chrono"
    case Container => "container"
    case Context => "context"
    case Contract => "contract"
    case Coroutine => "coroutine"
    case Coroutine2 => "coroutine2"
    case DateTime => "date_time"
    case Fiber => "fiber"
    case Filesystem => "filesystem"
    case Iostreams => "iostreams"
    case Json => "json"
    case Log => "log"
    case LogSetup => "log_setup"
    case Math => "math"
    case MathC99 => "math_c99"
    case MathC99f => "math_c99f"
    case MathC99l => "math_c99l"
    case MathTr1 => "math_tr1"
    case MathTr1f => "math_tr1f"
    case MathTr1l => "math_tr1l"
    case Mpi => "mpi"
    case MpiPython => "mpi_python"
    case Numpy => "numpy"
    case Python => "python"
    case Random => "random"
    case Regex => "regex"
    case Serialization => "serialization"
    case System => "system"
    case Thread => "thread"
    case Timer => "timer"
    case Wave => "wave"
    case Wserialization => "wserialization"
  }

  /** The library whose table variable has the given upper-case name. */
  function FindEntry(key: string): Option<Library> {
    if key == "ATOMIC" then Some(Atomic)
    else if key == "CHRONO" then Some(Chrono)
    else if key == "CONTEXT" then Some(Context)
    else if key == "CONTRACT" then Some(Contract)
    else if key == "COROUTINE" then Some(Coroutine)
    else if key == "COROUTINE2" then Some(Coroutine2)
    else if key == "FIBER" then Some(Fiber)
    else if key == "FILESYSTEM" then Some(Filesystem)
    else if key == "IOSTREAMS" then Some(Iostreams)
    else if key == "JSON" then Some(Json)
    else if key == "LOG" then Some(Log)
    else if key == "MATH" then Some(Math)
    else if key == "MPI" then Some(Mpi)
    else if key == "MPI_PYTHON" then Some(MpiPython)
    else if key == "NUMPY" then Some(Numpy)
    else if key == "RANDOM" then Some(Random)
    else if key == "REGEX" then Some(Regex)
    else if key == "THREAD" then Some(Thread)
    else if key == "TIMER" then Some(Timer)
    else if key == "WAVE" then Some(Wave)
    else if key == "WSERIALIZATION" then Some(Wserialization)
    else None
  }

  /** The minor numbers of the releases 1.x.0 at which the table changes. */
  const RELEASES: seq<nat> := [
    33, 35, 36, 38, 43, 44, 45, 47, 48, 50, 53, 54, 55, 56, 59, 60,
    61, 62, 63, 65, 67, 68, 69, 70, 72, 73, 75, 77, 78, 83, 87]

  /** The table: what library `l` depends on from release 1.`since`.0 until the next change.
      `Python` stands for the Python library of the suffix in use. */
  function Entry(l: Library, since: nat): seq<Library> {
    match l
    case Atomic =>
      if since < 53 then []
      else if since < 55 then [Thread, Chrono, System, DateTime]
      else []
    case Chrono =>
      if since < 47 then []
      else if since < 69 then [System]
      else []
    case Context =>
      if since < 61 then []
      else if since < 69 then [Thread, Chrono, System, DateTime]
      else []
    case Contract =>
      if since < 68 then []
      else if since < 69 then [Thread, Chrono, System, DateTime]
      else if since < 77 then [Thread, Chrono, DateTime]
      else [Thread, Chrono]
    case Coroutine =>
      if since < 55 then []
      else if since < 69 then [Context, System]
      else [Context]
    case Coroutine2 =>
      if since < 63 then []
      else if since < 65 then [Context, Fiber, Thread, Chrono, System, DateTime]
      else []
    case Fiber =>
      if since < 62 then []
      else if since < 69 then [Context, Thread, Chrono, System, DateTime]
      else [Context]
    case Filesystem =>
      if since < 35 then []
      else if since < 69 then [System]
      else []
    case Iostreams =>
      if since < 33 then []
      else if since < 35 then [Regex, Thread]
      else [Regex]
    case Json =>
      if since < 75 then []
      else [Container]
    case Log =>
      if since < 54 then []
      else if since < 59 then [LogSetup, DateTime, System, Filesystem, Thread, Regex, Chrono]
      else if since < 60 then [LogSetup, DateTime, System, Filesystem, Thread, Regex, Chrono, Atomic]
      else if since < 69 then [DateTime, LogSetup, System, Filesystem, Thread, Regex, Chrono, Atomic]
      else if since < 78 then [DateTime, LogSetup, Filesystem, Thread, Regex, Chrono, Atomic]
      else if since < 87 then [LogSetup, Filesystem, Thread, Regex, Chrono, Atomic]
      else [LogSetup, Filesystem, Thread, Regex, Atomic]
    case Math =>
      if since < 36 then []
      else if since < 43 then [MathC99, MathC99f, MathC99l, MathTr1, MathTr1f, MathTr1l]
      else if since < 44 then [MathC99, MathC99f, MathC99l, MathTr1, MathTr1f, MathTr1l, Random]
      else if since < 45 then [MathC99, MathC99f, MathC99l, MathTr1, MathTr1f, MathTr1l, Random, Serialization]
      else if since < 50 then [MathC99, MathC99f, MathC99l, MathTr1, MathTr1f, MathTr1l, Random]
      else if since < 56 then [MathC99, MathC99f, MathC99l, MathTr1, MathTr1f, MathTr1l, Regex, Random]
      else if since < 72 then [MathC99, MathC99f, MathC99l, MathTr1, MathTr1f, MathTr1l, Atomic]
      else if since < 73 then [MathC99, MathC99f, MathC99l, MathTr1, MathTr1f, MathTr1l, Chrono, Atomic]
      else if since < 77 then [MathC99, MathC99f, MathC99l, MathTr1, MathTr1f, MathTr1l, Atomic]
      else [MathC99, MathC99f, MathC99l, MathTr1, MathTr1f, MathTr1l]
    case Mpi =>
      if since < 35 then []
      else [Serialization]
    case MpiPython =>
      if since < 35 then []
      else [Python, Mpi, Serialization]
    case Numpy =>
      if since < 65 then []
      else [Python]
    case Random =>
      if since < 56 then []
      else if since < 69 then [System]
      else []
    case Regex =>
      if since < 33 then []
      else if since < 35 then [Thread]
      else []
    case Thread =>
      if since < 38 then []
      else if since < 50 then [DateTime]
      else if since < 53 then [Chrono, System, DateTime]
      else if since < 69 then [Chrono, System, DateTime, Atomic]
      else if since < 77 then [Chrono, DateTime, Atomic]
      else [Chrono, Atomic]
    case Timer =>
      if since < 48 then []
      else if since < 61 then [Chrono, System]
      else if since < 65 then []
      else if since < 70 then [Chrono, System]
      else if since < 83 then [Chrono]
      else []
    case Wave =>
      if since < 33 then []
      else if since < 35 then [Filesystem, Thread]
      else if since < 38 then [Filesystem, System, Thread]
      else if since < 44 then [Filesystem, System, Thread, DateTime]
      else if since < 45 then [Serialization, Filesystem, System, Thread, DateTime]
      else if since < 50 then [Filesystem, System, Serialization, Thread, DateTime]
      else if since < 54 then [Filesystem, System, Serialization, Thread, Chrono, DateTime]
      else if since < 69 then [Filesystem, System, Serialization, Thread, Chrono, DateTime, Atomic]
      else if since < 77 then [Filesystem, Serialization, Thread, Chrono, DateTime, Atomic]
      else [Filesystem, Serialization, Thread, Chrono, Atomic]
    case Wserialization =>
      if since < 33 then []
      else [Serialization]
    case _ => []
  }

  // ---------- Component names ----------

  /** The suffix pattern [0-9][0-9]? or [0-9]\.[0-9]+. */
  predicate IsPythonSuffix(s: string) {
    || (1 <= |s| <= 2 && forall c :: c in s ==> IsDigit(c))
    || (|s| >= 3 && IsDigit(s[0]) && s[1] == '.' && forall c :: c in s[2..] ==> IsDigit(c))
  }

  predicate HasSuffixed(component: string, base: string) {
    base <= component && IsPythonSuffix(component[|base|..])
  }

  const PYTHON_LIBRARIES: set<string> := {"python", "mpi_python", "numpy"}

  /** The python libraries differ in their first letter. */
  lemma OnePythonLibrary(component: string)
    ensures forall a, b :: a in PYTHON_LIBRARIES && b in PYTHON_LIBRARIES && a <= component && b <= component ==> a == b
  {
    assert "python"[0] == 'p' && "mpi_python"[0] == 'm' && "numpy"[0] == 'n';
  }

  /** Split a component into its library and its Python version; most components have none. */
  function SplitPython(component: string): (r: (string, string))
    ensures component == r.0 + r.1
    ensures r.1 == "" || (IsPythonSuffix(r.1) && r.0 in PYTHON_LIBRARIES)
    ensures forall base :: base in PYTHON_LIBRARIES && HasSuffixed(component, base)
              ==> r == (base, component[|base|..])
  {
    OnePythonLibrary(component);
    if HasSuffixed(component, "python") then ("python", component[6..])
    else if HasSuffixed(component, "mpi_python") then ("mpi_python", component[10..])
    else if HasSuffixed(component, "numpy") then ("numpy", component[5..])
    else (component, "")
  }

  function Text(l: Library, suffix: string): string {
    if l == Python then "python" + suffix else Name(l)
  }

  function Texts(ls: seq<Library>, suffix: string): (r: seq<string>)
    ensures |r| == |ls| && forall i :: 0 <= i < |r| ==> r[i] == Text(ls[i], suffix)
  {
    if ls == [] then [] else [Text(ls[0], suffix)] + Texts(ls[1..], suffix)
  }

  // ---------- Versions ----------

  /** The last change of the table that version `v` has seen, or 0: the first bound above `v` in
      the chain of VERSION_LESS tests decides. */
  function LastChange(v: Version, bounds: seq<nat>, since: nat): nat {
    if bounds == [] || Compare(v, [1, bounds[0], 0]) == Less then since
    else LastChange(v, bounds[1..], bounds[0])
  }

  function Since(version: Option<string>): nat
    requires version.Some? ==> IsDotted(version.value)
  {
    if version.Some? && Truthy([version.value]) then LastChange(Numbers(version.value), RELEASES, 0) else 0
  }

  /** Whether imported targets may be defined: not for versions older than 1.33. */
  predicate ImportedTargets(version: Option<string>)
    requires version.Some? ==> IsDotted(version.value)
  {
    !(version.Some? && Truthy([version.value]) && Compare(Numbers(version.value), [1, 33, 0]) == Less)
  }

  function ComponentDependencies(since: nat, component: string): seq<string> {
    var (base, suffix) := SplitPython(component);
    match FindEntry(Upper(base))
    case None => []
    case Some(l) => Texts(Entry(l, since), suffix)
  }

  function BoostGraph(since: nat): Graph {
    c => ComponentDependencies(since, c)
  }

  // ---------- The finite universe of a request ----------

  ghost function PythonSuffixes(request: seq<string>): set<string> {
    {""} + (set c | c in request :: SplitPython(c).1) + (set l: Library | true :: SplitPython(Name(l)).1)
  }

  /** Every name the worklist can reach: the request, the libraries of the table, and the Python
      library with every suffix that these carry. */
  ghost function Universe(request: seq<string>): set<string> {
    Names(request) + (set l: Library | true :: Name(l)) + (set s | s in PythonSuffixes(request) :: "python" + s)
  }

  lemma PythonSuffixSplits(s: string)
    requires s == "" || IsPythonSuffix(s)
    ensures SplitPython("python" + s).1 == s
  {
    var p := "python" + s;
    assert p[6..] == s && p[..6] == "python";
    if s == "" {
      assert p[0] == 'p' && "numpy"[0] == 'n';
    }
  }

  lemma SuffixInUniverse(request: seq<string>, c: string)
    requires c in Universe(request)
    ensures SplitPython(c).1 in PythonSuffixes(request)
  {
    if s :| s in PythonSuffixes(request) && c == "python" + s {
      PythonSuffixSplits(s);
    }
  }

  /** The universe is closed under the dependencies of every version, although the table is
      cyclic and component names are open-ended. */
  lemma UniverseIsClosed(since: nat, request: seq<string>)
    ensures ClosedUnder(BoostGraph(since), Universe(request))
  {
    var g := BoostGraph(since);
    forall c, d | c in Universe(request) && d in g(c)
      ensures d in Universe(request)
    {
      SuffixInUniverse(request, c);
      var l := DependencyText(since, c, d);
      if l == Python {
        assert d == "python" + SplitPython(c).1;
      }
    }
  }

  lemma DependencyText(since: nat, c: string, d: string) returns (l: Library)
    requires d in ComponentDependencies(since, c)
    ensures d == Text(l, SplitPython(c).1)
    ensures exists k :: FindEntry(Upper(SplitPython(c).0)) == Some(k) && l in Entry(k, since)
  {
    var (base, suffix) := SplitPython(c);
    var k := FindEntry(Upper(base)).value;
    var i :| 0 <= i < |Entry(k, since)| && Texts(Entry(k, since), suffix)[i] == d;
    l := Entry(k, since)[i];
  }

  // ---------- Names are never read as false ----------

  /** A name of the table's shape: at least three characters, beginning unlike any false
      constant and ending unlike NOTFOUND. */
  predicate HasPlainShape(s: string) {
    && |s| >= 3 && s[|s| - 1] != 'D'
    && (s[0] !in {'O', 'o', 'F', 'f', 'I', 'i'} || (s[0] == 'f' && s[1] == 'i') || (s[0] == 'i' && s[1] == 'o'))
  }

  lemma PlainByShape(s: string)
    requires HasPlainShape(s)
    ensures IsPlain(s)
  {
    UpperIsPointwise(s, 0);
    UpperIsPointwise(s, 1);
  }

  lemma NamesArePlain(l: Library)
    ensures IsPlain(Name(l))
  {
    NamesHaveShape(l);
    PlainByShape(Name(l));
  }

  lemma NamesHaveShape(l: Library)
    ensures HasPlainShape(Name(l))
  {
  }

  lemma SuffixEndsInDigit(suffix: string)
    requires IsPythonSuffix(suffix)
    ensures suffix != "" && IsDigit(suffix[|suffix| - 1])
  {
    var last := suffix[|suffix| - 1];
    assert last in suffix;
    if |suffix| >= 3 {
      assert last == suffix[2..][|suffix| - 3] && last in suffix[2..];
    }
  }

  lemma PythonNamesArePlain(suffix: string)
    requires suffix == "" || IsPythonSuffix(suffix)
    ensures IsPlain("python" + suffix)
  {
    var p := "python" + suffix;
    if suffix == "" {
      assert p[5] == 'n';
    } else {
      SuffixEndsInDigit(suffix);
      assert p[|p| - 1] == suffix[|suffix| - 1];
    }
    PlainByShape(p);
  }

  lemma DependenciesArePlain(since: nat, c: string, d: string)
    requires d in ComponentDependencies(since, c)
    ensures IsPlain(d)
  {
    var l := DependencyText(since, c, d);
    NamesArePlain(l);
    PythonNamesArePlain(SplitPython(c).1);
  }

  // ---------- The table is cyclic for exactly two releases ----------

  lemma {:induction false} LastChangeMeaning(v: Version, bounds: seq<nat>, since: nat)
    requires forall i, j :: 0 <= i < j < |bounds| ==> bounds[i] < bounds[j]
    requires forall i :: 0 <= i < |bounds| ==> since < bounds[i]
    ensures since <= LastChange(v, bounds, since)
    ensures forall b :: b in bounds ==> (b <= LastChange(v, bounds, since) <==> !Precedes(v, [1, b, 0]))
  {
    if bounds != [] {
      CompareMeaning(v, [1, bounds[0], 0]);
      if Compare(v, [1, bounds[0], 0]) == Less {
        forall i | 0 < i < |bounds|
          ensures Precedes(v, [1, bounds[i], 0])
        {
          assert PrecedesAt([1, bounds[0], 0], [1, bounds[i], 0], 1);
          PrecedesTransitive(v, [1, bounds[0], 0], [1, bounds[i], 0]);
        }
      } else {
        LastChangeMeaning(v, bounds[1..], bounds[0]);
      }
    }
  }

  /** A rank that every dependency lowers, except that of atomic on thread. */
  function Rank(l: Library): nat {
    match l
    case Chrono => 1 case Filesystem => 1 case Random => 1 case Mpi => 1 case Numpy => 1
    case Json => 1 case Wserialization => 1
    case Thread => 2 case Timer => 2 case MpiPython => 2
    case Regex => 3 case Context => 3 case Contract => 3
    case Iostreams => 4 case Coroutine => 4 case Fiber => 4 case Log => 4 case Math => 4 case Wave => 4
    case Coroutine2 => 5
    case _ => 0
  }

  lemma EntryLowersRank(l: Library, since: nat, d: Library)
    requires d in Entry(l, since)
    ensures Rank(d) < Rank(l) || (l == Atomic && 53 <= since < 55)
  {
    if l in {Log, Math, Wave} {
      LongEntryLowersRank(l, since, d);
    }
  }

  lemma LongEntryLowersRank(l: Library, since: nat, d: Library)
    requires l in {Log, Math, Wave} && d in Entry(l, since)
    ensures Rank(d) < Rank(l)
  {
  }

  /** Each library of `cycle` depends on the next one, and the last one is the first. */
  ghost predicate IsCycle(since: nat, cycle: seq<Library>) {
    && |cycle| >= 2 && cycle[0] == cycle[|cycle| - 1]
    && forall i :: 0 <= i < |cycle| - 1 ==> cycle[i + 1] in Entry(cycle[i], since)
  }

  lemma {:induction false} RanksFall(since: nat, walk: seq<Library>, n: nat)
    requires !(53 <= since < 55) && 0 < n < |walk|
    requires forall i :: 0 <= i < |walk| - 1 ==> walk[i + 1] in Entry(walk[i], since)
    ensures Rank(walk[n]) < Rank(walk[0])
  {
    if n > 1 {
      RanksFall(since, walk, n - 1);
    }
    assert walk[n - 1 + 1] in Entry(walk[n - 1], since);
    EntryLowersRank(walk[n - 1], since, walk[n]);
  }

  /** Some library depends on itself in exactly two blocks of the table. */
  lemma TableIsCyclic(since: nat)
    ensures (exists cycle :: IsCycle(since, cycle)) <==> 53 <= since < 55
  {
    if 53 <= since < 55 {
      assert IsCycle(since, [Atomic, Thread, Atomic]);
    } else if cycle :| IsCycle(since, cycle) {
      RanksFall(since, cycle, |cycle| - 1);
    }
  }

  lemma ReleasesAscend()
    ensures forall i, j :: 0 <= i < j < |RELEASES| ==> RELEASES[i] < RELEASES[j]
    ensures forall i :: 0 <= i < |RELEASES| ==> 0 < RELEASES[i]
    ensures 53 in RELEASES && 55 in RELEASES
  {
    assert RELEASES[10] == 53 && RELEASES[12] == 55;
  }

  /** The chain of version tests selects the block that starts at or below the version. */
  lemma SinceMeaning(v: Version, releases: seq<nat>)
    requires releases == RELEASES
    ensures forall b :: b in releases ==> (b <= LastChange(v, releases, 0) <==> !Precedes(v, [1, b, 0]))
  {
    ReleasesAscend();
    LastChangeMeaning(v, releases, 0);
  }

  /** Dependencies are cyclic exactly from 1.53.0 up to, but not including, 1.55.0. */
  lemma VersionIsCyclic(version: string)
    requires IsDotted(version) && Truthy([version])
    ensures (exists cycle :: IsCycle(Since(Some(version)), cycle))
            <==> !Precedes(Numbers(version), [1, 53, 0]) && Precedes(Numbers(version), [1, 55, 0])
  {
    SinceMeaning(Numbers(version), RELEASES);
    ReleasesAscend();
    TableIsCyclic(Since(Some(version)));
  }

  lemma ThreadDependencies(since: nat, c: string)
    requires c == "thread"
    ensures ComponentDependencies(since, c) != [] <==> since >= 38
  {
    UnsuffixedThread();
    UpperThread();
    FindThread();
    EntryDependencies(since, c, Thread);
    ThreadEntry(since);
  }

  lemma EntryDependencies(since: nat, c: string, l: Library)
    requires SplitPython(c) == (c, "") && FindEntry(Upper(c)) == Some(l)
    ensures |ComponentDependencies(since, c)| == |Entry(l, since)|
  {
  }

  lemma ThreadEntry(since: nat)
    ensures Entry(Thread, since) != [] <==> since >= 38
  {
  }

  lemma UnsuffixedThread()
    ensures SplitPython("thread") == ("thread", "")
  {
    var c := "thread";
    var (base, suffix) := SplitPython(c);
    assert c[0] == 't';
  }

  lemma FindThread()
    ensures FindEntry("THREAD") == Some(Thread)
  {
  }

  lemma UpperThread()
    ensures Upper("thread") == "THREAD"
  {
    var c := "thread";
    forall i | 0 <= i < |c|
      ensures |Upper(c)| == |c| && Upper(c)[i] == "THREAD"[i]
    {
      UpperIsPointwise(c, i);
    }
    assert |Upper(c)| == |c| by { UpperIsPointwise(c, 0); }
  }
}
