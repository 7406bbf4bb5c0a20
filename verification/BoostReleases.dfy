/** The dependency table read the other way: what each release of Boost changed, and the names
    under which the resolver meets the libraries. */
module BoostReleases {
  import opened BoostTable
  import opened CMake
  import opened Dependencies
  import opened Options
  import opened Versions

  // ---------- Release by release ----------

  /** What the dependencies of `l` became with release 1.`release`.0, if they changed then. */
  function ChangedAt(release: nat, l: Library): Option<seq<Library>> {
    match release
    case 33 => (match l
      case Iostreams => Some([Regex, Thread])
      case Regex => Some([Thread])
      case Wave => Some([Filesystem, Thread])
      case Wserialization => Some([Serialization])
      case _ => None)
    case 35 => (match l
      case Filesystem => Some([System])
      case Iostreams => Some([Regex])
      case Mpi => Some([Serialization])
      case MpiPython => Some([Python, Mpi, Serialization])
      case Regex => Some([])
      case Wave => Some([Filesystem, System, Thread])
      case _ => None)
    case 36 => (match l
      case Math => Some([MathC99, MathC99f, MathC99l, MathTr1, MathTr1f, MathTr1l])
      case _ => None)
    case 38 => (match l
      case Thread => Some([DateTime])
      case Wave => Some([Filesystem, System, Thread, DateTime])
      case _ => None)
    case 43 => (match l
      case Math => Some([MathC99, MathC99f, MathC99l, MathTr1, MathTr1f, MathTr1l, Random])
      case _ => None)
    case 44 => (match l
      case Math => Some([MathC99, MathC99f, MathC99l, MathTr1, MathTr1f, MathTr1l, Random, Serialization])
      case Wave => Some([Serialization, Filesystem, System, Thread, DateTime])
      case _ => None)
    case 45 => (match l
      case Math => Some([MathC99, MathC99f, MathC99l, MathTr1, MathTr1f, MathTr1l, Random])
      case Wave => Some([Filesystem, System, Serialization, Thread, DateTime])
      case _ => None)
    case 47 => (match l
      case Chrono => Some([System])
      case _ => None)
    case 48 => (match l
      case Timer => Some([Chrono, System])
      case _ => None)
    case 50 => (match l
      case Math => Some([MathC99, MathC99f, MathC99l, MathTr1, MathTr1f, MathTr1l, Regex, Random])
      case Thread => Some([Chrono, System, DateTime])
      case Wave => Some([Filesystem, System, Serialization, Thread, Chrono, DateTime])
      case _ => None)
    case 53 => (match l
      case Atomic => Some([Thread, Chrono, System, DateTime])
      case Thread => Some([Chrono, System, DateTime, Atomic])
      case _ => None)
    case 54 => (match l
      case Log => Some([LogSetup, DateTime, System, Filesystem, Thread, Regex, Chrono])
      case Wave => Some([Filesystem, System, Serialization, Thread, Chrono, DateTime, Atomic])
      case _ => None)
    case 55 => (match l
      case Atomic => Some([])
      case Coroutine => Some([Context, System])
      case _ => None)
    case 56 => (match l
      case Math => Some([MathC99, MathC99f, MathC99l, MathTr1, MathTr1f, MathTr1l, Atomic])
      case Random => Some([System])
      case _ => None)
    case 59 => (match l
      case Log => Some([LogSetup, DateTime, System, Filesystem, Thread, Regex, Chrono, Atomic])
      case _ => None)
    case 60 => (match l
      case Log => Some([DateTime, LogSetup, System, Filesystem, Thread, Regex, Chrono, Atomic])
      case _ => None)
    case 61 => (match l
      case Context => Some([Thread, Chrono, System, DateTime])
      case Timer => Some([])
      case _ => None)
    case 62 => (match l
      case Fiber => Some([Context, Thread, Chrono, System, DateTime])
      case _ => None)
    case 63 => (match l
      case Coroutine2 => Some([Context, Fiber, Thread, Chrono, System, DateTime])
      case _ => None)
    case 65 => (match l
      case Coroutine2 => Some([])
      case Numpy => Some([Python])
      case Timer => Some([Chrono, System])
      case _ => None)
    case 68 => (match l
      case Contract => Some([Thread, Chrono, System, DateTime])
      case _ => None)
    case 69 => (match l
      case Chrono => Some([])
      case Context => Some([])
      case Contract => Some([Thread, Chrono, DateTime])
      case Coroutine => Some([Context])
      case Fiber => Some([Context])
      case Filesystem => Some([])
      case Log => Some([DateTime, LogSetup, Filesystem, Thread, Regex, Chrono, Atomic])
      case Random => Some([])
      case Thread => Some([Chrono, DateTime, Atomic])
      case Wave => Some([Filesystem, Serialization, Thread, Chrono, DateTime, Atomic])
      case _ => None)
    case 70 => (match l
      case Timer => Some([Chrono])
      case _ => None)
    case 72 => (match l
      case Math => Some([MathC99, MathC99f, MathC99l, MathTr1, MathTr1f, MathTr1l, Chrono, Atomic])
      case _ => None)
    case 73 => (match l
      case Math => Some([MathC99, MathC99f, MathC99l, MathTr1, MathTr1f, MathTr1l, Atomic])
      case _ => None)
    case 75 => (match l
      case Json => Some([Container])
      case _ => None)
    case 77 => (match l
      case Contract => Some([Thread, Chrono])
      case Math => Some([MathC99, MathC99f, MathC99l, MathTr1, MathTr1f, MathTr1l])
      case Thread => Some([Chrono, Atomic])
      case Wave => Some([Filesystem, Serialization, Thread, Chrono, Atomic])
      case _ => None)
    case 78 => (match l
      case Log => Some([LogSetup, Filesystem, Thread, Regex, Chrono, Atomic])
      case _ => None)
    case 83 => (match l
      case Timer => Some([])
      case _ => None)
    case 87 => (match l
      case Log => Some([LogSetup, Filesystem, Thread, Regex, Atomic])
      case _ => None)
    case _ => None
  }

  /** The table of every library is what the releases up to now have made of it. */
  lemma TableFollowsReleases(l: Library, since: nat)
    ensures Entry(l, 0) == []
    ensures since > 0 ==>
      Entry(l, since) == match ChangedAt(since, l) { case Some(list) => list case None => Entry(l, since - 1) }
  {
    if since > 0 {
      match l {
        case Wave => WaveFollows(since);
        case Log => LogFollows(since);
        case Math => MathFollows(since);
        case Thread => ThreadFollows(since);
        case _ => OthersFollow(l, since);
      }
    }
  }

  lemma WaveFollows(since: nat)
    requires since > 0
    ensures Entry(Wave, since)
         == match ChangedAt(since, Wave) { case Some(list) => list case None => Entry(Wave, since - 1) }
  {
  }

  lemma LogFollows(since: nat)
    requires since > 0
    ensures Entry(Log, since)
         == match ChangedAt(since, Log) { case Some(list) => list case None => Entry(Log, since - 1) }
  {
  }

  lemma MathFollows(since: nat)
    requires since > 0
    ensures Entry(Math, since)
         == match ChangedAt(since, Math) { case Some(list) => list case None => Entry(Math, since - 1) }
  {
  }

  lemma ThreadFollows(since: nat)
    requires since > 0
    ensures Entry(Thread, since)
         == match ChangedAt(since, Thread) { case Some(list) => list case None => Entry(Thread, since - 1) }
  {
  }

  lemma OthersFollow(l: Library, since: nat)
    requires since > 0 && l !in {Wave, Log, Math, Thread}
    ensures Entry(l, since)
         == match ChangedAt(since, l) { case Some(list) => list case None => Entry(l, since - 1) }
  {
  }

  /** The chain of version tests has a test for every release that changed something. */
  lemma ChangesAreReleases(l: Library, since: nat)
    requires since > 0 && Entry(l, since) != Entry(l, since - 1)
    ensures since in RELEASES
  {
    TableFollowsReleases(l, since);
  }

  // ---------- The block of a version ----------

  lemma {:induction false} LastChangeIsBound(v: Version, bounds: seq<nat>, since: nat)
    ensures LastChange(v, bounds, since) == since || LastChange(v, bounds, since) in bounds
  {
    if bounds != [] && Compare(v, [1, bounds[0], 0]) != Less {
      LastChangeIsBound(v, bounds[1..], bounds[0]);
    }
  }

  /** Without a version there are no dependencies; with one, those of the last release that changed
      any at or below it. */
  lemma SinceIsLastRelease(version: Option<string>, releases: seq<nat>)
    requires (version.Some? ==> IsDotted(version.value)) && releases == RELEASES
    ensures version.None? || !Truthy([version.value]) ==> Since(version) == 0
    ensures version.Some? && Truthy([version.value]) ==>
      && (Since(version) == 0 || Since(version) in releases)
      && forall b :: b in releases ==> (b <= Since(version) <==> !Precedes(Numbers(version.value), [1, b, 0]))
  {
    if version.Some? && Truthy([version.value]) {
      SinceMeaning(Numbers(version.value), releases);
      LastChangeIsBound(Numbers(version.value), releases, 0);
    }
  }

  /** A version below a release does not get the dependencies of that release. */
  lemma SinceIsBelow(version: Option<string>, releases: seq<nat>, b: nat)
    requires version.Some? && IsDotted(version.value) && Truthy([version.value])
    requires releases == RELEASES && b in releases && Precedes(Numbers(version.value), [1, b, 0])
    ensures Since(version) < b
  {
    SinceIsLastRelease(version, releases);
  }

  /** Imported targets are defined from 1.33.0 on, and when the version is not known. */
  lemma TargetsFromOneThirtyThree(version: Option<string>)
    requires version.Some? ==> IsDotted(version.value)
    ensures ImportedTargets(version) <==>
      version.None? || !Truthy([version.value]) || !Precedes(Numbers(version.value), [1, 33, 0])
  {
    if version.Some? {
      CompareMeaning(Numbers(version.value), [1, 33, 0]);
    }
  }
}
