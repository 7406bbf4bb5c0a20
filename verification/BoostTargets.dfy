/** From a request to imported targets: closing the request under the table, then creating one
    target per found component, each linking to the targets of its dependencies. */
module BoostTargets {
  import opened BoostNames
  import opened BoostReleases
  import opened BoostResolver
  import opened BoostTable
  import opened CMake
  import opened Dependencies
  import opened Options
  import Versions

  /** An entry of a target's INTERFACE_LINK_LIBRARIES: Boost::<name>, or Threads::Threads. */
  datatype Link = Boost(name: string) | Threads

  /** The imported targets Boost::<name> that exist, with their link lists. */
  type Targets = map<string, seq<Link>>

  // ---------- Resolving a request ----------

  /** Boost before 1.35 has no system library, so a request for it is dropped. */
  function KnownRequest(version: Option<string>, request: seq<string>): seq<string>
    requires version.Some? ==> Versions.IsDotted(version.value)
  {
    if && version.Some? && Truthy([version.value]) && Truthy(request)
       && Versions.Compare(Versions.Numbers(version.value), [1, 35, 0]) == Versions.Less
    then RemoveItems(request, ["system"])
    else request
  }

  method FindComponents(version: Option<string>, request: seq<string>)
    returns (components: seq<string>, extra: seq<string>, vars: DependencyVars)
    requires version.Some? ==> Versions.IsDotted(version.value)
    ensures var wanted := KnownRequest(version, request);
      && (DiscoveryOrder(BoostGraph(Since(version)), wanted, components) <==> wanted == [] || Truthy(wanted))
      && (Truthy(wanted) ==> |wanted| <= |components| && extra == components[|wanted|..])
      && (!Truthy(wanted) ==> components == extra == [])
    ensures vars == RecordedVars(BoostGraph(Since(version)), components)
    ensures PythonsMatch(Since(version), components)
    ensures "system" in request && Truthy(request) ==>
      ("system" in components <==> !IsBefore(version, [1, 35, 0]))
  {
    var wanted := KnownRequest(version, request);
    var g := BoostGraph(Since(version));
    UniverseIsClosed(Since(version), wanted);
    forall c, d | c in Universe(wanted) && d in g(c)
      ensures IsPlain(d)
    {
      DependenciesArePlain(Since(version), c, d);
    }
    ghost var rounds;
    components, extra, vars, rounds := MissingDependencies(g, wanted, Universe(wanted));
    if Truthy(wanted) {
      PythonsAreResolved(Since(version), wanted, components);
    }
    SystemIsResolved(version, request, components);
  }

  /** The version is known, and older than `bound`. */
  ghost predicate IsBefore(version: Option<string>, bound: Versions.Version)
    requires version.Some? ==> Versions.IsDotted(version.value)
  {
    version.Some? && Truthy([version.value]) && Versions.Precedes(Versions.Numbers(version.value), bound)
  }

  /** Every Python binding comes with the Python library of its own suffix. */
  ghost predicate PythonsMatch(since: nat, components: seq<string>) {
    forall suffix :: suffix == "" || IsPythonSuffix(suffix) ==>
      && (since >= 35 && "mpi_python" + suffix in components ==> "python" + suffix in components)
      && (since >= 65 && "numpy" + suffix in components ==> "python" + suffix in components)
  }

  lemma PythonsAreResolved(since: nat, wanted: seq<string>, components: seq<string>)
    requires DiscoveryOrder(BoostGraph(since), wanted, components)
    ensures PythonsMatch(since, components)
  {
    DiscoveryIsClosed(BoostGraph(since), wanted, components);
    forall suffix | suffix == "" || IsPythonSuffix(suffix)
      ensures since >= 35 && "mpi_python" + suffix in components ==> "python" + suffix in components
      ensures since >= 65 && "numpy" + suffix in components ==> "python" + suffix in components
    {
      SuffixedDependencies(since, suffix);
      ClosedMember(BoostGraph(since), components, "mpi_python" + suffix, "python" + suffix);
      ClosedMember(BoostGraph(since), components, "numpy" + suffix, "python" + suffix);
    }
  }

  lemma ClosedMember(g: Graph, components: seq<string>, c: string, d: string)
    requires ClosedUnder(g, Names(components))
    ensures c in components && d in g(c) ==> d in components
  {
    assert c in components ==> c in Names(components);
    assert d in Names(components) ==> d in components;
  }

  /** What is left of a request: the system library goes exactly below 1.35.0, nothing else ever. */
  lemma KnownRequestMeaning(version: Option<string>, request: seq<string>)
    requires version.Some? ==> Versions.IsDotted(version.value)
    ensures !(Truthy(request) && IsBefore(version, [1, 35, 0])) ==> KnownRequest(version, request) == request
    ensures Truthy(request) && IsBefore(version, [1, 35, 0]) ==>
      && (forall x :: x in KnownRequest(version, request) <==> x in request && x != "system")
      && KnownRequest(version, request) == RemoveItems(request, ["system"])
  {
    if version.Some? {
      Versions.CompareMeaning(Versions.Numbers(version.value), [1, 35, 0]);
    }
    RemoveItemsMember(request, ["system"]);
  }

  /** The dependencies that the table knew before 1.35. */
  lemma EarlyEntries(since: nat, k: Library, l: Library)
    requires since < 35 && l in Entry(k, since)
    ensures l in {Regex, Thread, Filesystem, Serialization}
  {
  }

  lemma NoSystemYet(since: nat, c: string)
    requires since < 35
    ensures "system" !in BoostGraph(since)(c)
  {
    if "system" in BoostGraph(since)(c) {
      var l := DependencyText(since, c, "system");
      var k :| FindEntry(Upper(SplitPython(c).0)) == Some(k) && l in Entry(k, since);
      EarlyEntries(since, k, l);
      EarlyNames(l);
    }
  }

  lemma EarlyNames(l: Library)
    requires l in {Regex, Thread, Filesystem, Serialization}
    ensures l != Python && Name(l) != "system"
  {
    assert Name(l)[1] != "system"[1];
  }

  lemma SystemIsResolved(version: Option<string>, request: seq<string>, components: seq<string>)
    requires version.Some? ==> Versions.IsDotted(version.value)
    requires var wanted := KnownRequest(version, request);
      if Truthy(wanted) then DiscoveryOrder(BoostGraph(Since(version)), wanted, components) else components == []
    ensures "system" in request && Truthy(request) ==>
      ("system" in components <==> !IsBefore(version, [1, 35, 0]))
  {
    var wanted, g := KnownRequest(version, request), BoostGraph(Since(version));
    KnownRequestMeaning(version, request);
    if Truthy(wanted) && Truthy(request) {
      if IsBefore(version, [1, 35, 0]) {
        ReleaseOfSystem(version);
        SystemStaysOut(Since(version), wanted, components);
      } else {
        DiscoveryIsClosed(g, wanted, components);
      }
    }
  }

  lemma ReleaseOfSystem(version: Option<string>)
    requires (version.Some? ==> Versions.IsDotted(version.value)) && IsBefore(version, [1, 35, 0])
    ensures Since(version) < 35
  {
    SystemIsRelease(RELEASES);
    SinceIsBelow(version, RELEASES, 35);
  }

  lemma SystemIsRelease(releases: seq<nat>)
    requires releases == RELEASES
    ensures 35 in releases
  {
    assert releases[1] == 35;
  }

  lemma SystemStaysOut(since: nat, wanted: seq<string>, components: seq<string>)
    requires since < 35 && DiscoveryOrder(BoostGraph(since), wanted, components) && "system" !in wanted
    ensures "system" !in components
  {
    var g, names := BoostGraph(since), Names(components) - {"system"};
    DiscoveryIsClosed(g, wanted, components);
    forall c, d | c in names && d in g(c)
      ensures d in names
    {
      NoSystemYet(since, c);
      assert c in Names(components);
    }
    forall c | c in wanted
      ensures c in names
    {
      assert c in Names(components);
    }
    DiscoveryIsLeast(g, wanted, components, names);
  }

  // ---------- Creating the targets ----------

  function BoostLinks(deps: seq<string>): (links: seq<Link>)
    ensures |links| == |deps| && forall i :: 0 <= i < |links| ==> links[i] == Boost(deps[i])
  {
    if deps == [] then [] else BoostLinks(deps[..|deps| - 1]) + [Boost(deps[|deps| - 1])]
  }

  function LinksOf(component: string, deps: seq<string>): seq<Link> {
    if !Truthy(deps) then []
    else BoostLinks(deps) + (if component == "thread" then [Threads] else [])
  }

  function DepsOf(vars: DependencyVars, component: string): seq<string> {
    if Upper(component) in vars then vars[Upper(component)] else []
  }

  /** The targets once the loop is over: the existing ones untouched, and one for every found
      component that had none. */
  ghost function TargetsAfter(components: seq<string>, vars: DependencyVars, found: string -> bool, existing: Targets)
    : Targets
  {
    map c | c in existing.Keys + Names(components) && (c in existing || found(Upper(c)))
      :: if c in existing then existing[c] else LinksOf(c, DepsOf(vars, c))
  }

  lemma TargetAt(components: seq<string>, vars: DependencyVars, found: string -> bool, existing: Targets, x: string)
    ensures var targets := TargetsAfter(components, vars, found, existing);
      && (x in targets <==> x in existing || (x in components && found(Upper(x))))
      && (x in targets ==> targets[x] == if x in existing then existing[x] else LinksOf(x, DepsOf(vars, x)))
  {
    assert x in components <==> x in Names(components);
  }

  /** One more component leaves the other targets as they are. */
  lemma TargetsStep(components: seq<string>, c: string, vars: DependencyVars, found: string -> bool, existing: Targets)
    ensures var targets := TargetsAfter(components, vars, found, existing);
      TargetsAfter(components + [c], vars, found, existing)
      == if c !in targets && found(Upper(c)) then targets[c := LinksOf(c, DepsOf(vars, c))] else targets
  {
    TargetAt(components, vars, found, existing, c);
    forall x {
      TargetStepAt(components, c, vars, found, existing, x);
    }
    OneMoreTarget(TargetsAfter(components, vars, found, existing),
                  TargetsAfter(components + [c], vars, found, existing),
                  c, LinksOf(c, DepsOf(vars, c)), found(Upper(c)));
  }

  lemma TargetStepAt(components: seq<string>, c: string, vars: DependencyVars, found: string -> bool,
                     existing: Targets, x: string)
    ensures var targets := TargetsAfter(components, vars, found, existing);
      var after := TargetsAfter(components + [c], vars, found, existing);
      && (x in after <==> x in targets || (x == c && found(Upper(c))))
      && (x in after ==> after[x] == if x in targets then targets[x] else LinksOf(c, DepsOf(vars, c)))
  {
    TargetAt(components, vars, found, existing, x);
    TargetAt(components + [c], vars, found, existing, x);
  }

  lemma OneMoreTarget(before: Targets, after: Targets, c: string, links: seq<Link>, more: bool)
    requires forall x :: x in after <==> x in before || (x == c && more)
    requires forall x :: x in after ==> after[x] == if x in before then before[x] else links
    ensures after == if c !in before && more then before[c := links] else before
  {
  }

  /** One link per dependency, in order, and one more at the end for the thread library; none at all
      for a list that is read as false. */
  lemma LinksMeaning(component: string, deps: seq<string>)
    ensures !Truthy(deps) ==> LinksOf(component, deps) == []
    ensures Truthy(deps) ==> |LinksOf(component, deps)| == |deps| + (if component == "thread" then 1 else 0)
    ensures Truthy(deps) ==> forall i :: 0 <= i < |deps| ==> LinksOf(component, deps)[i] == Boost(deps[i])
    ensures Truthy(deps) && component == "thread" ==> LinksOf(component, deps)[|deps|] == Threads
  {
  }

  /** A library is linked to the targets of its dependencies and no others. */
  lemma LinkedIsDependency(component: string, deps: seq<string>, d: string)
    ensures Boost(d) in LinksOf(component, deps) <==> d in deps && Truthy(deps)
  {
    var links := BoostLinks(deps);
    if d in deps {
      var i :| 0 <= i < |deps| && deps[i] == d;
      assert links[i] == Boost(d);
    }
  }

  method MakeLinks(component: string, deps: seq<string>) returns (links: seq<Link>)
    ensures links == LinksOf(component, deps)
    ensures |links| == if !Truthy(deps) then 0 else |deps| + (if component == "thread" then 1 else 0)
    ensures forall i :: 0 <= i < |links| ==> links[i] == if i < |deps| then Boost(deps[i]) else Threads
  {
    LinksMeaning(component, deps);
    links := [];
    if Truthy(deps) {
      for j := 0 to |deps|
        invariant links == BoostLinks(deps[..j])
      {
        assert deps[..j + 1][..j] == deps[..j];
        links := links + [Boost(deps[j])];
      }
      assert deps[..|deps|] == deps;
      if component == "thread" {
        links := links + [Threads];
      }
    }
  }

  method AddImportedTargets(components: seq<string>, vars: DependencyVars, found: string -> bool, existing: Targets,
                            imported: bool)
    returns (targets: Targets)
    ensures targets == if imported then TargetsAfter(components, vars, found, existing) else existing
  {
    targets := existing;
    for i := 0 to |components|
      invariant targets == if imported then TargetsAfter(components[..i], vars, found, existing) else existing
    {
      var component := components[i];
      TargetsStep(components[..i], component, vars, found, existing);
      assert components[..i + 1] == components[..i] + [component];
      if imported && component !in targets {
        if found(Upper(component)) {
          var links := MakeLinks(component, DepsOf(vars, component));
          targets := targets[component := links];
        }
      }
    }
    assert components[..|components|] == components;
  }

  // ---------- What the closure is for ----------

  /** A created target's link to Boost::d leads to a target exactly when d was found or already
      had a target; the resolver never leaves out a dependency. */
  lemma LinkedTargetExists(g: Graph, request: seq<string>, components: seq<string>, found: string -> bool,
                           existing: Targets, c: string, d: string)
    requires DiscoveryOrder(g, request, components)
    requires c !in existing && c in TargetsAfter(components, RecordedVars(g, components), found, existing)
    requires Boost(d) in TargetsAfter(components, RecordedVars(g, components), found, existing)[c]
    ensures d in components
    ensures d in TargetsAfter(components, RecordedVars(g, components), found, existing)
            <==> found(Upper(d)) || d in existing
  {
    var vars := RecordedVars(g, components);
    TargetAt(components, vars, found, existing, c);
    LinkedIsDependency(c, DepsOf(vars, c), d);
    var i := RecordedVarsOrigin(g, components, Upper(c));
    DiscoveryIsClosed(g, request, components);
    assert components[i] in Names(components) && d in g(components[i]);
    assert d in Names(components);
  }

  /** When every resolved component is found, no created target has a dangling link, although
      targets are created before the targets they name. */
  lemma NoDanglingLinks(g: Graph, request: seq<string>, components: seq<string>, found: string -> bool,
                        existing: Targets)
    requires DiscoveryOrder(g, request, components)
    requires forall c :: c in components ==> found(Upper(c))
    ensures var targets := TargetsAfter(components, RecordedVars(g, components), found, existing);
      && (forall c :: c in components ==> c in targets)
      && (forall c, d :: c in targets && c !in existing && Boost(d) in targets[c] ==> d in targets)
  {
    var targets := TargetsAfter(components, RecordedVars(g, components), found, existing);
    forall c | c in components
      ensures c in targets
    {
      assert c in Names(components);
    }
    forall c, d | c in targets && c !in existing && Boost(d) in targets[c]
      ensures d in targets
    {
      LinkedTargetExists(g, request, components, found, existing, c, d);
    }
  }

  /** The targets for the headers, which every use of Boost can link to. */
  function HeaderTargets(existing: Targets): Targets {
    var withHeaders := if "headers" in existing then existing else existing["headers" := []];
    if "boost" in withHeaders then withHeaders else withHeaders["boost" := [Boost("headers")]]
  }

  /** The links of every target that is not in `existing` lead to targets. */
  ghost predicate NothingDangles(targets: Targets, existing: Targets) {
    forall c, d :: c in targets && c !in existing && Boost(d) in targets[c] ==> d in targets
  }

  /** What finding Boost promises about the targets. */
  ghost predicate Imported(components: seq<string>, imported: bool, found: string -> bool, existing: Targets,
                           targets: Targets) {
    && (forall c :: c in existing ==> c in targets && targets[c] == existing[c])
    && (forall c :: c in targets <==> c in existing || (imported && c in components && found(Upper(c))))
  }

  /** Finding Boost as a whole: resolve the request and, if Boost is found, import the headers and
      the libraries that were found. */
  method ImportBoost(version: Option<string>, request: seq<string>, boostFound: bool, found: string -> bool,
                     existing: Targets)
    returns (components: seq<string>, targets: Targets)
    requires version.Some? ==> Versions.IsDotted(version.value)
    ensures forall c :: c in components <==>
      Truthy(KnownRequest(version, request)) && Reachable(BoostGraph(Since(version)), KnownRequest(version, request), c)
    ensures if boostFound then Imported(components, ImportedTargets(version), found, HeaderTargets(existing), targets)
            else targets == existing
    ensures boostFound ==> HeadersImported(existing, targets)
    ensures boostFound && ImportedTargets(version) && NamesDiffer(components) ==>
      LinkedAsTabled(Since(version), HeaderTargets(existing), targets)
    ensures (forall c :: c in components ==> found(Upper(c))) ==> NothingDangles(targets, existing)
  {
    var extra, vars;
    components, extra, vars := FindComponents(version, request);
    ResolvedAreReachable(BoostGraph(Since(version)), KnownRequest(version, request), components);
    targets := existing;
    if boostFound {
      targets := AddImportedTargets(components, vars, found, HeaderTargets(existing), ImportedTargets(version));
      TargetsAreImported(components, vars, found, HeaderTargets(existing), ImportedTargets(version));
      NothingDanglesAfter(BoostGraph(Since(version)), KnownRequest(version, request), components, found, existing,
                          ImportedTargets(version), targets);
      HeadersAreImported(components, ImportedTargets(version), found, existing, targets);
      if ImportedTargets(version) && NamesDiffer(components) {
        CreatedLinks(Since(version), components, found, HeaderTargets(existing), targets);
      }
    }
  }

  /** Existing targets stay, and there are targets for the headers. */
  ghost predicate HeadersImported(existing: Targets, targets: Targets) {
    && (forall c :: c in existing ==> c in targets && targets[c] == existing[c])
    && "headers" in targets && ("headers" !in existing ==> targets["headers"] == [])
    && "boost" in targets && ("boost" !in existing ==> targets["boost"] == [Boost("headers")])
  }

  lemma HeadersAreImported(components: seq<string>, imported: bool, found: string -> bool, existing: Targets,
                           targets: Targets)
    requires Imported(components, imported, found, HeaderTargets(existing), targets)
    ensures HeadersImported(existing, targets)
  {
    assert "headers"[0] != "boost"[0];
  }

  /** The links of every created target are those of the table. */
  ghost predicate LinkedAsTabled(since: nat, before: Targets, targets: Targets) {
    forall c :: c in targets && c !in before ==> targets[c] == DependencyLinks(c, BoostGraph(since)(c))
  }

  /** The links of a library: one for each of its dependencies in order, and for the thread library,
      if it has dependencies, one more. */
  function DependencyLinks(c: string, deps: seq<string>): seq<Link> {
    seq(|deps|, i requires 0 <= i < |deps| => Boost(deps[i])) + (if c == "thread" && deps != [] then [Threads] else [])
  }

  lemma CreatedLinks(since: nat, components: seq<string>, found: string -> bool, before: Targets, targets: Targets)
    requires NamesDiffer(components)
    requires targets == TargetsAfter(components, RecordedVars(BoostGraph(since), components), found, before)
    ensures LinkedAsTabled(since, before, targets)
  {
    forall c | c in targets && c !in before
      ensures targets[c] == DependencyLinks(c, BoostGraph(since)(c))
    {
      TargetAt(components, RecordedVars(BoostGraph(since), components), found, before, c);
      OwnVariable(BoostGraph(since), components, c);
      TableLinks(since, c);
    }
  }

  /** When names differ, each component's variable holds its own dependencies. */
  lemma OwnVariable(g: Graph, components: seq<string>, c: string)
    requires NamesDiffer(components) && c in components
    ensures DepsOf(RecordedVars(g, components), c) == g(c)
  {
    var k :| 0 <= k < |components| && components[k] == c;
    RecordedVarsCover(g, components, k);
    var i := RecordedVarsOrigin(g, components, Upper(c));
    assert components[i] in components;
  }

  lemma TableLinks(since: nat, c: string)
    ensures LinksOf(c, BoostGraph(since)(c)) == DependencyLinks(c, BoostGraph(since)(c))
  {
    var deps := BoostGraph(since)(c);
    forall d | d in deps
      ensures IsPlain(d)
    {
      DependenciesArePlain(since, c, d);
    }
    PlainLinks(c, deps);
  }

  lemma PlainLinks(c: string, deps: seq<string>)
    requires forall d :: d in deps ==> IsPlain(d)
    ensures LinksOf(c, deps) == DependencyLinks(c, deps)
  {
    LinksMeaning(c, deps);
    if deps != [] {
      PlainListIsTruthy(deps);
    }
  }

  lemma TargetsAreImported(components: seq<string>, vars: DependencyVars, found: string -> bool, before: Targets,
                           imported: bool)
    ensures Imported(components, imported, found, before,
                     if imported then TargetsAfter(components, vars, found, before) else before)
  {
    forall c {
      TargetAt(components, vars, found, before, c);
    }
  }

  /** When everything was found, nothing dangles: the library targets resolve, and the targets for
      the headers name no library. */
  lemma NothingDanglesAfter(g: Graph, wanted: seq<string>, components: seq<string>, found: string -> bool,
                            existing: Targets, imported: bool, targets: Targets)
    requires if Truthy(wanted) then DiscoveryOrder(g, wanted, components) else components == []
    requires Imported(components, imported, found, HeaderTargets(existing), targets)
    requires imported ==>
      targets == TargetsAfter(components, RecordedVars(g, components), found, HeaderTargets(existing))
    ensures (forall c :: c in components ==> found(Upper(c))) ==> NothingDangles(targets, existing)
  {
    var before := HeaderTargets(existing);
    if (forall c :: c in components ==> found(Upper(c))) {
      forall c, d | c in targets && c !in existing && Boost(d) in targets[c]
        ensures d in targets
      {
        if c in before {
          assert d == "headers";
        } else {
          LinkedTargetExists(g, wanted, components, found, before, c, d);
        }
      }
    }
  }

  lemma ResolvedAreReachable(g: Graph, wanted: seq<string>, components: seq<string>)
    requires if Truthy(wanted) then DiscoveryOrder(g, wanted, components) else components == []
    ensures forall c :: c in components <==> Truthy(wanted) && Reachable(g, wanted, c)
  {
    forall c
      ensures c in components <==> Truthy(wanted) && Reachable(g, wanted, c)
    {
      if Truthy(wanted) {
        DiscoveryIsReachability(g, wanted, components, c);
      }
    }
  }

  // ---------- What finding Boost promises about links ----------

  /** All requested components are found: what Boost needs to be found when each of them is
      required.  Components that were added as dependencies are not required. */
  ghost predicate RequestFound(request: seq<string>, found: string -> bool) {
    forall c :: c in request ==> found(Upper(c))
  }

  /** No two components share an upper-case name, and so a dependency variable. */
  ghost predicate NamesDiffer(components: seq<string>) {
    forall c, d :: c in components && d in components && Upper(c) == Upper(d) ==> c == d
  }

  /** Whatever else is found, finding the request leaves no dangling link. */
  ghost predicate RequestSuffices(g: Graph, request: seq<string>, components: seq<string>, existing: Targets) {
    forall found :: RequestFound(request, found) ==>
      NothingDangles(TargetsAfter(components, RecordedVars(g, components), found, existing), existing)
  }

  /** Finding everything that was requested rules out dangling links exactly when resolving the
      request adds nothing to it. */
  lemma FoundRequestResolves(g: Graph, request: seq<string>, components: seq<string>, existing: Targets)
    requires DiscoveryOrder(g, request, components) && NamesDiffer(components)
    requires forall c :: c in components ==> c !in existing
    requires forall c, d :: c in components && d in g(c) ==> IsPlain(d)
    ensures RequestSuffices(g, request, components, existing) <==> components == request
  {
    if components == request {
      ClosedRequestSuffices(g, request, existing);
    } else {
      var c, d := MissingDependency(g, request, components);
      var found := OnlyRequested(request);
      LinkDangles(g, request, components, found, existing, c, d);
    }
  }

  /** An installation that has what was requested and nothing else. */
  lemma OnlyRequested(request: seq<string>) returns (found: string -> bool)
    ensures RequestFound(request, found)
    ensures forall u :: found(u) <==> exists r :: r in request && Upper(r) == u
  {
    found := u => exists r :: r in request && Upper(r) == u;
  }

  lemma ClosedRequestSuffices(g: Graph, request: seq<string>, existing: Targets)
    requires DiscoveryOrder(g, request, request)
    ensures RequestSuffices(g, request, request, existing)
  {
    forall found | RequestFound(request, found)
      ensures NothingDangles(TargetsAfter(request, RecordedVars(g, request), found, existing), existing)
    {
      NoDanglingLinks(g, request, request, found, existing);
    }
  }

  /** Some requested component has a dependency that was not requested. */
  lemma MissingDependency(g: Graph, request: seq<string>, components: seq<string>) returns (c: string, d: string)
    requires DiscoveryOrder(g, request, components) && components != request
    ensures c in request && d in g(c) && d !in request && c in components && d in components
  {
    DiscoveryOfClosed(g, request, components);
    c, d :| c in Names(request) && d in g(c) && d !in Names(request);
    DiscoveryIsClosed(g, request, components);
    assert c in Names(components) && d in Names(components);
  }

  /** Its link dangles when only what was requested is found. */
  lemma LinkDangles(g: Graph, request: seq<string>, components: seq<string>, found: string -> bool,
                    existing: Targets, c: string, d: string)
    requires DiscoveryOrder(g, request, components) && NamesDiffer(components)
    requires c !in existing && d !in existing
    requires forall x, y :: x in components && y in g(x) ==> IsPlain(y)
    requires forall u :: found(u) <==> exists r :: r in request && Upper(r) == u
    requires c in request && d in g(c) && d !in request && c in components && d in components
    ensures !NothingDangles(TargetsAfter(components, RecordedVars(g, components), found, existing), existing)
  {
    var vars := RecordedVars(g, components);
    var k :| 0 <= k < |components| && components[k] == c;
    RecordedVarsCover(g, components, k);
    var i := RecordedVarsOrigin(g, components, Upper(c));
    assert components[i] in components && DepsOf(vars, c) == g(c);
    TargetAt(components, vars, found, existing, c);
    TargetAt(components, vars, found, existing, d);
    PlainListIsTruthy(g(c));
    assert Boost(d) in LinksOf(c, g(c));
    DiscoveryIsClosed(g, request, components);
  }

  /** The thread target links to Threads::Threads only from Boost 1.38 on: before that it has no
      dependencies, and the link is added together with them. */
  lemma ThreadLinksThreads(since: nat)
    ensures Threads in LinksOf("thread", ComponentDependencies(since, "thread")) <==> since >= 38
  {
    var deps := ComponentDependencies(since, "thread");
    ThreadDependencies(since, "thread");
    if deps != [] {
      forall d | d in deps
        ensures IsPlain(d)
      {
        DependenciesArePlain(since, "thread", d);
      }
      PlainListIsTruthy(deps);
      PlainThreadLinks(deps);
    }
  }

  lemma PlainThreadLinks(deps: seq<string>)
    requires Truthy(deps)
    ensures Threads in LinksOf("thread", deps)
  {
    assert LinksOf("thread", deps) == BoostLinks(deps) + [Threads];
  }
}
