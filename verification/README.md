# SimCRS: a verified model

SimCRS sells travel solutions by delegating to other airline libraries. This project models the
parts of the repository that decide something themselves, and proves what they keep, in Dafny 4.11.
`dafny verify dfyconfig.toml` checks everything.

| files | what they model |
|---|---|
| `CMake`, `Dependencies`, `BoostResolver`, `BoostTable`, `BoostNames`, `BoostReleases`, `BoostTargets` | closing a Boost component request under the version-dependent dependency table, and creating the imported targets |
| `Versions`, `VersionCheck`, `StandardArgs` | comparing dotted versions, accepting a package version, deciding whether a package is found |
| `DynamicLookup` | the ordered search for a weak-link flag, its cache, and the libraries that get linked |
| `ServiceContexts`, `Lifetime`, `Operations`, `Factories`, `Runs`, `Effects`, `Restart` | the singletons, the object pools and their destruction on an explicit heap, over whole runs |
| `Services`, `Sessions` | how a SIMCRS_Service fills, uses and drops its pooled context, alone and among other services of the same process |
| `Distribution` | selling and cancelling a travel solution segment by segment |

`Options` holds the optional value, and `Sequences` distinctness and counting for lists.

**Boost.** The resolver is stated for any dependency function. A list is a *discovery order* when
expanding all of it finds exactly itself and every name beyond the request is found by earlier
ones; that determines the list (`DiscoveryIsUnique`), and it is reachability, the least closed set,
and ordered by distance. `BoostTable.Entry` is the table, library by library: `since < 50` stands
for the blocks before the one that begins at release 1.50.0, and `Since` finds the block of a
version by the same chain of comparisons. `BoostReleases` has the table a second time, as what each
release changed, and proves that both agree. Termination needs a finite universe although the table is
cyclic and python suffixes are open-ended: `Universe` computes it from the request. An undefined or
false Boost version means no dependencies. Dependency variables are taken to be unset before the
resolver starts.

**Versions.** Texts are dotted decimal numbers of any length. How CMake compares versions is not in
the repository; it is modelled as comparison number by number, a missing number counting as zero.
`TextOfThree` ties the texts to the numbers they are written for.

**The factory heap.** A heap maps addresses to live objects. `delete` requires a live object, and
every read requires its address to be live, so a double deletion or a read of freed memory would
not verify. Addresses are never reused. A process also keeps a log of all deletions, in order, and
its invariant says that every address used so far is either live or in the log, and then once.
`Runs.Perform` ties each operation of a run to the methods of the factory layer that do it. Runs
contain the public cleaning operations of both layers, not only `cleanFactory`. `Effects` says of each
operation, without the functions that the methods are proved against, which objects are live
afterwards, at which addresses, and in which order in which pool. The
repository has no concrete BOM factory; a client that allocates one, registers it and pools objects
in it stands for those that the base class is made for.

**Services.** `Sessions` covers every interleaving of services that are made, used and finalised in
one process. A service that has been finalised is not used again, because finalising is what its
destructor does. Calls are counted and ordered over whole histories: `NextCall` says what follows a
call, and `ExpectedCalls` how often it is made.

**AirInv** is an oracle: it may accept or refuse any request depending on all bookings. The one
thing assumed is that an accepted sale adds, and an accepted cancellation subtracts, the seats of
the request in its class, and that a refused request changes nothing.

## Where the code does less than one would expect

- A request that CMake reads as a false value (the single name `NO`, or a list ending in
  `x-NOTFOUND`) resolves to nothing. `MissingDependencies` states the exact condition, and
  `SingleNameIsLost` gives the input.
- Requiring components demands that the requested ones are found, not the dependencies that the
  resolver adds. Finding what was requested rules out links to missing targets exactly when the
  request already contained every dependency (`FoundRequestResolves`).
- A single required variable with a name like `N`, or a list of them ending in `x-NOTFOUND`, is
  rejected as if none had been given (`FindPackageHandleStandardArgs`).
- The dependency table has a cycle exactly from 1.53.0 up to 1.55.0 (`VersionIsCyclic`).
- The thread target links to `Threads::Threads` only from 1.38 on, because the link is appended
  inside the branch for components with dependencies (`ThreadLinksThreads`).
- A package passes the version check if no version variable is defined at all.
- The documentation of the dynamic lookup promises that a verdict is recomputed when the linker flags
  change. For a static target the hash covers the static flags, while the test project is given the
  shared ones. `VerdictIsCurrent` gives the exact condition under which this mismatch matters, and
  `StaticVerdictCanGoStale` a toolchain in which it would. With the test projects that are written
  here it stays latent: a static target never passes its test, so its verdict cannot change
  (`VerdictIsCurrentHere`).
- The test program for a library opens `./counter.so`, and only a module is built under that name. So
  only executables and modules are ever found to be weakly linkable (`OnlyExecutablesAndModules`).
- The returned link flags are those of the first test ever made for a pair of types, even when the
  verdict has been recomputed since (`LinkFlagsAreFirst`, `LinkFlagsAreCurrent`).
- A library whose name merely contains `debug`, `optimized` or `general` is silently not linked
  (`LinkedLibraries`).
- A list of libraries whose last one was not found links nothing at all, whatever precedes it, because
  the list is then read as false (`LinkedTarget`, `NotFoundDropsAll`).
- The flag that `sell` returns is that of the last segment. It certifies the whole sale for every
  inventory exactly when there is at most one segment (`FlagCertifiesSale`).

## Model

| member | source | states |
|---|---|---|
| Dependencies.ReachableWithin | config/FindBoost.cmake:1548-1564 | A name has a walk of dependencies from the request if and only if some number of rounds reaches it. |
| Dependencies.DiscoveryIsReachability | config/FindBoost.cmake:1546-1569 | The resolved list contains exactly the names reachable from the request, whatever cycles the dependencies have. |
| Dependencies.DiscoveryIsClosed | config/FindBoost.cmake:1546-1569 | The resolved list includes the request and is closed under dependencies. |
| Dependencies.DiscoveryIsLeast | config/FindBoost.cmake:1546-1569 | It is contained in every closed superset of the request. |
| Dependencies.DiscoveryByDistance | config/FindBoost.cmake:1548-1564 | It is ordered by non-decreasing distance from the request: any distance bound that a later name meets, an earlier one meets. |
| Dependencies.DiscoveryIsUnique | config/FindBoost.cmake:1546-1564 | Dependencies and request determine the list, element by element. |
| Dependencies.DiscoveryInOrderOfMention | config/FindBoost.cmake:1548-1564 | The exact place of every name: it stands where it is first mentioned, after exactly the requested names, all dependencies of earlier names, and those that precede it in the list that mentions it. |
| Dependencies.DiscoveryIsIdempotent | config/FindBoost.cmake:1541-1571 | Resolving a result again gives the same list. |
| Dependencies.DiscoveryIsMonotone | config/FindBoost.cmake:1541-1571 | A larger request gives a larger result. |
| Dependencies.DiscoveryOfUnion | config/FindBoost.cmake:1541-1571 | Resolving two requests together finds exactly what resolving each finds. |
| Dependencies.DiscoveryOfClosed | config/FindBoost.cmake:1541-1571 | The result equals the request if and only if the request is already closed. |
| BoostResolver.KeepNewDependencies | config/FindBoost.cmake:1556-1560 | The inner loop keeps each dependency that is neither processed nor found yet, once, in order. |
| BoostResolver.FindNewComponents | config/FindBoost.cmake:1550-1561 | One round reads every unprocessed component's dependencies, records them per component, and collects the new ones in order of discovery. |
| BoostResolver.RecordedVarsCover | config/FindBoost.cmake:1551-1554 | Every processed component has its dependency variable. |
| BoostResolver.RecordedVarsOrigin | config/FindBoost.cmake:1551-1554 | Every dependency variable holds the list of a processed component of that upper-case name. |
| BoostResolver.RoundIsNextDistance | config/FindBoost.cmake:1548-1564 | A round on the names at distance r finds exactly the names at distance r + 1. |
| BoostResolver.RoundShrinks | config/FindBoost.cmake:1548-1564 | Every round strictly shrinks the unvisited part of the universe, which is why the loop ends. |
| BoostResolver.RequestDropsOut | config/FindBoost.cmake:1565-1568 | Removing the requested names leaves the result without its requested prefix, also when the request has duplicates. |
| BoostResolver.MissingDependencies | config/FindBoost.cmake:1541-1571 | The whole worklist: its result is the discovery order if and only if the request is empty or true for CMake, the extra list is the part after the request, the variables are recorded, and round r appends exactly the names at distance r. |
| BoostTable.SplitPython | config/FindBoost.cmake:1022-1026 | A component splits without losing text; it carries a python suffix if and only if it is one of the three python libraries followed by such a suffix. |
| BoostNames.PythonSuffixForms | config/FindBoost.cmake:1023-1023 | A python suffix is one digit, two digits, or a digit, a dot and a decimal number; nothing else. |
| BoostNames.SuffixedDependencies | config/FindBoost.cmake:1022-1045 | For every suffix, or none, mpi_python depends from 1.35 on, and numpy from 1.65 on, on the python library of the same suffix; before that on nothing. |
| BoostNames.EntryHasName | config/FindBoost.cmake:1435-1436 | The variable that is read for a component is that of the library whose name it is in upper case. |
| BoostNames.NamedDependencies | config/FindBoost.cmake:1435-1436 | Under its own name every library has exactly the dependencies of the table, in order and by name; a library without a variable has none. |
| BoostReleases.TableFollowsReleases | config/FindBoost.cmake:1029-1427 | The table of every library at every release is what the releases up to it have changed, block by block. |
| BoostReleases.ChangesAreReleases | config/FindBoost.cmake:1029-1413 | Whenever an entry of the table changes, the chain of version tests has a test for that release. |
| BoostReleases.SinceIsLastRelease | config/FindBoost.cmake:1028-1413 | Dependencies are those of the last changing release at or below the version; without a version there are none. |
| BoostReleases.TargetsFromOneThirtyThree | config/FindBoost.cmake:1027-1031 | Imported targets are defined unless the version is known and below 1.33.0. |
| BoostTable.UniverseIsClosed | config/FindBoost.cmake:1022-1433 | For every version, all names that a request can reach lie in a finite set computed from the request. |
| BoostTable.DependenciesArePlain | config/FindBoost.cmake:1030-1433 | No dependency is a name that CMake would read as false. |
| BoostTable.LastChangeMeaning | config/FindBoost.cmake:1029-1413 | The chain of version tests selects the last block that starts at or below the version. |
| BoostTable.TableIsCyclic | config/FindBoost.cmake:1030-1427 | A library depends on itself through the table in exactly the two blocks that start at 1.53 and 1.54. |
| BoostTable.VersionIsCyclic | config/FindBoost.cmake:1121-1147 | In terms of versions: cyclic if and only if at least 1.53.0 and below 1.55.0. |
| BoostTargets.FindComponents | config/FindBoost.cmake:2155-2165 | For every version and request the resolver ends with the discovery order of the request and the matching extra list. A resolved mpi_python or numpy of one suffix brings the python library of the same suffix. In a request that is true for CMake, a requested system library is resolved if and only if the version is not below 1.35.0. |
| BoostTargets.KnownRequestMeaning | config/FindBoost.cmake:2155-2161 | Exactly for a known version below 1.35.0 exactly the system library drops out of the request, and the rest keeps its order. |
| BoostTargets.AddImportedTargets | config/FindBoost.cmake:2491-2542 | Existing targets stay, and each found component without a target gets one with its links. |
| BoostTargets.MakeLinks | config/FindBoost.cmake:2525-2536 | The links of a target, place by place: one per dependency in their order, then the threads library for thread alone, and none at all for a list that is read as false. |
| BoostTargets.LinkedIsDependency | config/FindBoost.cmake:2525-2536 | A target links to Boost::d if and only if d is among its dependencies. |
| BoostTargets.LinkedTargetExists | config/FindBoost.cmake:2491-2542 | A link of a created target leads to an existing target if and only if that dependency was found or had a target before; the dependency is always in the resolved list. |
| BoostTargets.NoDanglingLinks | config/FindBoost.cmake:2491-2542 | When every resolved component is found, no created target has a dangling link. |
| BoostTargets.ImportBoost | config/FindBoost.cmake:2155-2542 | From request to targets: components are exactly the reachable ones. If Boost is found, existing targets are untouched, header targets are added where missing, and exactly the found components join them, each linked to the dependencies that the table has for it, in order; if not, no target changes. Nothing dangles when all components are found. |
| BoostTargets.FoundRequestResolves | config/FindBoost.cmake:2411-2536 | Finding all that was requested, whatever else is found, leaves no dangling link if and only if resolving the request adds nothing to it. |
| BoostTargets.ThreadLinksThreads | config/FindBoost.cmake:2525-2535 | The thread target links to the threads library if and only if the release block starts at 1.38 or later. |
| CMake.RemoveDuplicatesMeaning | config/targetLinkLibrariesWithDynamicLookup.cmake:563-573 | Removing duplicates keeps every element, once, in the order of the first occurrences. |
| CMake.TruthOfOne | config/FindPackageHandleStandardArgs.cmake:430-430 | One value is read as false if and only if it is empty, NOTFOUND, ends in -NOTFOUND, or is 0, N, NO, OFF, FALSE or IGNORE in any case. |
| CMake.TruthOfMany | config/targetLinkLibrariesWithDynamicLookup.cmake:583-584 | A longer list is read as false if and only if its last element ends in -NOTFOUND; the empty list is false. |
| CMake.SingleNameIsLost | config/FindBoost.cmake:1548-1548 | The list that holds only the name NO is read as false, and so not resolved. |
| Versions.PiecesOfJoin | config/FindPackageHandleStandardArgs.cmake:327-330 | Joining two texts with a dot joins their components. |
| Versions.DotsCountPieces | config/FindPackageHandleStandardArgs.cmake:327-330 | There is one component more than there are dots. |
| Versions.DecimalOfShow | config/FindPackageHandleStandardArgs.cmake:314-359 | The decimal text of a number denotes that number. |
| Versions.TextOfThree | config/FindPackageHandleStandardArgs.cmake:314-359 | The text a.b.c denotes the version with the numbers a, b and c. |
| Versions.CompareMeaning | config/FindPackageHandleStandardArgs.cmake:314-359 | Comparison is lexicographic on zero-padded number lists of any length. |
| Versions.PrecedesTotal | config/FindPackageHandleStandardArgs.cmake:314-359 | Any two versions are ordered one way, the other, or differ only in trailing zeros, and no two of these hold. |
| Versions.PrecedesTransitive | config/FindPackageHandleStandardArgs.cmake:314-359 | The version order is transitive. |
| VersionCheck.MatchHead | config/FindPackageHandleStandardArgs.cmake:334-343 | The truncated text is the part before the k-th dot, and there is none exactly when the text has fewer than k dots. |
| VersionCheck.HeadIsUnique | config/FindPackageHandleStandardArgs.cmake:334-343 | Only one prefix of a text fits the pattern. |
| VersionCheck.HeadNumbers | config/FindPackageHandleStandardArgs.cmake:326-343 | Truncating the text keeps exactly the first k numbers. |
| VersionCheck.FindPackageCheckVersion | config/FindPackageHandleStandardArgs.cmake:310-371 | The verdict, branch by branch: a handled range decides by its ends, which an exclusive upper end leaves out; otherwise an exact request accepts from the requested version up to its successor, a minimum accepts what is not below it, and with nothing requested everything passes. |
| VersionCheck.AcceptableBranches | config/FindPackageHandleStandardArgs.cmake:313-368 | Which branch decides for which request, and its condition in terms of the order of versions alone. |
| VersionCheck.MinimumIsExactOrAbove | config/FindPackageHandleStandardArgs.cmake:326-364 | A minimum accepts a version if and only if the exact request accepts it or it is above the requested one. |
| VersionCheck.UnhandledRange | config/FindPackageHandleStandardArgs.cmake:300-326 | Where ranges are not handled, the verdict on a range is that on its lower end. |
| VersionCheck.ExactIsInterval | config/FindPackageHandleStandardArgs.cmake:326-357 | An exact request accepts the interval from the requested version to the next version of the same length. |
| VersionCheck.ExactImpliesMinimum | config/FindPackageHandleStandardArgs.cmake:326-364 | What an exact request accepts, the same request as a minimum accepts. |
| VersionCheck.RangeIsConvex | config/FindPackageHandleStandardArgs.cmake:313-324 | Whatever lies between two versions accepted by a range is accepted. |
| VersionCheck.RangeInhabited | config/FindPackageHandleStandardArgs.cmake:313-324 | A range accepts some version if and only if its ends are in order, or equal and inclusive. |
| VersionCheck.VerdictIgnoresTrailingZeros | config/FindPackageHandleStandardArgs.cmake:313-368 | No branch distinguishes versions that differ only in trailing zeros. |
| StandardArgs.CheckRequiredVars | config/FindPackageHandleStandardArgs.cmake:486-497 | The first loop lists exactly the required variables that are not set, in order. |
| StandardArgs.CheckComponents | config/FindPackageHandleStandardArgs.cmake:510-532 | The second loop appends exactly the required components that are not found, in order, and clears the flag if there are any. |
| StandardArgs.SelectMeaning | config/FindPackageHandleStandardArgs.cmake:490-532 | What is listed as missing is what is absent, and nothing is listed exactly when nothing is absent. |
| StandardArgs.SelectByParts | config/FindPackageHandleStandardArgs.cmake:490-532 | What is missing is listed in order: the list of two parts is the lists of the parts, one after the other. |
| StandardArgs.SelectCounts | config/FindPackageHandleStandardArgs.cmake:490-532 | An absent element is listed as often as it was asked for. |
| StandardArgs.ConfigModeVars | config/FindPackageHandleStandardArgs.cmake:423-427 | Configuration mode adds exactly the package's own variable, in front, and no variable is checked twice. |
| StandardArgs.FoundMeansNothingMissing | config/FindPackageHandleStandardArgs.cmake:486-579 | Everything is found if and only if nothing is missing and the version passes. |
| StandardArgs.EverythingMeaning | config/FindPackageHandleStandardArgs.cmake:423-579 | What finding everything takes, written out; with a version requested, a version variable that is defined but empty fails. |
| StandardArgs.MissingMeaning | config/FindPackageHandleStandardArgs.cmake:486-532 | What is missing, written out: unset required variables, the package's own in configuration mode, and required components that are not found, if components are handled. |
| StandardArgs.FindPackageHandleStandardArgs | config/FindPackageHandleStandardArgs.cmake:406-610 | Both found variables are true if and only if every required variable is set, every required component is found, and a requested version meets a defined version that is not empty and acceptable; a required package that is not found stops the configuration, and so does a list of required variables that CMake reads as false when components are not handled; exactly what is absent is missing, in order. |
| DynamicLookup.TestWeakLinkProject | config/targetLinkLibrariesWithDynamicLookup.cmake:194-429 | The search succeeds if and only if some flag works, and returns the first that does, or none. |
| DynamicLookup.FlagPreference | config/targetLinkLibrariesWithDynamicLookup.cmake:200-428 | The three flags by name and in order of preference: that of the GNU linker, that of macOS, none; unless tests are skipped, a fresh test succeeds if and only if one of them gives a program that exits with 0. |
| DynamicLookup.LookupCache.CheckDynamicLookup | config/targetLinkLibrariesWithDynamicLookup.cmake:474-532 | A call keeps a fresh entry, refreshes verdict and hash of a stale one, and never overwrites cached link flags. |
| DynamicLookup.VerdictIsCurrent | config/targetLinkLibrariesWithDynamicLookup.cmake:481-530 | For any test project: without hash collisions, after every history the verdict is what testing again would give, if and only if the target is not static or testing does not depend on the shared flags. |
| DynamicLookup.OnlyExecutablesAndModules | config/targetLinkLibrariesWithDynamicLookup.cmake:219-352 | As the test program opens a file that only a module is built as, no static or shared library is found weakly linkable. |
| DynamicLookup.VerdictIsCurrentHere | config/targetLinkLibrariesWithDynamicLookup.cmake:219-530 | With the test projects written here the verdict is always current, for every pair of types. |
| DynamicLookup.StaticVerdictCanGoStale | config/targetLinkLibrariesWithDynamicLookup.cmake:482-486 | A test project that depended on the shared flags would make the verdict for a static target stale. |
| DynamicLookup.StaticVerdictIsKept | config/targetLinkLibrariesWithDynamicLookup.cmake:482-495 | For a static target a change of the shared flags alone keeps the verdict that the earlier flags gave, whatever testing again would give. |
| DynamicLookup.LinkFlagsAreFirst | config/targetLinkLibrariesWithDynamicLookup.cmake:521-523 | After any history the returned link flags are those of the first test for the pair of types. |
| DynamicLookup.LinkFlagsAreCurrent | config/targetLinkLibrariesWithDynamicLookup.cmake:521-531 | They are always current if and only if the working flag never depends on the linker flags. |
| DynamicLookup.Target.LinkLibraries | config/targetLinkLibrariesWithDynamicLookup.cmake:534-587 | The whole function: cache, LINK_FLAGS property and linked items are those of asking for each library in order; and after any history they are those that fresh tests and first flags determine. |
| DynamicLookup.LinkedLibraries | config/targetLinkLibrariesWithDynamicLookup.cmake:541-561 | For every type of target and after any history: to be linked are, in order, exactly the libraries that cannot be weakly linked under the current flags and do not look like a keyword; the others contribute the flags of the first test for their types, as items for an executable and as a property otherwise. |
| DynamicLookup.KeywordsAnywhere | config/targetLinkLibrariesWithDynamicLookup.cmake:556-557 | A library counts as a keyword if and only if debug, optimized or general stands anywhere in its name, not only at its beginning. |
| DynamicLookup.LinkedUnlessKeyword | config/targetLinkLibrariesWithDynamicLookup.cmake:541-561 | A library is to be linked if and only if it is listed, cannot be weakly linked, and holds none of the three words. |
| DynamicLookup.LibsByParts | config/targetLinkLibrariesWithDynamicLookup.cmake:541-561 | The libraries to be linked keep their order: two lists in a row give what each gives, in a row. |
| DynamicLookup.LinkedTarget | config/targetLinkLibrariesWithDynamicLookup.cmake:563-586 | The target gets these flags and libraries without duplicates, unless the last library, before or after removing duplicates, was not found: then nothing is linked. The libraries are exactly those that cannot be weakly linked and hold none of the words debug, optimized, general anywhere in their names. |
| DynamicLookup.NotFoundDropsAll | config/targetLinkLibrariesWithDynamicLookup.cmake:583-586 | Whatever precedes it, a last library that was not found and cannot be weakly linked makes the call link nothing. |
| Factories.Process.SupervisorInstance | simcrs/factory/FacSupervisor.cpp:20-26 | The supervisor is created at the first access only. |
| Factories.Process.FactoryInstance | simcrs/factory/FacSimcrsServiceContext.cpp:21-30 | The service factory is created and registered at the first access only. |
| Factories.Process.CreateContext | simcrs/factory/FacSimcrsServiceContext.cpp:33-45 | A new context is allocated at an unused address and pooled; ownership stays intact. |
| Factories.Process.RegisterNewBomFactory | simcrs/factory/FacSupervisor.cpp:29-32 | A newly allocated BOM factory joins the supervisor's pool; ownership stays intact. |
| Factories.Process.CleanContexts | simcrs/factory/FacServiceAbstract.cpp:18-29 | The public cleaning of the service factory frees exactly its contexts; the factory stays registered. |
| Factories.Process.DestroyServiceFactory | simcrs/factory/FacSimcrsServiceContext.cpp:16-18 | Deleting the factory nulls the instance and frees the factory and its whole pool, nothing else. |
| Factories.Process.CleanServiceFactory | simcrs/factory/FacServiceAbstract.cpp:13-29 | Cleaning frees the pooled objects, each live when deleted, and empties the pool. |
| Factories.Process.CleanBomFactory | simcrs/factory/FacBomAbstract.cpp:16-32 | The same for a BOM factory. |
| Factories.Process.CleanBomLayer | simcrs/factory/FacSupervisor.cpp:47-58 | All BOM factories and all they own are freed, in the order of the pools; the service layer is untouched. |
| Factories.Process.CleanServiceLayer | simcrs/factory/FacSupervisor.cpp:61-72 | All service factories and all they own are freed, in the order of the pools, and the instance is null; the BOM layer is untouched. |
| Factories.Process.DestroySupervisor | simcrs/factory/FacSupervisor.cpp:41-44 | The destructor leaves nothing live. |
| Factories.Process.CleanFactory | simcrs/factory/FacSupervisor.cpp:75-81 | Cleaning both layers and then deleting the supervisor, which cleans them again, deletes BOM layer, service layer and supervisor in this order, each pool before its factory and each object once, and nulls both instances. |
| Runs.ApplyInv | simcrs/factory/FacSupervisor.cpp:20-81 | Every operation keeps the invariant: all live objects are owned exactly once, and the live factory is registered exactly once whenever the instance is not null; only fresh addresses come to life. |
| Runs.EverythingHasOnePlace | simcrs/factory/FacSimcrsServiceContext.cpp:16-45 | After every run no pointer dangles, and every live object other than the supervisor is in exactly one slot of one pool. |
| Runs.Perform | simcrs/factory/FacSupervisor.cpp:20-81 | Each operation of a run is what the methods of the factory layer do, and the log of deletions only grows. |
| Runs.PerformAll | simcrs/factory/FacServiceAbstract.cpp:18-29 | Over every run of the code the state is that of the run, and every address used so far is live and never deleted, or not live and deleted exactly once. |
| Effects.FactoryAppears | simcrs/factory/FacSimcrsServiceContext.cpp:21-30 | The first access to the service factory allocates it before the supervisor that it is registered with, and changes nothing else; later ones change nothing. |
| Effects.ContextAppears | simcrs/factory/FacSimcrsServiceContext.cpp:33-45 | A new context is empty but for its code and its ownership of the event manager, lies at the next address, and comes last in its pool; nothing else changes. |
| Effects.BomFactoryAppears | simcrs/factory/FacSupervisor.cpp:29-32 | A new BOM factory lies at the next address and comes last in the pool of the supervisor, which is made first if need be; nothing else changes. |
| Effects.ContextsGo | simcrs/factory/FacServiceAbstract.cpp:18-29 | Cleaning the contexts frees exactly those of the pool, empties it, and changes nothing else. |
| Effects.BomLayerGoes | simcrs/factory/FacSupervisor.cpp:47-58 | Exactly the BOM factories and the objects of their pools go; what stays is unchanged but for the emptied pool of the supervisor. |
| Effects.ServiceLayerGoes | simcrs/factory/FacSupervisor.cpp:61-72 | Exactly the service factories and their contexts go, and the instance is forgotten; what stays is unchanged but for the emptied pool of the supervisor. |
| Effects.TeardownOrder | simcrs/factory/FacSupervisor.cpp:47-72 | Within a layer each factory is deleted right after the objects of its pool, in the order of the pool; before them go exactly the earlier factories with theirs, after it exactly the later ones. |
| Effects.NothingToClean | simcrs/factory/FacSupervisor.cpp:20-72 | Cleaning where nothing was made yet is the same as the first access. |
| Runs.FreedForGood | simcrs/factory/FacServiceAbstract.cpp:18-29 | No address that was freed comes to life again in a later run. |
| Runs.ContextSurvivesRun | simcrs/factory/FacServiceAbstract.cpp:18-29 | A pooled context lives through a run, unchanged by others, if and only if no operation of the run cleans the service contexts. |
| Runs.NewContextIsPooled | simcrs/factory/FacSimcrsServiceContext.cpp:33-45 | A newly created context is in the pool of the service factory. |
| Restart.CleanedIsNew | simcrs/factory/FacSupervisor.cpp:75-81 | After cleaning everything, any further run equals the same run of a new process, with addresses moved up. |
| Services.Service.Owning | simcrs/service/SIMCRS_Service.cpp:51-109 | Both constructors that create StdAir leave a live context that holds the given StdAir and the services made, and owns StdAir and the event manager; SimFQT, AirTSP and AirInv are made once each, in order and with that StdAir, AirInv without an event manager. |
| Services.Service.Sharing | simcrs/service/SIMCRS_Service.cpp:112-141 | The third constructor leaves a live context that owns neither StdAir nor SEvMgr; the three services are made once each, in order, and AirInv is given both. |
| Services.Service.InitAirinvService | simcrs/service/SIMCRS_Service.cpp:278-314 | AirInv gets the event manager if and only if this service does not own it. |
| Services.Service.ParseAndLoad | simcrs/service/SIMCRS_Service.cpp:324-399 | Without a context it reports so and calls nothing; otherwise no getter fails and it parses schedule, inventory and fares, in order, and then clones if it owns StdAir. |
| Services.Service.BuildSampleBom | simcrs/service/SIMCRS_Service.cpp:402-478 | The same for building: StdAir builds first, and only if owned. |
| Services.Service.ClonePersistentBom | simcrs/service/SIMCRS_Service.cpp:481-545 | The same for cloning. |
| Services.Service.Finalise | simcrs/service/SIMCRS_Service.cpp:150-154 | All references are dropped, flags and code stay, and the context remains in its pool. |
| Services.Play | simcrs/service/SIMCRS_Service.cpp:323-957 | Any sequence of business methods on a constructed service: no getter fails, the context stays as it is, and the calls are those of the methods in order. Every call has its required successor (AirTSP before AirInv before SimFQT, StdAir first, clones after parsing and building), and each kind of call is made exactly as often as the methods ask for it. |
| Services.HistoryLaws | simcrs/service/SIMCRS_Service.cpp:324-545 | The order and the number of the calls, kind by kind, over every history of any length. |
| Services.OperationCalls | simcrs/service/SIMCRS_Service.cpp:324-957 | The calls of each business method, one by one, for an owner of StdAir and for the others. |
| Sessions.HandleAll | simcrs/service/SIMCRS_Service.cpp:51-957 | For every interleaving of services made by any constructor, used and finalised in one process: no getter fails; each service makes SimFQT, AirTSP and AirInv once, first, in order and with its own StdAir; and then it calls in order, each kind of call exactly as often as its own methods ask for it, so that StdAir builds and clones for its owner only. |
| Sessions.RecordedUsage | simcrs/service/SIMCRS_Service.cpp:51-957 | What counts as a service's own: its construction, exactly what is asked of it from then on until it is finalised, in order, and whether it is finalised. |
| Distribution.SellSolution | simcrs/command/DistributionManager.cpp:34-96 | One call per segment in path order, never stopping early: for the class ID that the segment's map has for the first class of its list, or, without maps, for the segment and that class, with the party size; the flag is the last verdict, or false for an empty path. |
| Distribution.CallsAreInOrder | simcrs/command/DistributionManager.cpp:48-92 | Call by call, for paths of any length: the i-th call sells the first class of the i-th list, by the i-th ID map or the i-th segment. |
| Distribution.LastVerdict | simcrs/command/DistributionManager.cpp:37-95 | The flag is true if and only if there is a request and the last one is accepted in the state that all others left. |
| Distribution.PlayCancellation | simcrs/command/DistributionManager.cpp:100-116 | The i-th call cancels the i-th class with the party size, never stopping early; the flag is the last verdict, or false. |
| Distribution.BranchesAgree | simcrs/command/DistributionManager.cpp:41-93 | Both branches ask for the same sales if and only if the class maps hold what AirInv finds, for paths of any length. |
| Distribution.SellBothWays | simcrs/command/DistributionManager.cpp:41-93 | Then both loops, run on inventories in the same state, end in the same bookings with the same flag. |
| Distribution.OutcomesAgree | simcrs/command/DistributionManager.cpp:41-93 | They end alike for every inventory that finds classes in that way, whatever it accepts, if and only if the class maps hold what it finds. |
| Distribution.SaleConserves | simcrs/command/DistributionManager.cpp:48-92 | A sale moves each class count by the party size times the number of accepted segments of the class. |
| Distribution.SaleMovesTotal | simcrs/command/DistributionManager.cpp:37-95 | A sale moves the total over any classes that include the sold ones by the party size times the number of accepted segments. |
| Distribution.CancellationConserves | simcrs/command/DistributionManager.cpp:108-114 | A cancellation does the same downwards. |
| Distribution.RoundTrip | simcrs/command/DistributionManager.cpp:34-116 | Selling and cancelling restores a count if and only if as many cancellations as sales of the class were accepted, or the party is empty. |
| Distribution.PermutationRestores | simcrs/command/DistributionManager.cpp:34-116 | After a full sale, cancelling any permutation of the sold classes restores every count. |
| Distribution.NeverBelowStart | simcrs/command/DistributionManager.cpp:104-115 | On the way no count drops below where it started, whatever is accepted. |
| Distribution.FlagCertifiesSale | simcrs/command/DistributionManager.cpp:37-95 | A true flag certifies that every segment was sold, for every inventory, if and only if the path has at most one segment. |

## Left out

- The logic inside AirInv, AirTSP, SimFQT, SEvMgr and StdAir, which is not in the repository.
- Dependency variables left over from an earlier search for another Boost version, which the resolver would inherit for components without a table entry.
- Component names that differ only in the case of their letters, which share one dependency variable; the target properties hold for them too, the recorded variable is that of the last one.
- What makes Boost found as a whole is a parameter of the import of targets; properties of imported targets other than their links.
- Library, header and compiler-tag searches of the Boost module, and warnings.
- Message texts of the version check and of the found/missing report.
- Versions whose components are not decimal numbers, and the limits of machine integers in CMake's comparison.
- How one test project is compiled and run: it is a deterministic function of the shared linker flags, the pair of types and the link flag. The names of the files that are built are those of Linux.
- A library whose name is also that of a CMake variable, which the keyword test would read instead.
- Cache entries that a user presets by hand; histories start from an empty cache.
- Reference counts of the shared service pointers; a reset only drops the reference.
- Display, JSON, CSV and logging methods, whose results are texts that other services produce; and the arguments and results of the business methods that hand over to a single service, of which only the service asked is kept.
- Registering a factory twice, deleting the supervisor directly, and using a service after its context has been cleaned: the code permits them and nothing in it does them, so no run contains them.
- Distribution.SellSolution: class paths shorter than the segments, empty class lists and class codes missing from the map are excluded, because the code asserts against them or assumes they do not occur.
- calculateAvailability, which only forwards each solution.
