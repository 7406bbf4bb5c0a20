/** Weak linking: an ordered search for a linker flag that works, cached under a hash of the
    linker flags, and the partition of libraries that the answers decide. */
module DynamicLookup {
  import opened CMake
  import opened Options

  datatype TargetType = STATIC | SHARED | MODULE | EXE

  /** The suffix <TargetType>_<LibType> of the three cache entries. */
  datatype Key = Key(target: TargetType, lib: TargetType)

  /** CMAKE_SHARED_LINKER_FLAGS and CMAKE_STATIC_LINKER_FLAGS. */
  datatype LinkerFlags = LinkerFlags(sharedFlags: string, staticFlags: string)

  /** What becomes of one test project. */
  datatype Attempt = DoesNotCompile | Crashes | Exits(code: int)

  /** The outside world: a deterministic test project, run with the shared linker flags and one
      extra flag; the hash; and whether tests are skipped because nothing can be run. */
  datatype Toolchain = Toolchain(attempt: (string, Key, string) -> Attempt, hash: string -> string, skipTest: bool)

  const LINK_FLAGS: seq<string> := ["-Wl,--unresolved-symbols=ignore-all", "-undefined dynamic_lookup", ""]

  predicate Works(env: Toolchain, shared: string, key: Key, i: nat)
    requires i < |LINK_FLAGS|
  {
    env.attempt(shared, key, LINK_FLAGS[i]) == Exits(0)
  }

  /** The answer a fresh test gives: some flag works. */
  ghost predicate CanWeakLink(env: Toolchain, shared: string, key: Key) {
    !env.skipTest && exists i: nat :: i < |LINK_FLAGS| && Works(env, shared, key, i)
  }

  ghost predicate IsFirstWorking(env: Toolchain, shared: string, key: Key, flag: string) {
    exists i: nat :: i < |LINK_FLAGS| && Works(env, shared, key, i) && flag == LINK_FLAGS[i]
                     && forall j: nat :: j < i ==> !Works(env, shared, key, j)
  }

  /** The flag that belongs to a fresh answer: the first that works, or none. */
  ghost function WorkingFlag(env: Toolchain, shared: string, key: Key): string {
    if env.skipTest then ""
    else if Works(env, shared, key, 0) then LINK_FLAGS[0]
    else if Works(env, shared, key, 1) then LINK_FLAGS[1]
    else ""
  }

  /** The three flags in the order in which they are tried; a flag works when the test program
      builds, runs and exits with 0. */
  lemma FlagPreference(env: Toolchain, shared: string, key: Key)
    ensures var gnu, osx := "-Wl,--unresolved-symbols=ignore-all", "-undefined dynamic_lookup";
      var first, second, third :=
        env.attempt(shared, key, gnu) == Exits(0), env.attempt(shared, key, osx) == Exits(0),
        env.attempt(shared, key, "") == Exits(0);
      && (CanWeakLink(env, shared, key) <==> !env.skipTest && (first || second || third))
      && WorkingFlag(env, shared, key)
         == if env.skipTest then "" else if first then gnu else if second then osx else ""
  {
    assert LINK_FLAGS[0] == "-Wl,--unresolved-symbols=ignore-all";
    assert LINK_FLAGS[1] == "-undefined dynamic_lookup" && LINK_FLAGS[2] == "";
    assert Works(env, shared, key, 0) || Works(env, shared, key, 1) || Works(env, shared, key, 2)
      || forall i: nat :: i < |LINK_FLAGS| ==> !Works(env, shared, key, i);
  }

  lemma WorkingFlagMeaning(env: Toolchain, shared: string, key: Key)
    ensures CanWeakLink(env, shared, key) ==> IsFirstWorking(env, shared, key, WorkingFlag(env, shared, key))
    ensures !CanWeakLink(env, shared, key) ==> WorkingFlag(env, shared, key) == ""
  {
  }

  method TestWeakLinkProject(env: Toolchain, shared: string, key: Key) returns (canWeakLink: bool, linkFlag: string)
    requires !env.skipTest
    ensures canWeakLink <==> CanWeakLink(env, shared, key)
    ensures linkFlag == WorkingFlag(env, shared, key)
  {
    canWeakLink, linkFlag := false, "";
    for i := 0 to |LINK_FLAGS|
      invariant !canWeakLink && linkFlag == ""
      invariant forall j: nat :: j < i ==> !Works(env, shared, key, j)
    {
      var result := env.attempt(shared, key, LINK_FLAGS[i]);
      if result.Exits? && result.code == 0 {
        assert Works(env, shared, key, i);
        return true, LINK_FLAGS[i];
      }
    }
  }

  method TestUnlessSkipped(env: Toolchain, shared: string, key: Key) returns (canWeakLink: bool, linkFlag: string)
    ensures canWeakLink <==> CanWeakLink(env, shared, key)
    ensures linkFlag == WorkingFlag(env, shared, key)
  {
    if env.skipTest {
      canWeakLink, linkFlag := false, "";
    } else {
      canWeakLink, linkFlag := TestWeakLinkProject(env, shared, key);
    }
  }

  // ---------- The cache ----------

  /** HAS_DYNAMIC_LOOKUP_*, its _hash companion and DYNAMIC_LOOKUP_FLAGS_*. */
  datatype Cache = Cache(has: map<Key, bool>, hash: map<Key, string>, flags: map<Key, string>)

  const EMPTY_CACHE := Cache(map[], map[], map[])

  datatype Answer = Answer(has: bool, flags: string)

  function HashedFlags(key: Key, f: LinkerFlags): string {
    if key.target == STATIC then f.staticFlags else f.sharedFlags
  }

  predicate IsFresh(env: Toolchain, cache: Cache, f: LinkerFlags, key: Key) {
    key in cache.has && key in cache.hash && cache.hash[key] == env.hash(HashedFlags(key, f))
  }

  /** The cache after a call: a stale entry takes the fresh answer and the current hash, but link
      flags that were cached once stay, because a cache entry is not overwritten. */
  ghost function CacheAfter(env: Toolchain, cache: Cache, f: LinkerFlags, key: Key): Cache {
    if IsFresh(env, cache, f, key) then cache
    else Cache(cache.has[key := CanWeakLink(env, f.sharedFlags, key)],
               cache.hash[key := env.hash(HashedFlags(key, f))],
               if key in cache.flags then cache.flags else cache.flags[key := WorkingFlag(env, f.sharedFlags, key)])
  }

  ghost function AnswerOf(cache: Cache, key: Key): Answer {
    Answer(key in cache.has && cache.has[key], if key in cache.flags then cache.flags[key] else "")
  }

  class LookupCache {
    var has: map<Key, bool>
    var hash: map<Key, string>
    var flags: map<Key, string>

    ghost function Contents(): Cache
      reads this
    {
      Cache(has, hash, flags)
    }

    constructor ()
      ensures Contents() == EMPTY_CACHE
    {
      has, hash, flags := map[], map[], map[];
    }

    method CheckDynamicLookup(env: Toolchain, f: LinkerFlags, key: Key) returns (answer: Answer)
      modifies this
      ensures Contents() == CacheAfter(env, old(Contents()), f, key)
      ensures answer == AnswerOf(Contents(), key)
    {
      var flagsHash := env.hash(HashedFlags(key, f));
      ghost var before := has;
      if key !in hash || hash[key] != flagsHash {
        has := has - {key};
      }
      if key !in has {
        var canWeakLink, linkFlag := TestUnlessSkipped(env, f.sharedFlags, key);
        has := has[key := canWeakLink];
        assert has == before[key := canWeakLink];
        if key !in flags {
          flags := flags[key := linkFlag];
        }
        hash := hash[key := flagsHash];
      }
      answer := Answer(has[key], if key in flags then flags[key] else "");
    }
  }

  // ---------- Whole histories ----------

  datatype Call = Call(f: LinkerFlags, key: Key)

  ghost function Run(env: Toolchain, calls: seq<Call>): Cache {
    if calls == [] then EMPTY_CACHE
    else
      var last := calls[|calls| - 1];
      CacheAfter(env, Run(env, calls[..|calls| - 1]), last.f, last.key)
  }

  ghost function AnswerAfter(env: Toolchain, calls: seq<Call>, f: LinkerFlags, key: Key): Answer {
    AnswerOf(CacheAfter(env, Run(env, calls), f, key), key)
  }

  ghost predicate CollisionFree(env: Toolchain) {
    forall a, b :: env.hash(a) == env.hash(b) ==> a == b
  }

  /** Some linker flags explain a cached verdict: they have its hash, and testing with them gives it. */
  ghost predicate Explains(env: Toolchain, cache: Cache, key: Key, f: LinkerFlags)
    requires key in cache.has && key in cache.hash
  {
    cache.hash[key] == env.hash(HashedFlags(key, f)) && cache.has[key] == CanWeakLink(env, f.sharedFlags, key)
  }

  lemma {:induction false} CachedVerdictIsExplained(env: Toolchain, calls: seq<Call>, key: Key) returns (f: LinkerFlags)
    requires key in Run(env, calls).has && key in Run(env, calls).hash
    ensures Explains(env, Run(env, calls), key, f)
  {
    var front := calls[..|calls| - 1];
    var last := calls[|calls| - 1];
    if last.key == key && !IsFresh(env, Run(env, front), last.f, key) {
      f := last.f;
    } else {
      f := CachedVerdictIsExplained(env, front, key);
    }
  }

  /** After every history the answer for `key` is what testing again would answer. */
  ghost predicate AlwaysCurrent(env: Toolchain, key: Key) {
    forall calls, f :: AnswerAfter(env, calls, f, key).has == CanWeakLink(env, f.sharedFlags, key)
  }

  /** Without collisions the cached verdict is always current exactly when the target is not
      static, or when testing does not depend on the shared linker flags: for a static target
      the hash covers the static linker flags, but the test project gets the shared ones. */
  lemma VerdictIsCurrent(env: Toolchain, key: Key)
    requires CollisionFree(env)
    ensures AlwaysCurrent(env, key)
            <==> key.target != STATIC || forall a, b :: CanWeakLink(env, a, key) == CanWeakLink(env, b, key)
  {
    if key.target != STATIC || forall a, b :: CanWeakLink(env, a, key) == CanWeakLink(env, b, key) {
      forall calls, f
        ensures AnswerAfter(env, calls, f, key).has == CanWeakLink(env, f.sharedFlags, key)
      {
        if IsFresh(env, Run(env, calls), f, key) {
          var past := CachedVerdictIsExplained(env, calls, key);
          assert env.hash(HashedFlags(key, past)) == env.hash(HashedFlags(key, f));
        }
      }
    } else {
      var a, b :| CanWeakLink(env, a, key) != CanWeakLink(env, b, key);
      var before, now := LinkerFlags(a, ""), LinkerFlags(b, "");
      StaticVerdictIsKept(env, key, before, now);
      assert AnswerAfter(env, [Call(before, key)], now, key).has != CanWeakLink(env, now.sharedFlags, key);
    }
  }

  /** For a static target a change of the shared flags alone goes unnoticed. */
  lemma StaticVerdictIsKept(env: Toolchain, key: Key, before: LinkerFlags, now: LinkerFlags)
    requires key.target == STATIC && before.staticFlags == now.staticFlags
    ensures AnswerAfter(env, [Call(before, key)], now, key).has == CanWeakLink(env, before.sharedFlags, key)
  {
    var calls := [Call(before, key)];
    assert calls[..0] == [];
    assert Run(env, calls) == CacheAfter(env, EMPTY_CACHE, before, key);
  }

  /** What the build leaves in the directory the test program runs in: only a module is built
      without a library prefix, and everything but a shared library or module is an archive. */
  function CounterFile(target: TargetType): string {
    match target
    case MODULE => "counter.so"
    case SHARED => "libcounter.so"
    case STATIC => "libcounter.a"
    case EXE => "libcounter.a"
  }

  /** The test program for a target that is no executable opens "./counter.so" at run time, and
      exits with an error if that is not there. */
  ghost predicate OpensCounter(env: Toolchain) {
    forall shared, key, flag :: env.attempt(shared, key, flag) == Exits(0) ==>
      key.target == EXE || CounterFile(key.target) == "counter.so"
  }

  /** So only executables and modules are ever found to be weakly linkable. */
  lemma OnlyExecutablesAndModules(env: Toolchain, shared: string, key: Key)
    requires OpensCounter(env) && CanWeakLink(env, shared, key)
    ensures key.target == EXE || key.target == MODULE
  {
    var i: nat :| i < |LINK_FLAGS| && Works(env, shared, key, i);
    assert |CounterFile(STATIC)| != |CounterFile(MODULE)| && |CounterFile(SHARED)| != |CounterFile(MODULE)|;
  }

  /** And with the test programs that are written here every verdict is always current, that for a
      static target too: hash and test project look at different flags, but the verdict never varies. */
  lemma VerdictIsCurrentHere(env: Toolchain, key: Key)
    requires CollisionFree(env) && OpensCounter(env)
    ensures AlwaysCurrent(env, key)
  {
    if key.target == STATIC {
      forall a, b
        ensures CanWeakLink(env, a, key) == CanWeakLink(env, b, key)
      {
        if CanWeakLink(env, a, key) { OnlyExecutablesAndModules(env, a, key); }
        if CanWeakLink(env, b, key) { OnlyExecutablesAndModules(env, b, key); }
      }
    }
    VerdictIsCurrent(env, key);
  }

  /** It would not be so with other test programs: one for static targets whose result depends on
      the shared linker flags makes a verdict stale. */
  lemma StaticVerdictCanGoStale(key: Key) returns (env: Toolchain)
    requires key.target == STATIC
    ensures CollisionFree(env) && !AlwaysCurrent(env, key)
  {
    env := Toolchain((shared, _, _) => Exits(if shared == "" then 0 else 1), flags => flags, false);
    assert Works(env, "", key, 0) && CanWeakLink(env, "", key);
    assert !CanWeakLink(env, "-s", key);
    VerdictIsCurrent(env, key);
  }

  /** The returned link flags are those of the first test ever made for the key, whatever the
      linker flags have become since. */
  lemma {:induction false} LinkFlagsAreFirst(env: Toolchain, calls: seq<Call>, n: nat, key: Key, f: LinkerFlags)
    requires n < |calls| && calls[n].key == key
    requires forall i :: 0 <= i < n ==> calls[i].key != key
    ensures AnswerAfter(env, calls, f, key).flags == WorkingFlag(env, calls[n].f.sharedFlags, key)
  {
    FlagsEntry(env, calls, n, key);
  }

  lemma {:induction false} FlagsEntry(env: Toolchain, calls: seq<Call>, n: nat, key: Key)
    requires n <= |calls| && (n < |calls| ==> calls[n].key == key)
    requires forall i :: 0 <= i < n ==> calls[i].key != key
    ensures n == |calls| ==> key !in Run(env, calls).has && key !in Run(env, calls).flags
    ensures n < |calls| ==>
      key in Run(env, calls).flags && Run(env, calls).flags[key] == WorkingFlag(env, calls[n].f.sharedFlags, key)
  {
    if calls != [] {
      var front := calls[..|calls| - 1];
      FlagsEntry(env, front, if n < |calls| then n else n - 1, key);
    }
  }

  /** The link flags, by contrast, are always current only if they never vary. */
  lemma LinkFlagsAreCurrent(env: Toolchain, key: Key)
    ensures (forall calls, f :: AnswerAfter(env, calls, f, key).flags == WorkingFlag(env, f.sharedFlags, key))
            <==> forall a, b :: WorkingFlag(env, a, key) == WorkingFlag(env, b, key)
  {
    if forall a, b :: WorkingFlag(env, a, key) == WorkingFlag(env, b, key) {
      forall calls, f
        ensures AnswerAfter(env, calls, f, key).flags == WorkingFlag(env, f.sharedFlags, key)
      {
        var n := FirstCall(calls, key);
        FlagsEntry(env, calls, n, key);
      }
    } else {
      var a, b :| WorkingFlag(env, a, key) != WorkingFlag(env, b, key);
      var before, now := LinkerFlags(a, ""), LinkerFlags(b, "");
      LinkFlagsAreFirst(env, [Call(before, key)], 0, key, now);
      assert AnswerAfter(env, [Call(before, key)], now, key).flags != WorkingFlag(env, now.sharedFlags, key);
    }
  }

  lemma {:induction false} FirstCall(calls: seq<Call>, key: Key) returns (n: nat)
    ensures n <= |calls| && (n < |calls| ==> calls[n].key == key)
    ensures forall i :: 0 <= i < n ==> calls[i].key != key
  {
    if calls == [] || calls[0].key == key {
      n := 0;
    } else {
      var m := FirstCall(calls[1..], key);
      n := m + 1;
      forall i | 0 <= i < n
        ensures calls[i].key != key
      {
        assert i > 0 ==> calls[i] == calls[1..][i - 1];
      }
    }
  }

  // ---------- Linking a target ----------

  /** Whether `word` occurs in `s`. */
  predicate Contains(s: string, word: string) {
    word <= s || (s != "" && Contains(s[1..], word))
  }

  /** The libraries dropped as mere keywords: the pattern is not anchored. */
  predicate LooksLikeKeyword(lib: string) {
    Contains(lib, "debug") || Contains(lib, "optimized") || Contains(lib, "general")
  }

  /** A word occurs where some part of the text begins with it. */
  lemma {:induction false} ContainsMeaning(s: string, word: string)
    ensures Contains(s, word) <==> exists i: nat :: i <= |s| && word <= s[i..]
  {
    if word <= s {
      assert word <= s[0..];
    } else if s != "" {
      ContainsMeaning(s[1..], word);
      if i: nat :| i <= |s[1..]| && word <= s[1..][i..] {
        assert s[1..][i..] == s[i + 1..];
      }
      if i: nat :| i <= |s| && word <= s[i..] {
        assert i > 0 && s[1..][i - 1..] == s[i..];
      }
    }
  }

  /** `word` stands somewhere in `lib`: at the beginning, in the middle or at the end. */
  ghost predicate Holds(lib: string, word: string) {
    exists before, after :: lib == before + word + after
  }

  lemma ContainsHolds(lib: string, word: string)
    ensures Contains(lib, word) <==> Holds(lib, word)
  {
    ContainsMeaning(lib, word);
    if i: nat :| i <= |lib| && word <= lib[i..] {
      HoldsAt(lib, word, i);
    }
    if before, after :| lib == before + word + after {
      assert lib[|before|..] == word + after;
      assert word <= lib[|before|..];
    }
  }

  lemma HoldsAt(lib: string, word: string, i: nat)
    requires i <= |lib| && word <= lib[i..]
    ensures Holds(lib, word)
  {
    var before, after := lib[..i], lib[i..][|word|..];
    assert lib[i..] == word + after;
    assert lib == before + word + after;
  }

  /** A library looks like a keyword when one of the three words stands anywhere in its name. */
  lemma KeywordsAnywhere(lib: string)
    ensures LooksLikeKeyword(lib) <==> Holds(lib, "debug") || Holds(lib, "optimized") || Holds(lib, "general")
  {
    ContainsHolds(lib, "debug");
    ContainsHolds(lib, "optimized");
    ContainsHolds(lib, "general");
  }

  /** Link flags for the property, link flags to pass as items, and libraries really to link. */
  datatype Links = Links(props: seq<string>, items: seq<string>, libs: seq<string>)

  type LibTypes = string -> TargetType

  ghost function CacheFor(env: Toolchain, cache: Cache, f: LinkerFlags, target: TargetType, libs: seq<string>,
                          typeOf: LibTypes)
    : Cache
  {
    if libs == [] then cache
    else
      var front, last := libs[..|libs| - 1], libs[|libs| - 1];
      CacheAfter(env, CacheFor(env, cache, f, target, front, typeOf), f, Key(target, typeOf(last)))
  }

  /** Where one library goes, given the answer for it. */
  function Place(links: Links, target: TargetType, lib: string, answer: Answer): Links {
    if answer.has then
      if !IsPlain(answer.flags) then links
      else if target == EXE then links.(items := links.items + [answer.flags])
      else links.(props := links.props + [answer.flags])
    else if LooksLikeKeyword(lib) then links
    else links.(libs := links.libs + [lib])
  }

  ghost function PlaceAll(env: Toolchain, cache: Cache, f: LinkerFlags, target: TargetType, libs: seq<string>,
                          typeOf: LibTypes)
    : Links
  {
    if libs == [] then Links([], [], [])
    else
      var last := libs[|libs| - 1];
      Place(PlaceAll(env, cache, f, target, libs[..|libs| - 1], typeOf), target, last,
            AnswerOf(CacheFor(env, cache, f, target, libs, typeOf), Key(target, typeOf(last))))
  }

  /** list(REMOVE_DUPLICATES) where the list is read as true. */
  function Deduplicated(list: seq<string>): seq<string> {
    if Truthy(list) then RemoveDuplicates(list) else list
  }

  /** A CMake target: its type, its LINK_FLAGS property, and what it has been told to link to. */
  datatype Linkage = Linkage(kind: TargetType, linkFlags: Option<seq<string>>, linked: seq<string>)

  /** The list that the last call passes on: two texts, each of which may be empty. */
  function LastArgument(items: seq<string>, libs: seq<string>): seq<string> {
    (if items == [] then [""] else items) + (if libs == [] then [""] else libs)
  }

  /** The property is overwritten when there are flags for it; flags and libraries are linked when
      the list that holds both is read as true. */
  function AfterLinking(t: Linkage, links: Links): Linkage {
    var props, items, libs := Deduplicated(links.props), Deduplicated(links.items), Deduplicated(links.libs);
    t.(linkFlags := if Truthy(props) then Some(props) else t.linkFlags,
       linked := if Truthy(LastArgument(items, libs)) then t.linked + items + libs else t.linked)
  }

  class Target {
    const kind: TargetType
    var linkFlags: Option<seq<string>>
    var linked: seq<string>

    ghost function View(): Linkage
      reads this
    {
      Linkage(kind, linkFlags, linked)
    }

    constructor (kind: TargetType)
      ensures View() == Linkage(kind, None, [])
    {
      this.kind, linkFlags, linked := kind, None, [];
    }

    method LinkLibraries(cache: LookupCache, env: Toolchain, f: LinkerFlags, libs: seq<string>, typeOf: LibTypes)
      modifies this, cache
      ensures cache.Contents() == CacheFor(env, old(cache.Contents()), f, kind, libs, typeOf)
      ensures View() == AfterLinking(old(View()), PlaceAll(env, old(cache.Contents()), f, kind, libs, typeOf))
      ensures forall calls :: old(cache.Contents()) == Run(env, calls) && VerdictsAreCurrent(env, kind) ==>
        View() == AfterLinking(old(View()), TestedLinks(env, calls, f, kind, libs, typeOf))
    {
      ghost var start := cache.Contents();
      var links := Sort(kind, cache, env, f, libs, typeOf);
      forall calls | start == Run(env, calls) && VerdictsAreCurrent(env, kind)
        ensures links == TestedLinks(env, calls, f, kind, libs, typeOf)
      {
        LinkedLibraries(env, calls, f, kind, libs, typeOf);
      }
      var props, items, linkLibs := links.props, links.items, links.libs;
      if Truthy(props) {
        props := RemoveDuplicates(props);
      }
      if Truthy(items) {
        items := RemoveDuplicates(items);
      }
      if Truthy(linkLibs) {
        linkLibs := RemoveDuplicates(linkLibs);
      }
      if Truthy(props) {
        linkFlags := Some(props);
      }
      if Truthy(LastArgument(items, linkLibs)) {
        linked := linked + items + linkLibs;
      }
    }
  }

  /** The loop over the libraries. */
  method Sort(target: TargetType, cache: LookupCache, env: Toolchain, f: LinkerFlags, libs: seq<string>,
              typeOf: LibTypes)
    returns (links: Links)
    modifies cache
    ensures cache.Contents() == CacheFor(env, old(cache.Contents()), f, target, libs, typeOf)
    ensures links == PlaceAll(env, old(cache.Contents()), f, target, libs, typeOf)
  {
    var props: seq<string>, items: seq<string>, linked: seq<string> := [], [], [];
    ghost var start := cache.Contents();
    for i := 0 to |libs|
      invariant cache.Contents() == CacheFor(env, start, f, target, libs[..i], typeOf)
      invariant Links(props, items, linked) == PlaceAll(env, start, f, target, libs[..i], typeOf)
    {
      var lib := libs[i];
      assert libs[..i + 1][..i] == libs[..i];
      var answer := cache.CheckDynamicLookup(env, f, Key(target, typeOf(lib)));
      if answer.has {
        if IsPlain(answer.flags) {
          if target == EXE {
            items := items + [answer.flags];
          } else {
            props := props + [answer.flags];
          }
        }
      } else if LooksLikeKeyword(lib) {
      } else {
        linked := linked + [lib];
      }
    }
    assert libs[..|libs|] == libs;
    links := Links(props, items, linked);
  }

  /** The calls that linking a target makes. */
  function LinkCalls(f: LinkerFlags, target: TargetType, libs: seq<string>, typeOf: LibTypes): seq<Call> {
    if libs == [] then []
    else LinkCalls(f, target, libs[..|libs| - 1], typeOf) + [Call(f, Key(target, typeOf(libs[|libs| - 1])))]
  }

  lemma {:induction false} CacheForIsRun(env: Toolchain, calls: seq<Call>, f: LinkerFlags, target: TargetType,
                                         libs: seq<string>, typeOf: LibTypes)
    ensures CacheFor(env, Run(env, calls), f, target, libs, typeOf)
            == Run(env, calls + LinkCalls(f, target, libs, typeOf))
  {
    if libs == [] {
      assert calls + [] == calls;
    } else {
      var front := libs[..|libs| - 1];
      CacheForIsRun(env, calls, f, target, front, typeOf);
      var done, last := calls + LinkCalls(f, target, front, typeOf), Call(f, Key(target, typeOf(libs[|libs| - 1])));
      assert calls + LinkCalls(f, target, libs, typeOf) == done + [last];
      RunStep(env, done, last);
    }
  }

  lemma RunStep(env: Toolchain, calls: seq<Call>, call: Call)
    ensures Run(env, calls + [call]) == CacheAfter(env, Run(env, calls), call.f, call.key)
  {
    assert (calls + [call])[..|calls|] == calls;
  }

  // ---------- What gets linked after any history ----------

  ghost predicate VerdictsAreCurrent(env: Toolchain, target: TargetType) {
    CollisionFree(env) && (target == STATIC ==> OpensCounter(env))
  }

  /** The flags of the first test ever made for `key`: the earliest call decides, or this one. */
  ghost function FirstFlags(env: Toolchain, calls: seq<Call>, f: LinkerFlags, key: Key): string {
    if calls == [] then WorkingFlag(env, f.sharedFlags, key)
    else
      var last := calls[|calls| - 1];
      FirstFlags(env, calls[..|calls| - 1], if last.key == key then last.f else f, key)
  }

  /** The libraries that cannot be weakly linked under the current flags and do not look like a
      keyword, in order. */
  ghost function LibsToLink(env: Toolchain, f: LinkerFlags, target: TargetType, libs: seq<string>, typeOf: LibTypes)
    : seq<string>
  {
    if libs == [] then []
    else
      var last := libs[|libs| - 1];
      LibsToLink(env, f, target, libs[..|libs| - 1], typeOf)
      + (if CanWeakLink(env, f.sharedFlags, Key(target, typeOf(last))) || LooksLikeKeyword(last) then [] else [last])
  }

  /** The flags that a library of this key contributes: the first ones, if it can be weakly linked
      and there are any. */
  ghost function FlagOf(env: Toolchain, calls: seq<Call>, f: LinkerFlags, key: Key): seq<string> {
    var flag := FirstFlags(env, calls, f, key);
    if CanWeakLink(env, f.sharedFlags, key) && IsPlain(flag) then [flag] else []
  }

  /** The flags of all libraries, in order. */
  ghost function FlagsToPass(env: Toolchain, calls: seq<Call>, f: LinkerFlags, target: TargetType, libs: seq<string>,
                             typeOf: LibTypes)
    : seq<string>
  {
    if libs == [] then []
    else
      var front, last := libs[..|libs| - 1], libs[|libs| - 1];
      FlagsToPass(env, calls, f, target, front, typeOf) + FlagOf(env, calls, f, Key(target, typeOf(last)))
  }

  /** Executables take their flags as link items, all other targets as a property. */
  ghost function TestedLinks(env: Toolchain, calls: seq<Call>, f: LinkerFlags, target: TargetType, libs: seq<string>,
                             typeOf: LibTypes)
    : Links
  {
    var flags := FlagsToPass(env, calls, f, target, libs, typeOf);
    Links(if target == EXE then [] else flags, if target == EXE then flags else [],
          LibsToLink(env, f, target, libs, typeOf))
  }

  lemma {:induction false} CachedFlags(env: Toolchain, calls: seq<Call>, f: LinkerFlags, key: Key)
    ensures var cache := Run(env, calls);
      && (key in cache.has <==> key in cache.flags)
      && FirstFlags(env, calls, f, key)
         == if key in cache.flags then cache.flags[key] else WorkingFlag(env, f.sharedFlags, key)
  {
    if calls != [] {
      var last := calls[|calls| - 1];
      CachedFlags(env, calls[..|calls| - 1], if last.key == key then last.f else f, key);
    }
  }

  lemma FlagsAreFirst(env: Toolchain, calls: seq<Call>, f: LinkerFlags, key: Key)
    ensures AnswerAfter(env, calls, f, key).flags == FirstFlags(env, calls, f, key)
  {
    CachedFlags(env, calls, f, key);
  }

  /** Further calls with the same linker flags do not change which flags were first. */
  lemma {:induction false} FirstFlagsStay(env: Toolchain, calls: seq<Call>, f: LinkerFlags, target: TargetType,
                                          libs: seq<string>, typeOf: LibTypes, key: Key)
    ensures FirstFlags(env, calls + LinkCalls(f, target, libs, typeOf), f, key) == FirstFlags(env, calls, f, key)
  {
    if libs == [] {
      assert calls + [] == calls;
    } else {
      var front := libs[..|libs| - 1];
      FirstFlagsStay(env, calls, f, target, front, typeOf, key);
      var done, last := calls + LinkCalls(f, target, front, typeOf), Call(f, Key(target, typeOf(libs[|libs| - 1])));
      assert calls + LinkCalls(f, target, libs, typeOf) == done + [last];
      FirstFlagsStep(env, done, last, key);
    }
  }

  lemma FirstFlagsStep(env: Toolchain, calls: seq<Call>, call: Call, key: Key)
    ensures FirstFlags(env, calls + [call], call.f, key) == FirstFlags(env, calls, call.f, key)
  {
    assert (calls + [call])[..|calls|] == calls;
  }

  /** After any history, linking sorts the libraries as a fresh test of each would, and passes the
      flags of the first test for each pair of types. */
  lemma {:induction false} LinkedLibraries(env: Toolchain, calls: seq<Call>, f: LinkerFlags, target: TargetType,
                                           libs: seq<string>, typeOf: LibTypes)
    requires VerdictsAreCurrent(env, target)
    ensures PlaceAll(env, Run(env, calls), f, target, libs, typeOf) == TestedLinks(env, calls, f, target, libs, typeOf)
  {
    if libs != [] {
      var front, last := libs[..|libs| - 1], libs[|libs| - 1];
      LinkedLibraries(env, calls, f, target, front, typeOf);
      LastAnswer(env, calls, f, target, libs, typeOf);
    }
  }

  lemma CurrentAnswer(env: Toolchain, calls: seq<Call>, f: LinkerFlags, key: Key)
    requires VerdictsAreCurrent(env, key.target)
    ensures AnswerAfter(env, calls, f, key)
         == Answer(CanWeakLink(env, f.sharedFlags, key), FirstFlags(env, calls, f, key))
  {
    if key.target == STATIC {
      VerdictIsCurrentHere(env, key);
    } else {
      VerdictIsCurrent(env, key);
    }
    FlagsAreFirst(env, calls, f, key);
  }

  /** The answer for the last of `libs`, after the calls for the others. */
  lemma LastAnswer(env: Toolchain, calls: seq<Call>, f: LinkerFlags, target: TargetType, libs: seq<string>,
                   typeOf: LibTypes)
    requires VerdictsAreCurrent(env, target) && libs != []
    ensures var key := Key(target, typeOf(libs[|libs| - 1]));
      AnswerOf(CacheFor(env, Run(env, calls), f, target, libs, typeOf), key)
      == Answer(CanWeakLink(env, f.sharedFlags, key), FirstFlags(env, calls, f, key))
  {
    var front, key := libs[..|libs| - 1], Key(target, typeOf(libs[|libs| - 1]));
    CacheForIsRun(env, calls, f, target, front, typeOf);
    CurrentAnswer(env, calls + LinkCalls(f, target, front, typeOf), f, key);
    FirstFlagsStay(env, calls, f, target, front, typeOf, key);
  }

  // ---------- What reaches the target ----------

  predicate IsNotFound(name: string) {
    HasSuffix(name, "-NOTFOUND")
  }

  predicate EndsNotFound(list: seq<string>) {
    list != [] && IsNotFound(list[|list| - 1])
  }

  /** The libraries are dropped when the last one, or the last one that is left without
      duplicates, is a variable's value for a library that was not found. */
  predicate Dropped(libs: seq<string>) {
    EndsNotFound(libs) || EndsNotFound(RemoveDuplicates(libs))
  }

  lemma {:induction false} FlagsArePlain(env: Toolchain, calls: seq<Call>, f: LinkerFlags, target: TargetType,
                                         libs: seq<string>, typeOf: LibTypes)
    ensures forall flag :: flag in FlagsToPass(env, calls, f, target, libs, typeOf) ==> IsPlain(flag)
  {
    if libs != [] {
      FlagsArePlain(env, calls, f, target, libs[..|libs| - 1], typeOf);
    }
  }

  lemma PlainFlagsAreDeduplicated(flags: seq<string>)
    requires forall flag :: flag in flags ==> IsPlain(flag)
    ensures Deduplicated(flags) == RemoveDuplicates(flags)
    ensures Truthy(Deduplicated(flags)) <==> flags != []
  {
    if flags != [] {
      PlainListIsTruthy(flags);
      RemoveDuplicatesMeaning(flags);
      assert flags[0] in RemoveDuplicates(flags);
      PlainListIsTruthy(RemoveDuplicates(flags));
    }
  }

  lemma LastArgumentDecides(items: seq<string>, libs: seq<string>)
    ensures Truthy(LastArgument(items, libs)) <==> !EndsNotFound(libs)
  {
    var all := LastArgument(items, libs);
    assert |all| >= 2 && all[|all| - 1] == if libs == [] then "" else libs[|libs| - 1];
  }

  lemma DeduplicatedLibraries(libs: seq<string>)
    ensures Deduplicated(libs) == if EndsNotFound(libs) then libs else RemoveDuplicates(libs)
  {
    if |libs| == 1 {
      assert libs[..0] == [] && RemoveDuplicates(libs[..0]) == [];
    }
  }

  /** Which libraries are among those to link, word by word: exactly those that cannot be weakly
      linked and hold none of the three words. */
  lemma {:induction false} LinkedUnlessKeyword(env: Toolchain, f: LinkerFlags, target: TargetType, libs: seq<string>,
                                               typeOf: LibTypes, lib: string)
    ensures lib in LibsToLink(env, f, target, libs, typeOf) <==>
      && lib in libs && !CanWeakLink(env, f.sharedFlags, Key(target, typeOf(lib)))
      && !Holds(lib, "debug") && !Holds(lib, "optimized") && !Holds(lib, "general")
  {
    if libs != [] {
      var front, last := libs[..|libs| - 1], libs[|libs| - 1];
      LinkedUnlessKeyword(env, f, target, front, typeOf, lib);
      assert lib in libs <==> lib in front || lib == last;
      KeywordsAnywhere(lib);
    }
  }

  /** The libraries to link are worked out part by part, so their order is kept. */
  lemma {:induction false} LibsByParts(env: Toolchain, f: LinkerFlags, target: TargetType, a: seq<string>,
                                       b: seq<string>, typeOf: LibTypes)
    ensures LibsToLink(env, f, target, a + b, typeOf)
         == LibsToLink(env, f, target, a, typeOf) + LibsToLink(env, f, target, b, typeOf)
  {
    if b == [] {
      assert a + b == a;
    } else {
      var front, last := b[..|b| - 1], b[|b| - 1];
      LibsByParts(env, f, target, a, front, typeOf);
      LibsStep(env, f, target, a + front, last, typeOf);
      LibsStep(env, f, target, front, last, typeOf);
      assert a + b == a + front + [last] && b == front + [last];
    }
  }

  lemma LibsStep(env: Toolchain, f: LinkerFlags, target: TargetType, libs: seq<string>, lib: string, typeOf: LibTypes)
    ensures LibsToLink(env, f, target, libs + [lib], typeOf) == LibsToLink(env, f, target, libs, typeOf)
         + (if CanWeakLink(env, f.sharedFlags, Key(target, typeOf(lib))) || LooksLikeKeyword(lib) then [] else [lib])
  {
    assert (libs + [lib])[..|libs|] == libs;
  }

  /** What the target ends with, after any history: flags of the first tests without duplicates,
      as a property or as items, and the libraries that need linking, unless they are dropped. */
  lemma LinkedTarget(t: Linkage, env: Toolchain, calls: seq<Call>, f: LinkerFlags, libs: seq<string>, typeOf: LibTypes)
    ensures var flags := FlagsToPass(env, calls, f, t.kind, libs, typeOf);
      var needed := LibsToLink(env, f, t.kind, libs, typeOf);
      var r := AfterLinking(t, TestedLinks(env, calls, f, t.kind, libs, typeOf));
      && r.kind == t.kind
      && r.linkFlags == (if t.kind != EXE && flags != [] then Some(RemoveDuplicates(flags)) else t.linkFlags)
      && r.linked == if Dropped(needed) then t.linked
                     else t.linked + (if t.kind == EXE then RemoveDuplicates(flags) else []) + RemoveDuplicates(needed)
    ensures forall lib :: lib in RemoveDuplicates(LibsToLink(env, f, t.kind, libs, typeOf)) <==>
      && lib in libs && !CanWeakLink(env, f.sharedFlags, Key(t.kind, typeOf(lib)))
      && !Holds(lib, "debug") && !Holds(lib, "optimized") && !Holds(lib, "general")
  {
    forall lib {
      LinkedUnlessKeyword(env, f, t.kind, libs, typeOf, lib);
    }
    RemoveDuplicatesMeaning(LibsToLink(env, f, t.kind, libs, typeOf));
    var flags := FlagsToPass(env, calls, f, t.kind, libs, typeOf);
    FlagsArePlain(env, calls, f, t.kind, libs, typeOf);
    PlainFlagsAreDeduplicated(flags);
    PlainFlagsAreDeduplicated([]);
    RemoveDuplicatesMeaning(flags);
    var needed := LibsToLink(env, f, t.kind, libs, typeOf);
    DeduplicatedLibraries(needed);
    LastArgumentDecides(if t.kind == EXE then RemoveDuplicates(flags) else [], Deduplicated(needed));
  }

  /** A list whose last library was not found links nothing, whatever precedes it. */
  lemma NotFoundDropsAll(t: Linkage, env: Toolchain, calls: seq<Call>, f: LinkerFlags, libs: seq<string>,
                         typeOf: LibTypes)
    requires EndsNotFound(libs) && !LooksLikeKeyword(libs[|libs| - 1])
    requires !CanWeakLink(env, f.sharedFlags, Key(t.kind, typeOf(libs[|libs| - 1])))
    ensures AfterLinking(t, TestedLinks(env, calls, f, t.kind, libs, typeOf)).linked == t.linked
  {
    LinkedTarget(t, env, calls, f, libs, typeOf);
  }
}
