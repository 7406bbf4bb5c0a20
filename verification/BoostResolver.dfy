/** The worklist of `_Boost_MISSING_DEPENDENCIES`: it closes a requested component list under
    a dependency function and remembers each component's dependency list. */
module BoostResolver {
  import opened CMake
  import opened Dependencies

  /** The `_Boost_<COMPONENT>_DEPENDENCIES` variables, by upper-case component name. */
  type DependencyVars = map<string, seq<string>>

  /** The variables left behind by reading the dependencies of `components` one by one. */
  ghost function RecordedVars(g: Graph, components: seq<string>): DependencyVars {
    if components == [] then map[]
    else
      var last := components[|components| - 1];
      RecordedVars(g, components[..|components| - 1])[Upper(last) := g(last)]
  }

  /** Each component has a variable. */
  lemma {:induction false} RecordedVarsCover(g: Graph, components: seq<string>, i: nat)
    requires i < |components|
    ensures Upper(components[i]) in RecordedVars(g, components)
  {
    if i < |components| - 1 {
      RecordedVarsCover(g, components[..|components| - 1], i);
    }
  }

  /** Each variable holds the dependency list of a component of that name. */
  lemma {:induction false} RecordedVarsOrigin(g: Graph, components: seq<string>, v: string) returns (i: nat)
    requires v in RecordedVars(g, components)
    ensures i < |components| && Upper(components[i]) == v && RecordedVars(g, components)[v] == g(components[i])
  {
    var front := components[..|components| - 1];
    if Upper(components[|front|]) == v {
      i := |front|;
    } else {
      i := RecordedVarsOrigin(g, front, v);
    }
  }

  /** The names of one round, for `round` rounds of the while loop. */
  ghost predicate RoundsByDistance(g: Graph, request: seq<string>, rounds: seq<seq<string>>) {
    forall r :: 0 <= r < |rounds| ==> Names(rounds[r]) == AtDistance(g, request, r)
  }

  ghost function Concat(rounds: seq<seq<string>>): seq<string> {
    if rounds == [] then [] else Concat(rounds[..|rounds| - 1]) + rounds[|rounds| - 1]
  }

  /** The names reached in the first `r` rounds are the names at distance below `r`. */
  ghost function Before(g: Graph, request: seq<string>, r: nat): set<string> {
    if r == 0 then {} else Within(g, request, r - 1)
  }

  // ---------- What one round of the while loop keeps ----------

  /** The lists of the worklist form a partial discovery order whose first part is expanded. */
  ghost predicate Progress(g: Graph, request: seq<string>, processed: seq<string>, unprocessed: seq<string>) {
    var all := processed + unprocessed;
    && all == Discovered(g, request, processed)
    && forall i :: |request| <= i < |all| ==> i < |Discovered(g, request, all[..i])|
  }

  lemma ProgressStarts(g: Graph, request: seq<string>)
    ensures Progress(g, request, [], request)
  {
    assert [] + request == request;
  }

  lemma ProgressStep(g: Graph, request: seq<string>, processed: seq<string>, unprocessed: seq<string>,
                     found: seq<string>)
    requires Progress(g, request, processed, unprocessed)
    requires processed + unprocessed + found == AppendNew(processed + unprocessed, Flat(g, unprocessed))
    ensures Progress(g, request, processed + unprocessed, found)
  {
    var seen := processed + unprocessed;
    var all := seen + found;
    DiscoveredStep(g, request, processed, unprocessed);
    forall i | |request| <= i < |all|
      ensures i < |Discovered(g, request, all[..i])|
    {
      if i < |seen| {
        assert all[..i] == seen[..i];
      } else {
        assert all[..i] == seen + found[..i - |seen|];
        DiscoveredStep(g, request, seen, found[..i - |seen|]);
      }
    }
  }

  lemma ProgressEnds(g: Graph, request: seq<string>, processed: seq<string>)
    requires Progress(g, request, processed, [])
    ensures DiscoveryOrder(g, request, processed)
  {
    assert processed + [] == processed;
  }

  /** The names found in a round are those one step further than the names of the round. */
  lemma RoundIsNextDistance(g: Graph, request: seq<string>, r: nat, processed: seq<string>, unprocessed: seq<string>,
                            found: seq<string>)
    requires Progress(g, request, processed, unprocessed)
    requires processed + unprocessed + found == AppendNew(processed + unprocessed, Flat(g, unprocessed))
    requires Names(processed) == Before(g, request, r)
    requires Names(unprocessed) == AtDistance(g, request, r)
    ensures Names(processed + unprocessed) == Before(g, request, r + 1)
    ensures Names(found) == AtDistance(g, request, r + 1)
  {
    var all := processed + unprocessed;
    assert Names(all) == Names(processed) + Names(unprocessed);
    if r > 0 { WithinGrows(g, request, r - 1, r); }
    assert Names(all) == Within(g, request, r);
    forall c
      ensures c in Names(found) <==> c in AtDistance(g, request, r + 1)
    {
      FoundIsNew(g, request, processed, unprocessed, found, c);
      assert c in Names(all) <==> c in all;
      if c in found {
        var b :| b in Names(unprocessed) && c in g(b);
        assert b in Within(g, request, r);
      }
      if c in AtDistance(g, request, r + 1) {
        NextDistanceParent(g, request, r, c);
      }
    }
  }

  lemma FoundIsNew(g: Graph, request: seq<string>, processed: seq<string>, unprocessed: seq<string>,
                   found: seq<string>, c: string)
    requires Progress(g, request, processed, unprocessed)
    requires processed + unprocessed + found == AppendNew(processed + unprocessed, Flat(g, unprocessed))
    ensures c in found <==> c !in processed + unprocessed && exists b :: b in Names(unprocessed) && c in g(b)
  {
    NewTail(processed + unprocessed, Flat(g, unprocessed), found, c);
    FlatNames(g, unprocessed, c);
  }

  lemma NewTail(list: seq<string>, more: seq<string>, found: seq<string>, c: string)
    requires list + found == AppendNew(list, more)
    ensures c in found <==> c !in list && c in more
  {
    AppendNewShape(list, more, |list|);
    AppendNewMember(list, more, c);
    assert c in list + found <==> c in list || c in found;
    if c in found {
      var k :| 0 <= k < |found| && found[k] == c;
      assert (list + found)[|list| + k] == c;
      NotRequested(list, list + found, |list| + k);
    }
  }

  lemma FlatNames(g: Graph, list: seq<string>, c: string)
    ensures c in Flat(g, list) <==> exists b :: b in Names(list) && c in g(b)
  {
    FlatMember(g, list, c);
    if c in Flat(g, list) {
      var k :| 0 <= k < |list| && c in g(list[k]);
      assert list[k] in Names(list);
    }
    if b :| b in Names(list) && c in g(b) {
      var k :| 0 <= k < |list| && list[k] == b;
      assert c in g(list[k]);
    }
  }

  lemma NextDistanceParent(g: Graph, request: seq<string>, r: nat, c: string)
    requires c in AtDistance(g, request, r + 1)
    ensures exists b :: b in AtDistance(g, request, r) && c in g(b)
  {
    var b :| b in Within(g, request, r) && c in g(b);
    assert r > 0 ==> b !in Within(g, request, r - 1);
  }

  /** The inner foreach: keep the dependencies that are neither processed nor found already. */
  method KeepNewDependencies(processed: seq<string>, found: seq<string>, deps: seq<string>)
    returns (found': seq<string>)
    ensures processed + found' == AppendNew(processed + found, deps)
  {
    found' := found;
    for j := 0 to |deps|
      invariant AppendNew(processed + found', deps[j..]) == AppendNew(processed + found, deps)
    {
      assert deps[j..][1..] == deps[j + 1..];
      if !(deps[j] in processed || deps[j] in found') {
        assert processed + found' + [deps[j]] == processed + (found' + [deps[j]]);
        found' := found' + [deps[j]];
      }
    }
  }

  lemma RecordedVarsStep(g: Graph, before: seq<string>, list: seq<string>, i: nat)
    requires i < |list|
    ensures RecordedVars(g, before + list[..i + 1])
         == RecordedVars(g, before + list[..i])[Upper(list[i]) := g(list[i])]
  {
    var more := before + list[..i + 1];
    assert more[..|more| - 1] == before + list[..i] && more[|more| - 1] == list[i];
  }

  lemma AppendNewStep(g: Graph, processed: seq<string>, unprocessed: seq<string>, i: nat)
    requires i < |unprocessed|
    ensures AppendNew(processed, Flat(g, unprocessed[..i + 1]))
         == AppendNew(AppendNew(processed, Flat(g, unprocessed[..i])), g(unprocessed[i]))
  {
    assert unprocessed[..i + 1][..i] == unprocessed[..i];
    AppendNewConcat(processed, Flat(g, unprocessed[..i]), g(unprocessed[i]));
  }

  /** The body of the while loop: read the dependencies of every unprocessed component, record
      them, and collect the new ones. */
  method FindNewComponents(g: Graph, processed: seq<string>, unprocessed: seq<string>, vars: DependencyVars,
                           ghost before: seq<string>)
    returns (found: seq<string>, vars': DependencyVars)
    requires vars == RecordedVars(g, before)
    ensures processed + found == AppendNew(processed, Flat(g, unprocessed))
    ensures vars' == RecordedVars(g, before + unprocessed)
  {
    found, vars' := [], vars;
    assert before + unprocessed[..0] == before;
    for i := 0 to |unprocessed|
      invariant processed + found == AppendNew(processed, Flat(g, unprocessed[..i]))
      invariant vars' == RecordedVars(g, before + unprocessed[..i])
    {
      var component := unprocessed[i];
      var deps := g(component);
      RecordedVarsStep(g, before, unprocessed, i);
      vars' := vars'[Upper(component) := deps];
      AppendNewStep(g, processed, unprocessed, i);
      found := KeepNewDependencies(processed, found, deps);
    }
    assert unprocessed[..|unprocessed|] == unprocessed;
  }

  /** A round finds only plain names of the universe. */
  lemma RoundStaysInside(g: Graph, request: seq<string>, universe: set<string>, processed: seq<string>,
                         unprocessed: seq<string>, found: seq<string>)
    requires ClosedUnder(g, universe)
    requires forall c, d :: c in universe && d in g(c) ==> IsPlain(d)
    requires forall c :: c in processed + unprocessed ==> c in universe
    requires Progress(g, request, processed, unprocessed)
    requires processed + unprocessed + found == AppendNew(processed + unprocessed, Flat(g, unprocessed))
    ensures forall c :: c in found ==> c in universe && IsPlain(c)
  {
    forall c | c in found
      ensures c in universe && IsPlain(c)
    {
      FoundIsNew(g, request, processed, unprocessed, found, c);
      var b :| b in Names(unprocessed) && c in g(b);
      assert b in processed + unprocessed;
    }
  }

  lemma StrictlySmaller(a: set<string>, b: set<string>)
    requires a < b
    ensures |a| < |b|
  {
    assert !(b <= a);
    var x :| x in b && x !in a;
    SubsetSize(a, b - {x});
  }

  lemma {:induction false} SubsetSize(a: set<string>, b: set<string>)
    requires a <= b
    ensures |a| <= |b|
  {
    if x :| x in a {
      SubsetSize(a - {x}, b - {x});
    }
  }

  /** Each round strictly shrinks the unvisited part of the universe. */
  lemma RoundShrinks(universe: set<string>, processed: seq<string>, unprocessed: seq<string>)
    requires forall c :: c in processed + unprocessed ==> c in universe
    requires unprocessed != [] && Names(processed) !! Names(unprocessed)
    ensures |universe - Names(processed + unprocessed)| < |universe - Names(processed)|
  {
    var c := unprocessed[0];
    assert c in processed + unprocessed;
    assert c in Names(unprocessed) && c !in Names(processed);
    assert c in universe - Names(processed) && c !in universe - Names(processed + unprocessed);
    assert Names(processed + unprocessed) == Names(processed) + Names(unprocessed);
    StrictlySmaller(universe - Names(processed + unprocessed), universe - Names(processed));
  }

  /** Removing the requested names leaves exactly the names after the requested prefix, even
      when the request repeats itself. */
  lemma RequestDropsOut(g: Graph, request: seq<string>, list: seq<string>)
    requires DiscoveryOrder(g, request, list)
    ensures |request| <= |list|
    ensures RemoveItems(list, request) == list[|request|..]
  {
    DiscoveredShape(g, request, list);
    var tail := list[|request|..];
    assert list == request + tail;
    RemoveItemsConcat(request, tail, request);
    RemoveItemsAll(request, request);
    forall x | x in tail
      ensures x !in request
    {
      var k :| 0 <= k < |tail| && tail[k] == x;
      NotRequested(request, list, |request| + k);
    }
    RemoveItemsNone(tail, request);
  }

  /** What holds between two rounds of the while loop. */
  ghost predicate LoopInvariant(g: Graph, request: seq<string>, universe: set<string>, rounds: seq<seq<string>>,
                                processed: seq<string>, unprocessed: seq<string>) {
    && Concat(rounds) == processed && RoundsByDistance(g, request, rounds)
    && Progress(g, request, processed, unprocessed)
    && (rounds == [] ==> unprocessed == request)
    && (rounds != [] ==> Truthy(request) && Truthy(processed) && forall c :: c in unprocessed ==> IsPlain(c))
    && Names(processed) == Before(g, request, |rounds|)
    && Names(unprocessed) == AtDistance(g, request, |rounds|)
    && (forall c :: c in processed + unprocessed ==> c in universe)
  }

  lemma RoundKeepsInvariant(g: Graph, request: seq<string>, universe: set<string>, rounds: seq<seq<string>>,
                            processed: seq<string>, unprocessed: seq<string>, found: seq<string>)
    requires ClosedUnder(g, universe)
    requires forall c, d :: c in universe && d in g(c) ==> IsPlain(d)
    requires LoopInvariant(g, request, universe, rounds, processed, unprocessed)
    requires Truthy(unprocessed)
    requires processed + unprocessed + found == AppendNew(processed + unprocessed, Flat(g, unprocessed))
    ensures LoopInvariant(g, request, universe, rounds + [unprocessed], processed + unprocessed, found)
    ensures |universe - Names(processed + unprocessed)| < |universe - Names(processed)|
  {
    ProgressStep(g, request, processed, unprocessed, found);
    RoundStaysInside(g, request, universe, processed, unprocessed, found);
    RoundIsNextDistance(g, request, |rounds|, processed, unprocessed, found);
    assert Names(processed) !! Names(unprocessed);
    RoundShrinks(universe, processed, unprocessed);
    RoundsStep(g, request, rounds, unprocessed);
    ConcatStep(rounds, unprocessed);
    if rounds == [] {
      assert processed + unprocessed == request;
    } else {
      TruthyExtends(processed, unprocessed);
    }
    assert |rounds + [unprocessed]| == |rounds| + 1;
  }

  lemma RoundsStep(g: Graph, request: seq<string>, rounds: seq<seq<string>>, round: seq<string>)
    requires RoundsByDistance(g, request, rounds) && Names(round) == AtDistance(g, request, |rounds|)
    ensures RoundsByDistance(g, request, rounds + [round])
  {
    var more := rounds + [round];
    forall r | 0 <= r < |more|
      ensures Names(more[r]) == AtDistance(g, request, r)
    {
      if r < |rounds| {
        assert more[r] == rounds[r];
      }
    }
  }

  lemma ConcatStep(rounds: seq<seq<string>>, round: seq<string>)
    ensures Concat(rounds + [round]) == Concat(rounds) + round
  {
    assert (rounds + [round])[..|rounds|] == rounds;
  }

  lemma LoopEnds(g: Graph, request: seq<string>, universe: set<string>, rounds: seq<seq<string>>,
                 processed: seq<string>, unprocessed: seq<string>)
    requires LoopInvariant(g, request, universe, rounds, processed, unprocessed)
    requires !Truthy(unprocessed)
    ensures Truthy(request) ==> Truthy(processed) && DiscoveryOrder(g, request, processed)
    ensures !Truthy(request) ==> processed == []
  {
    if Truthy(request) {
      if unprocessed != [] {
        PlainListIsTruthy(unprocessed);
        assert false;
      }
      ProgressEnds(g, request, processed);
    }
  }

  method MissingDependencies(g: Graph, request: seq<string>, ghost universe: set<string>)
    returns (components: seq<string>, extra: seq<string>, vars: DependencyVars, ghost rounds: seq<seq<string>>)
    requires forall c :: c in request ==> c in universe
    requires ClosedUnder(g, universe)
    requires forall c, d :: c in universe && d in g(c) ==> IsPlain(d)
    ensures DiscoveryOrder(g, request, components) <==> request == [] || Truthy(request)
    ensures !Truthy(request) ==> components == []
    ensures Truthy(request) ==> |request| <= |components| && extra == components[|request|..]
    ensures !Truthy(request) ==> extra == []
    ensures vars == RecordedVars(g, components)
    ensures Concat(rounds) == components && RoundsByDistance(g, request, rounds)
  {
    var unprocessed := request;
    var processed: seq<string> := [];
    vars := map[];
    rounds := [];
    ProgressStarts(g, request);
    while Truthy(unprocessed)
      invariant LoopInvariant(g, request, universe, rounds, processed, unprocessed)
      invariant vars == RecordedVars(g, processed)
      decreases |universe - Names(processed)|
    {
      ghost var before := processed;
      processed := processed + unprocessed;
      var found;
      found, vars := FindNewComponents(g, processed, unprocessed, vars, before);
      RoundKeepsInvariant(g, request, universe, rounds, before, unprocessed, found);
      rounds := rounds + [unprocessed];
      unprocessed := found;
    }
    LoopEnds(g, request, universe, rounds, processed, unprocessed);
    DiscoveredShape(g, request, processed);
    if Truthy(request) {
      RequestDropsOut(g, request, processed);
    }
    extra := processed;
    if Truthy(extra) && Truthy(request) {
      extra := RemoveItems(extra, request);
    }
    components := processed;
  }
}
