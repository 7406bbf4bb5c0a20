/** Dependency graphs over component names, and the order in which a breadth-first search
    discovers them.  The graph is an arbitrary function: cycles are allowed. */
module Dependencies {
  import opened CMake

  type Graph = string -> seq<string>

  /** Every step of `walk` follows a dependency. */
  ghost predicate IsWalk(g: Graph, walk: seq<string>) {
    forall i :: 0 <= i < |walk| - 1 ==> walk[i + 1] in g(walk[i])
  }

  ghost predicate WalkTo(g: Graph, request: seq<string>, c: string, walk: seq<string>) {
    walk != [] && walk[0] in request && walk[|walk| - 1] == c && IsWalk(g, walk)
  }

  ghost predicate Reachable(g: Graph, request: seq<string>, c: string) {
    exists walk :: WalkTo(g, request, c, walk)
  }

  ghost function Names(list: seq<string>): set<string> {
    set c | c in list
  }

  ghost predicate ClosedUnder(g: Graph, names: set<string>) {
    forall c, d :: c in names && d in g(c) ==> d in names
  }

  ghost function Successors(g: Graph, names: set<string>): set<string> {
    set c, d | c in names && d in g(c) :: d
  }

  /** The names at distance at most `n` from the request. */
  ghost function Within(g: Graph, request: seq<string>, n: nat): set<string> {
    if n == 0 then Names(request)
    else Within(g, request, n - 1) + Successors(g, Within(g, request, n - 1))
  }

  /** The names at distance exactly `n` from the request. */
  ghost function AtDistance(g: Graph, request: seq<string>, n: nat): set<string> {
    if n == 0 then Within(g, request, 0)
    else Within(g, request, n) - Within(g, request, n - 1)
  }

  lemma {:induction false} WithinGrows(g: Graph, request: seq<string>, m: nat, n: nat)
    requires m <= n
    ensures Within(g, request, m) <= Within(g, request, n)
  {
    if m < n {
      WithinGrows(g, request, m, n - 1);
    }
  }

  /** Distances are lengths of walks, in both directions. */
  lemma {:induction false} WithinHasWalk(g: Graph, request: seq<string>, n: nat, c: string) returns (walk: seq<string>)
    requires c in Within(g, request, n)
    ensures WalkTo(g, request, c, walk) && |walk| <= n + 1
  {
    if n == 0 {
      walk := [c];
    } else if c in Within(g, request, n - 1) {
      walk := WithinHasWalk(g, request, n - 1, c);
    } else {
      var b :| b in Within(g, request, n - 1) && c in g(b);
      var front := WithinHasWalk(g, request, n - 1, b);
      walk := front + [c];
      forall i | 0 <= i < |walk| - 1
        ensures walk[i + 1] in g(walk[i])
      {
        if i + 1 < |front| {
          assert front[i + 1] in g(front[i]);
        }
      }
    }
  }

  lemma {:induction false} WalkEndsWithin(g: Graph, request: seq<string>, c: string, walk: seq<string>)
    requires WalkTo(g, request, c, walk)
    ensures c in Within(g, request, |walk| - 1)
    decreases |walk|
  {
    if |walk| > 1 {
      var front := walk[..|walk| - 1];
      forall i | 0 <= i < |front| - 1
        ensures front[i + 1] in g(front[i])
      {
        assert walk[i + 1] in g(walk[i]);
      }
      var b := walk[|walk| - 2];
      WalkEndsWithin(g, request, b, front);
      assert walk[|walk| - 2 + 1] in g(b);
    }
  }

  /** Reachability in the recursive form the proofs use. */
  lemma ReachableWithin(g: Graph, request: seq<string>, c: string)
    ensures Reachable(g, request, c) <==> exists n: nat :: c in Within(g, request, n)
  {
    if Reachable(g, request, c) {
      var walk :| WalkTo(g, request, c, walk);
      WalkEndsWithin(g, request, c, walk);
      assert c in Within(g, request, |walk| - 1);
    }
    if n: nat :| c in Within(g, request, n) {
      var walk := WithinHasWalk(g, request, n, c);
    }
  }

  lemma {:induction false} WithinStays(g: Graph, request: seq<string>, names: set<string>, n: nat)
    requires forall c :: c in request ==> c in names
    requires ClosedUnder(g, names)
    ensures Within(g, request, n) <= names
  {
    if n > 0 {
      WithinStays(g, request, names, n - 1);
    }
  }

  // ---------- Appending names that are not there yet ----------

  function AppendNew(list: seq<string>, more: seq<string>): seq<string>
    decreases |more|
  {
    if more == [] then list
    else AppendNew(if more[0] in list then list else list + [more[0]], more[1..])
  }

  lemma {:induction false} AppendNewConcat(list: seq<string>, a: seq<string>, b: seq<string>)
    ensures AppendNew(list, a + b) == AppendNew(AppendNew(list, a), b)
    decreases |a|
  {
    if a == [] {
      assert a + b == b;
    } else {
      assert (a + b)[1..] == a[1..] + b;
      AppendNewConcat(if a[0] in list then list else list + [a[0]], a[1..], b);
    }
  }

  /** Names at and after position `from` are new: they differ from everything else. */
  ghost predicate NewFrom(list: seq<string>, from: nat) {
    forall i, j :: 0 <= i < j < |list| && from <= j ==> list[i] != list[j]
  }

  lemma {:induction false} AppendNewShape(list: seq<string>, more: seq<string>, from: nat)
    requires from <= |list| && NewFrom(list, from)
    ensures list <= AppendNew(list, more)
    ensures NewFrom(AppendNew(list, more), from)
    decreases |more|
  {
    if more != [] {
      AppendNewShape(if more[0] in list then list else list + [more[0]], more[1..], from);
    }
  }

  lemma {:induction false} AppendNewMember(list: seq<string>, more: seq<string>, x: string)
    ensures x in AppendNew(list, more) <==> x in list || x in more
    decreases |more|
  {
    if more != [] {
      AppendNewMember(if more[0] in list then list else list + [more[0]], more[1..], x);
      assert more == [more[0]] + more[1..];
    }
  }

  /** The dependency lists of all names in `list`, one after the other. */
  ghost function Flat(g: Graph, list: seq<string>): seq<string> {
    if list == [] then []
    else Flat(g, list[..|list| - 1]) + g(list[|list| - 1])
  }

  lemma {:induction false} FlatConcat(g: Graph, a: seq<string>, b: seq<string>)
    ensures Flat(g, a + b) == Flat(g, a) + Flat(g, b)
    decreases |b|
  {
    if b == [] {
      assert a + b == a;
    } else {
      assert (a + b)[..|a + b| - 1] == a + b[..|b| - 1];
      FlatConcat(g, a, b[..|b| - 1]);
    }
  }

  lemma {:induction false} FlatMember(g: Graph, list: seq<string>, x: string)
    ensures x in Flat(g, list) <==> exists k :: 0 <= k < |list| && x in g(list[k])
  {
    if list != [] {
      var front := list[..|list| - 1];
      FlatMember(g, front, x);
      if k :| 0 <= k < |list| && x in g(list[k]) {
        if k < |front| { assert x in g(front[k]); }
      }
      if x in Flat(g, front) {
        var k :| 0 <= k < |front| && x in g(front[k]);
        assert x in g(list[k]);
      }
    }
  }

  // ---------- Discovery order ----------

  /** What has been discovered once the names of `expanded` have had their dependencies read. */
  ghost function Discovered(g: Graph, request: seq<string>, expanded: seq<string>): seq<string> {
    AppendNew(request, Flat(g, expanded))
  }

  /** `list` is the breadth-first discovery order from `request`: expanding all of it discovers
      exactly itself, and each name after the request is discovered by the names before it. */
  ghost predicate DiscoveryOrder(g: Graph, request: seq<string>, list: seq<string>) {
    && list == Discovered(g, request, list)
    && forall i :: |request| <= i < |list| ==> i < |Discovered(g, request, list[..i])|
  }

  lemma DiscoveredShape(g: Graph, request: seq<string>, expanded: seq<string>)
    ensures request <= Discovered(g, request, expanded)
    ensures NewFrom(Discovered(g, request, expanded), |request|)
  {
    AppendNewShape(request, Flat(g, expanded), |request|);
  }

  /** A name is discovered when it is requested or some expanded name depends on it. */
  lemma DiscoveredMember(g: Graph, request: seq<string>, expanded: seq<string>, x: string)
    ensures x in Discovered(g, request, expanded)
            <==> x in request || exists k :: 0 <= k < |expanded| && x in g(expanded[k])
  {
    AppendNewMember(request, Flat(g, expanded), x);
    FlatMember(g, expanded, x);
  }

  lemma NotRequested(request: seq<string>, list: seq<string>, i: nat)
    requires request <= list && NewFrom(list, |request|) && |request| <= i < |list|
    ensures list[i] !in request
  {
    forall j | 0 <= j < |request|
      ensures request[j] != list[i]
    {
      assert request[j] == list[j];
    }
  }

  lemma UniquePosition(list: seq<string>, from: nat, i: nat, j: nat)
    requires NewFrom(list, from) && i < |list| && from <= j < |list| && list[i] == list[j]
    ensures i == j
  {
  }

  lemma DiscoveredStep(g: Graph, request: seq<string>, expanded: seq<string>, more: seq<string>)
    ensures Discovered(g, request, expanded + more) == AppendNew(Discovered(g, request, expanded), Flat(g, more))
    ensures Discovered(g, request, expanded) <= Discovered(g, request, expanded + more)
  {
    FlatConcat(g, expanded, more);
    AppendNewConcat(request, Flat(g, expanded), Flat(g, more));
    DiscoveredShape(g, request, expanded);
    AppendNewShape(Discovered(g, request, expanded), Flat(g, more), |request|);
  }

  /** Within a discovery order, what the first `k` names discover is a prefix of the list. */
  lemma DiscoveredPrefix(g: Graph, request: seq<string>, list: seq<string>, k: nat)
    requires list == Discovered(g, request, list) && k <= |list|
    ensures Discovered(g, request, list[..k]) <= list
  {
    assert list == list[..k] + list[k..];
    DiscoveredStep(g, request, list[..k], list[k..]);
  }

  /** Beyond the request, every name of the list was discovered by an earlier name. */
  lemma Parent(g: Graph, request: seq<string>, list: seq<string>, i: nat, n: nat) returns (k: nat)
    requires DiscoveryOrder(g, request, list)
    requires |request| <= i < |list| && n <= |list| && i < |Discovered(g, request, list[..n])|
    ensures k < n && list[i] in g(list[k])
  {
    DiscoveredShape(g, request, list);
    DiscoveredPrefix(g, request, list, n);
    var seen := Discovered(g, request, list[..n]);
    assert seen[i] == list[i] && seen[i] in seen;
    DiscoveredMember(g, request, list[..n], list[i]);
    NotRequested(request, list, i);
    k :| 0 <= k < n && list[i] in g(list[..n][k]);
  }

  /** Every listed name has a walk from the request. */
  lemma {:induction false} ListedIsWithin(g: Graph, request: seq<string>, list: seq<string>, i: nat)
    requires DiscoveryOrder(g, request, list) && i < |list|
    ensures list[i] in Within(g, request, i)
    decreases i
  {
    DiscoveredShape(g, request, list);
    if i < |request| {
      assert list[i] in request;
      WithinGrows(g, request, 0, i);
    } else {
      var k := Parent(g, request, list, i, i);
      ListedIsWithin(g, request, list, k);
      WithinGrows(g, request, k, i - 1);
    }
  }

  lemma DiscoveryIsClosed(g: Graph, request: seq<string>, list: seq<string>)
    requires DiscoveryOrder(g, request, list)
    ensures forall c :: c in request ==> c in list
    ensures ClosedUnder(g, Names(list))
  {
    DiscoveredShape(g, request, list);
    forall c, d | c in list && d in g(c)
      ensures d in list
    {
      DiscoveredMember(g, request, list, d);
      var k :| 0 <= k < |list| && list[k] == c;
      assert d in g(list[k]);
    }
  }

  /** The worklist result is exactly graph reachability. */
  lemma DiscoveryIsReachability(g: Graph, request: seq<string>, list: seq<string>, c: string)
    requires DiscoveryOrder(g, request, list)
    ensures c in list <==> Reachable(g, request, c)
  {
    ReachableWithin(g, request, c);
    if c in list {
      var i :| 0 <= i < |list| && list[i] == c;
      ListedIsWithin(g, request, list, i);
    }
    if n: nat :| c in Within(g, request, n) {
      DiscoveryIsClosed(g, request, list);
      WithinStays(g, request, Names(list), n);
    }
  }

  /** It is the least closed superset of the request. */
  lemma DiscoveryIsLeast(g: Graph, request: seq<string>, list: seq<string>, names: set<string>)
    requires DiscoveryOrder(g, request, list)
    requires forall c :: c in request ==> c in names
    requires ClosedUnder(g, names)
    ensures forall c :: c in list ==> c in names
  {
    forall c | c in list
      ensures c in names
    {
      var i :| 0 <= i < |list| && list[i] == c;
      ListedIsWithin(g, request, list, i);
      WithinStays(g, request, names, i);
    }
  }

  /** Distances never decrease along the list: whatever bound a later name meets, an earlier
      name meets too. */
  lemma {:induction false} DiscoveryByDistance(g: Graph, request: seq<string>, list: seq<string>, i: nat, j: nat,
                                               m: nat)
    requires DiscoveryOrder(g, request, list)
    requires i < j < |list| && list[j] in Within(g, request, m)
    ensures list[i] in Within(g, request, m)
    decreases m
  {
    DiscoveredShape(g, request, list);
    if i < |request| {
      RequestedIsWithin(g, request, list[i], m);
    } else {
      FoundIsFurther(g, request, list, j, m);
      if list[j] in Within(g, request, m - 1) {
        DiscoveryByDistance(g, request, list, i, j, m - 1);
      } else {
        var k := ParentWithin(g, request, list, j, m);
        var k' := EarlierParent(g, request, list, i, j, k);
        if k' < k {
          DiscoveryByDistance(g, request, list, k', k, m - 1);
        }
        ChildIsWithin(g, request, list[k'], list[i], m);
      }
    }
  }

  lemma ChildIsWithin(g: Graph, request: seq<string>, b: string, c: string, m: nat)
    requires m > 0 && b in Within(g, request, m - 1) && c in g(b)
    ensures c in Within(g, request, m)
  {
  }

  lemma RequestedIsWithin(g: Graph, request: seq<string>, x: string, m: nat)
    requires x in request
    ensures x in Within(g, request, m)
  {
    WithinGrows(g, request, 0, m);
  }

  lemma FoundIsFurther(g: Graph, request: seq<string>, list: seq<string>, j: nat, m: nat)
    requires DiscoveryOrder(g, request, list)
    requires |request| <= j < |list| && list[j] in Within(g, request, m)
    ensures m > 0
  {
    DiscoveredShape(g, request, list);
    NotRequested(request, list, j);
  }

  lemma ParentWithin(g: Graph, request: seq<string>, list: seq<string>, j: nat, m: nat) returns (k: nat)
    requires DiscoveryOrder(g, request, list) && j < |list| && m > 0
    requires list[j] in AtDistance(g, request, m)
    ensures k < |list| && list[k] in Within(g, request, m - 1) && list[j] in g(list[k])
  {
    var b :| b in Within(g, request, m - 1) && list[j] in g(b);
    DiscoveryIsClosed(g, request, list);
    WithinStays(g, request, Names(list), m - 1);
    k :| 0 <= k < |list| && list[k] == b;
  }

  /** If position `k` discovers position `j`, something no later than `k` discovers `i < j`. */
  lemma EarlierParent(g: Graph, request: seq<string>, list: seq<string>, i: nat, j: nat, k: nat) returns (k': nat)
    requires DiscoveryOrder(g, request, list)
    requires |request| <= i < j < |list| && k < |list| && list[j] in g(list[k])
    ensures k' <= k && list[i] in g(list[k'])
  {
    var head := list[..k + 1];
    var seen := Discovered(g, request, head);
    DiscoveredShape(g, request, list);
    DiscoveredPrefix(g, request, list, k + 1);
    assert list[j] in g(head[k]);
    DiscoveredMember(g, request, head, list[j]);
    var p :| 0 <= p < |seen| && seen[p] == list[j];
    assert list[p] == seen[p];
    UniquePosition(list, |request|, p, j);
    k' := Parent(g, request, list, i, k + 1);
  }

  // ---------- The place of every name ----------

  /** What the first `k` names and the first `n` dependencies of the next one discover. */
  ghost function DiscoveredUpTo(g: Graph, request: seq<string>, list: seq<string>, k: nat, n: nat): seq<string>
    requires k < |list| && n <= |g(list[k])|
  {
    AppendNew(Discovered(g, request, list[..k]), g(list[k])[..n])
  }

  lemma DiscoveredUpToIsPrefix(g: Graph, request: seq<string>, list: seq<string>, k: nat, n: nat)
    requires list == Discovered(g, request, list) && k < |list| && n <= |g(list[k])|
    ensures DiscoveredUpTo(g, request, list, k, n) <= list
    ensures |request| <= |DiscoveredUpTo(g, request, list, k, n)|
  {
    var before, deps := Discovered(g, request, list[..k]), g(list[k]);
    assert list[..k + 1] == list[..k] + [list[k]];
    DiscoveredStep(g, request, list[..k], [list[k]]);
    FlatOne(g, list[k]);
    assert deps == deps[..n] + deps[n..];
    AppendNewConcat(before, deps[..n], deps[n..]);
    DiscoveredShape(g, request, list[..k]);
    AppendNewShape(before, deps[..n], |request|);
    AppendNewShape(AppendNew(before, deps[..n]), deps[n..], |request|);
    DiscoveredPrefix(g, request, list, k + 1);
  }

  lemma FlatOne(g: Graph, c: string)
    ensures Flat(g, [c]) == g(c)
  {
    assert [c][..0] == [];
    assert Flat(g, [c][..0]) == [];
  }

  /** A name stands where it is first mentioned: before it come exactly the requested names, the
      dependencies of all earlier names, and those that precede it in the list that mentions it. */
  lemma DiscoveryInOrderOfMention(g: Graph, request: seq<string>, list: seq<string>, j: nat, k: nat, n: nat)
    requires DiscoveryOrder(g, request, list) && |request| <= j < |list|
    requires k < |list| && n < |g(list[k])| && g(list[k])[n] == list[j]
    requires list[j] !in g(list[k])[..n] && forall i :: 0 <= i < k ==> list[j] !in g(list[i])
    ensures forall x :: x in list[..j] <==>
      x in request || (exists i :: 0 <= i < k && x in g(list[i])) || x in g(list[k])[..n]
  {
    var seen := DiscoveredUpTo(g, request, list, k, n);
    DiscoveredShape(g, request, list);
    NotRequested(request, list, j);
    DiscoveredUpToIsPrefix(g, request, list, k, n);
    forall x
      ensures x in seen <==> x in request || (exists i :: 0 <= i < k && x in g(list[i])) || x in g(list[k])[..n]
    {
      MentionedUpTo(g, request, list, k, n, x);
    }
    MentionedUpTo(g, request, list, k, n, list[j]);
    NextMention(g, request, list, k, n);
    UniquePosition(list, |request|, |seen|, j);
    assert list[..j] == seen;
  }

  lemma MentionedUpTo(g: Graph, request: seq<string>, list: seq<string>, k: nat, n: nat, x: string)
    requires k < |list| && n <= |g(list[k])|
    ensures x in DiscoveredUpTo(g, request, list, k, n)
            <==> x in request || (exists i :: 0 <= i < k && x in g(list[i])) || x in g(list[k])[..n]
  {
    AppendNewMember(Discovered(g, request, list[..k]), g(list[k])[..n], x);
    DiscoveredMember(g, request, list[..k], x);
    assert forall i :: 0 <= i < k ==> list[..k][i] == list[i];
  }

  /** The next dependency, if it is new, comes next. */
  lemma NextMention(g: Graph, request: seq<string>, list: seq<string>, k: nat, n: nat)
    requires list == Discovered(g, request, list) && k < |list| && n < |g(list[k])|
    requires g(list[k])[n] !in DiscoveredUpTo(g, request, list, k, n)
    ensures var seen := DiscoveredUpTo(g, request, list, k, n);
      |seen| < |list| && list[|seen|] == g(list[k])[n]
  {
    var seen, deps := DiscoveredUpTo(g, request, list, k, n), g(list[k]);
    assert deps[..n + 1] == deps[..n] + [deps[n]];
    AppendNewConcat(Discovered(g, request, list[..k]), deps[..n], [deps[n]]);
    assert [deps[n]][1..] == [];
    assert DiscoveredUpTo(g, request, list, k, n + 1) == seen + [deps[n]];
    DiscoveredUpToIsPrefix(g, request, list, k, n + 1);
  }

  /** Discovery order is determined by the graph and the request. */
  lemma DiscoveryIsUnique(g: Graph, request: seq<string>, a: seq<string>, b: seq<string>)
    requires DiscoveryOrder(g, request, a) && DiscoveryOrder(g, request, b)
    ensures a == b
  {
    DiscoveredShape(g, request, a);
    DiscoveredShape(g, request, b);
    CommonPrefix(g, request, a, b, |a|);
    CommonPrefix(g, request, b, a, |b|);
  }

  lemma {:induction false} CommonPrefix(g: Graph, request: seq<string>, a: seq<string>, b: seq<string>, n: nat)
    requires DiscoveryOrder(g, request, a) && DiscoveryOrder(g, request, b)
    requires n <= |a|
    ensures a[..n] <= b
    decreases n
  {
    DiscoveredShape(g, request, a);
    DiscoveredShape(g, request, b);
    if n <= |request| {
      PrefixesAgree(request, a, b, n);
    } else {
      CommonPrefix(g, request, a, b, n - 1);
      assert a[..n - 1] == b[..n - 1];
      DiscoveredPrefix(g, request, a, n - 1);
      DiscoveredPrefix(g, request, b, n - 1);
      PrefixesAgree(Discovered(g, request, a[..n - 1]), a, b, n);
    }
  }

  lemma PrefixesAgree(early: seq<string>, a: seq<string>, b: seq<string>, n: nat)
    requires early <= a && early <= b && n <= |early|
    ensures a[..n] <= b
  {
    assert a[..n] == early[..n];
  }

  // ---------- The resolver as an operator on requests ----------

  lemma {:induction false} AppendNothingNew(list: seq<string>, more: seq<string>)
    requires forall x :: x in more ==> x in list
    ensures AppendNew(list, more) == list
    decreases |more|
  {
    if more != [] {
      assert forall x :: x in more[1..] ==> x in more;
      AppendNothingNew(list, more[1..]);
    }
  }

  /** Resolving a result again discovers nothing. */
  lemma DiscoveryIsIdempotent(g: Graph, request: seq<string>, list: seq<string>)
    requires DiscoveryOrder(g, request, list)
    ensures DiscoveryOrder(g, list, list)
  {
    DiscoveryIsClosed(g, request, list);
    forall x | x in Flat(g, list)
      ensures x in list
    {
      DiscoveredMember(g, request, list, x);
      FlatMember(g, list, x);
    }
    AppendNothingNew(list, Flat(g, list));
  }

  /** A larger request gives a larger result. */
  lemma DiscoveryIsMonotone(g: Graph, small: seq<string>, large: seq<string>, a: seq<string>, b: seq<string>)
    requires forall c :: c in small ==> c in large
    requires DiscoveryOrder(g, small, a) && DiscoveryOrder(g, large, b)
    ensures forall c :: c in a ==> c in b
  {
    DiscoveryIsClosed(g, large, b);
    DiscoveryIsLeast(g, small, a, Names(b));
  }

  /** Resolving two requests together finds what resolving them apart finds, and nothing else. */
  lemma DiscoveryOfUnion(g: Graph, p: seq<string>, q: seq<string>, a: seq<string>, b: seq<string>, both: seq<string>)
    requires DiscoveryOrder(g, p, a) && DiscoveryOrder(g, q, b) && DiscoveryOrder(g, p + q, both)
    ensures forall c :: c in both <==> c in a || c in b
  {
    DiscoveryIsMonotone(g, p, p + q, a, both);
    DiscoveryIsMonotone(g, q, p + q, b, both);
    DiscoveryIsClosed(g, p, a);
    DiscoveryIsClosed(g, q, b);
    DiscoveryIsLeast(g, p + q, both, Names(a) + Names(b));
  }

  /** A request that is already closed under the dependencies is its own result. */
  lemma DiscoveryOfClosed(g: Graph, request: seq<string>, list: seq<string>)
    requires DiscoveryOrder(g, request, list)
    ensures list == request <==> ClosedUnder(g, Names(request))
  {
    DiscoveredShape(g, request, list);
    DiscoveryIsClosed(g, request, list);
    if |list| > |request| {
      NotRequested(request, list, |request|);
      assert list[|request|] in list && list[|request|] !in Names(request);
    }
    if ClosedUnder(g, Names(request)) {
      DiscoveryIsLeast(g, request, list, Names(request));
      assert list[..|request|] == request;
    }
  }
}
