/** What each operation of the factory layer brings about, written out: which objects are there
    afterwards, at which addresses, and in which order in which pool. */
module Effects {
  import opened Factories
  import opened Lifetime
  import opened Operations
  import opened Options
  import opened Runs
  import opened ServiceContexts

  /** The first access to the supervisor makes it; later ones change nothing. */
  lemma SupervisorAppears(s: State)
    requires Inv(s) && Shape(s)
    ensures s.supervisor.Some? ==> Apply(s, GetSupervisor) == s
    ensures s.supervisor.None? ==>
      Apply(s, GetSupervisor) == State(map[s.next := Supervisor([], [])], s.next + 1, Some(s.next), None)
  {
  }

  /** The first access to the service factory makes it, and then, if need be, the supervisor that it
      is registered with. */
  lemma FactoryAppears(s: State)
    requires Inv(s) && Shape(s)
    ensures s.factory.Some? ==> Apply(s, GetFactory) == s
    ensures s.supervisor.None? ==>
      Apply(s, GetFactory)
      == State(map[s.next := ServiceFactory([]), s.next + 1 := Supervisor([], [s.next])], s.next + 2,
               Some(s.next + 1), Some(s.next))
    ensures s.supervisor.Some? && s.factory.None? ==>
      var sup := s.supervisor.value;
      Apply(s, GetFactory)
      == State(s.heap[s.next := ServiceFactory([])][sup := Supervisor(s.heap[sup].bomPool, [s.next])], s.next + 1,
               Some(sup), Some(s.next))
  {
    if s.supervisor.None? {
      FirstFactory(s);
    } else if s.factory.None? {
      FactoryJoinsLast(s, s.supervisor.value);
    }
  }

  lemma FirstFactory(s: State)
    requires s.heap == map[] && s.supervisor.None? && s.factory.None?
    ensures WithServiceFactory(s)
      == State(map[s.next := ServiceFactory([]), s.next + 1 := Supervisor([], [s.next])], s.next + 2,
               Some(s.next + 1), Some(s.next))
    ensures WithBomFactory(s)
      == State(map[s.next := BomFactory([]), s.next + 1 := Supervisor([s.next], [])], s.next + 2,
               Some(s.next + 1), None)
  {
    assert [] + [s.next] == [s.next];
  }

  lemma FactoryJoinsLast(s: State, sup: Ptr)
    requires Shape(s) && s.supervisor == Some(sup) && s.factory.None? && s.heap[sup].svcPool == []
    ensures WithServiceFactory(s)
      == State(s.heap[s.next := ServiceFactory([])][sup := Supervisor(s.heap[sup].bomPool, [s.next])], s.next + 1,
               Some(sup), Some(s.next))
  {
    assert s.heap[sup].svcPool + [s.next] == [s.next];
  }

  /** A new context is empty but for its code, and comes last in the pool of the factory; nothing else
      changes beyond the first access to the factory. */
  lemma ContextAppears(s: State, crsCode: string)
    requires Inv(s) && Shape(s)
    ensures var t := Apply(s, GetFactory);
      && t.factory.Some? && t.factory.value in t.heap && t.heap[t.factory.value].ServiceFactory?
      && Apply(s, NewServiceContext(crsCode))
         == t.(heap := t.heap[t.next := Context(ServiceContext(None, None, None, true, None, None, None, crsCode))]
                         [t.factory.value := ServiceFactory(t.heap[t.factory.value].contexts + [t.next])],
               next := t.next + 1)
  {
    ContextComesLast(s, crsCode);
  }

  lemma ContextComesLast(s: State, crsCode: string)
    requires Shape(s)
    ensures var t := WithServiceFactory(s);
      && t.factory.Some? && t.factory.value in t.heap && t.heap[t.factory.value].ServiceFactory?
      && WithContext(s, crsCode)
         == t.(heap := t.heap[t.next := Context(ServiceContext(None, None, None, true, None, None, None, crsCode))]
                         [t.factory.value := ServiceFactory(t.heap[t.factory.value].contexts + [t.next])],
               next := t.next + 1)
  {
  }

  /** A new BOM factory comes last in the pool of the supervisor. */
  lemma BomFactoryAppears(s: State)
    requires Inv(s) && Shape(s)
    ensures s.supervisor.None? ==>
      Apply(s, NewBomFactory)
      == State(map[s.next := BomFactory([]), s.next + 1 := Supervisor([s.next], [])], s.next + 2,
               Some(s.next + 1), None)
    ensures s.supervisor.Some? ==>
      var sup := s.supervisor.value;
      Apply(s, NewBomFactory)
      == s.(heap := s.heap[s.next := BomFactory([])]
                          [sup := Supervisor(s.heap[sup].bomPool + [s.next], s.heap[sup].svcPool)],
            next := s.next + 1)
  {
    if s.supervisor.None? {
      FirstFactory(s);
    } else {
      BomFactoryJoinsLast(s, s.supervisor.value);
    }
  }

  lemma BomFactoryJoinsLast(s: State, sup: Ptr)
    requires Shape(s) && s.supervisor == Some(sup)
    ensures WithBomFactory(s)
      == s.(heap := s.heap[s.next := BomFactory([])]
                          [sup := Supervisor(s.heap[sup].bomPool + [s.next], s.heap[sup].svcPool)],
            next := s.next + 1)
  {
  }

  /** A new object comes last in the pool of its factory, and a store changes one context only. */
  lemma ObjectsChange(s: State, f: Ptr, p: Ptr, content: ServiceContext)
    requires Inv(s) && Shape(s)
    ensures IsBomFactory(s, f) ==>
      Apply(s, NewBom(f)) == s.(heap := s.heap[s.next := Bom][f := BomFactory(s.heap[f].boms + [s.next])],
                                next := s.next + 1)
    ensures !IsBomFactory(s, f) ==> Apply(s, NewBom(f)) == s
    ensures p in s.heap && s.heap[p].Context? ==>
      Apply(s, Store(p, content)) == s.(heap := s.heap[p := Context(content)])
    ensures !(p in s.heap && s.heap[p].Context?) ==> Apply(s, Store(p, content)) == s
  {
  }

  /** Cleaning the contexts frees exactly those, and empties the pool. */
  lemma ContextsGo(s: State, f: Ptr)
    requires Inv(s) && Shape(s) && s.factory == Some(f)
    ensures var r := Apply(s, CleanContextPool);
      && r.next == s.next && r.supervisor == s.supervisor && r.factory == s.factory
      && (forall p :: p in r.heap <==> p in s.heap && p !in s.heap[f].contexts)
      && forall p :: p in r.heap ==> r.heap[p] == if p == f then ServiceFactory([]) else s.heap[p]
  {
    InvHasShape(s);
    PoolLeavesOwners(s.heap, s.supervisor.value, f);
  }

  /** One of the factories `fs`, or in the pool of one of them. */
  ghost predicate OwnedAmong(heap: Heap, fs: seq<Ptr>, p: Ptr) {
    p in fs || exists f :: f in fs && f in heap && InPoolOf(heap[f], p)
  }

  predicate InPoolOf(o: Object, p: Ptr) {
    (o.BomFactory? && p in o.boms) || (o.ServiceFactory? && p in o.contexts)
  }

  lemma AmongIsOwned(heap: Heap, fs: seq<Ptr>)
    ensures forall p :: OwnedAmong(heap, fs, p) <==> p in OwnedBy(heap, fs)
  {
    forall p
      ensures OwnedAmong(heap, fs, p) <==> p in OwnedBy(heap, fs)
    {
      assert forall o :: p in Pool(o) <==> InPoolOf(o, p);
    }
  }

  /** `after` is `before` without the factories `gone` and what is in their pools, but for the object
      at `sup`, which is now `o`. */
  ghost predicate LeftBy(before: Heap, gone: seq<Ptr>, sup: Ptr, o: Object, after: Heap) {
    && (forall p :: p in after <==> p in before && !OwnedAmong(before, gone, p))
    && sup in after && after[sup] == o
    && forall p :: p in after && p != sup ==> after[p] == before[p]
  }

  lemma LayerLeft(before: Heap, gone: seq<Ptr>, sup: Ptr, o: Object)
    requires sup in before && sup !in OwnedBy(before, gone)
    ensures LeftBy(before, gone, sup, o, (before - OwnedBy(before, gone))[sup := o])
  {
    AmongIsOwned(before, gone);
  }

  lemma SupervisorIsNotOwned(s: State, sup: Ptr)
    requires Inv(s) && Shape(s) && s.supervisor == Some(sup)
    ensures sup !in OwnedBy(s.heap, s.heap[sup].bomPool) && sup !in OwnedBy(s.heap, s.heap[sup].svcPool)
  {
    OwnedConcat(s.heap, s.heap[sup].bomPool, s.heap[sup].svcPool);
  }

  /** Cleaning the BOM layer frees its factories and what is in their pools, and nothing else. */
  lemma BomLayerGoes(s: State, sup: Ptr)
    requires Inv(s) && Shape(s) && s.supervisor == Some(sup)
    ensures var r := Apply(s, CleanBoms);
      && r == s.(heap := r.heap)
      && LeftBy(s.heap, s.heap[sup].bomPool, sup, Supervisor([], s.heap[sup].svcPool), r.heap)
  {
    assert Apply(s, CleanBoms) == WithoutBoms(s);
    SupervisorIsNotOwned(s, sup);
    BomLayerLeft(s, sup);
  }

  lemma BomLayerLeft(s: State, sup: Ptr)
    requires Shape(s) && s.supervisor == Some(sup) && sup !in OwnedBy(s.heap, s.heap[sup].bomPool)
    ensures var r := WithoutBoms(s);
      && r == s.(heap := r.heap)
      && LeftBy(s.heap, s.heap[sup].bomPool, sup, Supervisor([], s.heap[sup].svcPool), r.heap)
  {
    LayerLeft(s.heap, s.heap[sup].bomPool, sup, Supervisor([], s.heap[sup].svcPool));
  }

  /** Cleaning the service layer does the same to the other pool, and forgets the service factory. */
  lemma ServiceLayerGoes(s: State, sup: Ptr)
    requires Inv(s) && Shape(s) && s.supervisor == Some(sup)
    ensures var r := Apply(s, CleanServices);
      && r == s.(heap := r.heap, factory := None)
      && LeftBy(s.heap, s.heap[sup].svcPool, sup, Supervisor(s.heap[sup].bomPool, []), r.heap)
  {
    assert Apply(s, CleanServices) == WithoutServices(s);
    SupervisorIsNotOwned(s, sup);
    ServiceLayerLeft(s, sup);
  }

  lemma ServiceLayerLeft(s: State, sup: Ptr)
    requires Shape(s) && s.supervisor == Some(sup) && sup !in OwnedBy(s.heap, s.heap[sup].svcPool)
    ensures var r := WithoutServices(s);
      && r == s.(heap := r.heap, factory := None)
      && LeftBy(s.heap, s.heap[sup].svcPool, sup, Supervisor(s.heap[sup].bomPool, []), r.heap)
  {
    LayerLeft(s.heap, s.heap[sup].svcPool, sup, Supervisor(s.heap[sup].bomPool, []));
  }

  // ---------- The order of deletions ----------

  /** Deleting factories deletes what they own: the first `m` of `fs`, and then those up to `n`. */
  lemma {:induction false} TeardownSplits(heap: Heap, fs: seq<Ptr>, m: nat, n: nat) returns (rest: seq<Ptr>)
    requires m <= n <= |fs| && forall f :: f in fs ==> f in heap
    ensures Teardown(heap, fs, n) == Teardown(heap, fs, m) + rest
    ensures forall p :: p in rest <==> p in OwnedBy(heap, fs[m..n])
  {
    if m == n {
      rest := [];
      assert fs[m..n] == [];
    } else {
      var front := TeardownSplits(heap, fs, m, n - 1);
      rest := OneMore(Teardown(heap, fs, m), front, Pool(heap[fs[n - 1]]), fs[n - 1]);
      LastOwned(heap, fs, m, n);
    }
  }

  lemma OneMore(a: seq<Ptr>, b: seq<Ptr>, pool: seq<Ptr>, f: Ptr) returns (r: seq<Ptr>)
    ensures a + b + pool + [f] == a + r
    ensures forall p :: p in r <==> p in b || p in pool || p == f
  {
    r := b + pool + [f];
  }

  lemma LastOwned(heap: Heap, fs: seq<Ptr>, m: nat, n: nat)
    requires m < n <= |fs| && forall f :: f in fs ==> f in heap
    ensures forall p :: p in OwnedBy(heap, fs[m..n]) <==>
      p in OwnedBy(heap, fs[m..n - 1]) || p in Pool(heap[fs[n - 1]]) || p == fs[n - 1]
  {
    assert fs[m..n] == fs[m..n - 1] + [fs[n - 1]];
    OwnedConcat(heap, fs[m..n - 1], [fs[n - 1]]);
    OwnedByOne(heap, fs[n - 1]);
  }

  /** Each factory is deleted right after the objects of its pool, which go in the order of the pool;
      before them go the earlier factories with theirs, and after it the later ones. */
  lemma TeardownOrder(heap: Heap, fs: seq<Ptr>, i: nat) returns (before: seq<Ptr>, after: seq<Ptr>)
    requires i < |fs| && forall f :: f in fs ==> f in heap
    ensures Teardown(heap, fs, |fs|) == before + Pool(heap[fs[i]]) + [fs[i]] + after
    ensures forall p :: p in before <==> p in OwnedBy(heap, fs[..i])
    ensures forall p :: p in after <==> p in OwnedBy(heap, fs[i + 1..|fs|])
  {
    before := Teardown(heap, fs, i);
    FirstTeardown(heap, fs, i);
    after := TeardownSplits(heap, fs, i + 1, |fs|);
  }

  lemma FirstTeardown(heap: Heap, fs: seq<Ptr>, i: nat)
    requires i <= |fs| && forall f :: f in fs ==> f in heap
    ensures forall p :: p in Teardown(heap, fs, i) <==> p in OwnedBy(heap, fs[..i])
  {
    var first := TeardownSplits(heap, fs, 0, i);
    assert first == Teardown(heap, fs, i) && fs[0..i] == fs[..i];
  }

  // ---------- Cleaning where there is nothing, and everything ----------

  /** Where there is nothing to clean, cleaning is the first access. */
  lemma NothingToClean(s: State)
    requires Inv(s) && Shape(s)
    ensures s.factory.None? ==> Apply(s, CleanContextPool) == Apply(s, GetFactory)
    ensures s.supervisor.None? ==> Apply(s, CleanBoms) == Apply(s, GetSupervisor)
    ensures s.supervisor.None? ==> Apply(s, CleanServices) == Apply(s, GetSupervisor)
  {
    if s.factory.None? {
      NoContexts(s);
    }
    if s.supervisor.None? {
      NoLayers(s);
    }
  }

  lemma NoContexts(s: State)
    requires Shape(s) && s.factory.None? && s.next !in s.heap
    ensures WithoutContexts(s) == WithServiceFactory(s)
  {
    assert WithServiceFactory(s).heap[s.next] == ServiceFactory([]);
  }

  lemma NoLayers(s: State)
    requires Shape(s) && s.supervisor.None? && s.factory.None?
    ensures WithoutBoms(s) == WithSupervisor(s) && WithoutServices(s) == WithSupervisor(s)
  {
    assert OwnedBy(WithSupervisor(s).heap, []) == {};
  }

  /** Cleaning everything leaves nothing but the count of addresses. */
  lemma EverythingGoes(s: State)
    requires Inv(s) && Shape(s)
    ensures Apply(s, CleanAll) == State(map[], s.next, None, None)
  {
  }
}
