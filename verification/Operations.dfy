/** What each operation of the factory layer does to a state, and that every operation keeps the
    ownership invariant and brings only fresh addresses to life. */
module Operations {
  import opened Lifetime
  import opened Options
  import opened ServiceContexts

  /** The instance pointers point to live objects of the right kind. */
  predicate Shape(s: State) {
    && (s.supervisor.Some? ==>
          && s.supervisor.value < s.next
          && s.supervisor.value in s.heap && s.heap[s.supervisor.value].Supervisor?)
    && (s.factory.Some? ==> s.factory.value in s.heap && s.heap[s.factory.value].ServiceFactory?)
  }

  /** Only addresses that were never used come to life. */
  ghost predicate Grows(s: State, r: State) {
    s.next <= r.next && forall p :: p in r.heap ==> p in s.heap || s.next <= p
  }

  lemma InvHasShape(s: State)
    requires Inv(s)
    ensures Shape(s)
    ensures s.factory.Some? ==> s.supervisor.Some? && s.factory.value in Registered(s.heap, s.supervisor.value)
  {
    if s.factory.Some? {
      assert s.factory.value in s.heap[s.supervisor.value].svcPool;
    }
  }

  // ---------- Singletons ----------

  /** `new`. */
  function Allocated(s: State, o: Object): State {
    s.(heap := s.heap[s.next := o], next := s.next + 1)
  }

  /** FacSupervisor::instance(). */
  function WithSupervisor(s: State): State {
    if s.supervisor.Some? then s
    else Allocated(s, Supervisor([], [])).(supervisor := Some(s.next))
  }

  function RegisterSvc(s: State, f: Ptr): State
    requires s.supervisor.Some? && s.supervisor.value in s.heap && s.heap[s.supervisor.value].Supervisor?
  {
    var sup := s.supervisor.value;
    s.(heap := s.heap[sup := s.heap[sup].(svcPool := s.heap[sup].svcPool + [f])])
  }

  function RegisterBom(s: State, f: Ptr): State
    requires s.supervisor.Some? && s.supervisor.value in s.heap && s.heap[s.supervisor.value].Supervisor?
  {
    var sup := s.supervisor.value;
    s.(heap := s.heap[sup := s.heap[sup].(bomPool := s.heap[sup].bomPool + [f])])
  }

  /** FacSimcrsServiceContext::instance(): the factory is allocated, and stored as the instance,
      before the supervisor that it is registered with is looked up. */
  function WithServiceFactory(s: State): State
    requires Shape(s)
  {
    if s.factory.Some? then s
    else RegisterSvc(WithSupervisor(Allocated(s, ServiceFactory([])).(factory := Some(s.next))), s.next)
  }

  /** A client allocates a BOM factory and registers it with the supervisor. */
  function WithBomFactory(s: State): State
    requires Shape(s)
  {
    RegisterBom(WithSupervisor(Allocated(s, BomFactory([]))), s.next)
  }

  lemma WithSupervisorInv(s: State)
    requires Inv(s)
    ensures Inv(WithSupervisor(s)) && Grows(s, WithSupervisor(s))
  {
  }

  lemma WithServiceFactoryInv(s: State)
    requires Inv(s) && Shape(s)
    ensures Inv(WithServiceFactory(s)) && Grows(s, WithServiceFactory(s))
  {
    if s.factory.None? {
      if s.supervisor.Some? {
        ServiceFactoryJoins(s, s.supervisor.value);
      } else {
        ServiceFactoryAlone(s);
      }
    }
  }

  lemma ServiceFactoryJoins(s: State, sup: Ptr)
    requires Inv(s) && Shape(s) && s.factory.None? && s.supervisor == Some(sup)
    ensures Inv(WithServiceFactory(s)) && Grows(s, WithServiceFactory(s))
  {
    var before, after := s.heap, WithServiceFactory(s).heap;
    assert after[sup].svcPool == [s.next];
    RegisterOnHeap(before, sup, before[sup].bomPool, before[sup].svcPool, s.next, after);
  }

  lemma ServiceFactoryAlone(s: State)
    requires Inv(s) && Shape(s) && s.supervisor.None?
    ensures Inv(WithServiceFactory(s)) && Grows(s, WithServiceFactory(s))
  {
    var f, r := s.next, WithServiceFactory(s);
    ConservedAlone(r.heap, f + 1, f);
    assert Registered(r.heap, f + 1) == [f];
  }

  lemma WithBomFactoryInv(s: State)
    requires Inv(s) && Shape(s)
    ensures Inv(WithBomFactory(s)) && Grows(s, WithBomFactory(s))
  {
    if s.supervisor.Some? {
      BomFactoryJoins(s, s.supervisor.value);
    } else {
      BomFactoryAlone(s);
    }
  }

  lemma BomFactoryJoins(s: State, sup: Ptr)
    requires Inv(s) && Shape(s) && s.supervisor == Some(sup)
    ensures Inv(WithBomFactory(s)) && Grows(s, WithBomFactory(s))
  {
    RegisterOnHeap(s.heap, sup, s.heap[sup].bomPool, s.heap[sup].svcPool, s.next, WithBomFactory(s).heap);
  }

  lemma BomFactoryAlone(s: State)
    requires Inv(s) && Shape(s) && s.supervisor.None?
    ensures Inv(WithBomFactory(s)) && Grows(s, WithBomFactory(s))
  {
    var f, r := s.next, WithBomFactory(s);
    ConservedAlone(r.heap, f + 1, f);
    assert Registered(r.heap, f + 1) == [f];
  }

  /** A new factory `f` joins the end of its layer's pool, between `a` and `b`. */
  lemma RegisterOnHeap(heap: Heap, sup: Ptr, a: seq<Ptr>, b: seq<Ptr>, f: Ptr, heap': Heap)
    requires sup in heap && heap[sup].Supervisor? && Kinds(heap, sup) && f !in heap
    requires Registered(heap, sup) == a + b && Conserved(heap, sup, a + b)
    requires heap'.Keys == heap.Keys + {f} && heap'[sup].Supervisor? && Registered(heap', sup) == a + [f] + b
    requires forall p :: p in heap && p != sup ==> heap'[p] == heap[p]
    requires || (heap'[f] == BomFactory([]) && heap'[sup] == Supervisor(heap[sup].bomPool + [f], heap[sup].svcPool))
             || (heap'[f] == ServiceFactory([]) && heap'[sup] == Supervisor(heap[sup].bomPool, heap[sup].svcPool + [f]))
    ensures Conserved(heap', sup, Registered(heap', sup)) && Kinds(heap', sup)
  {
    ConservedFactory(heap, sup, a, b, f, heap');
    assert sup !in Registered(heap, sup) by {
      FactoriesAreOwned(heap, a + b);
    }
    FactoryKinds(heap, sup, f, heap');
  }

  lemma FactoryKinds(heap: Heap, sup: Ptr, f: Ptr, heap': Heap)
    requires sup in heap && heap[sup].Supervisor? && Kinds(heap, sup) && f !in heap
    requires heap'.Keys == heap.Keys + {f} && heap'[sup].Supervisor?
    requires forall p :: p in heap && p != sup ==> heap'[p] == heap[p]
    requires sup !in Registered(heap, sup)
    requires || (heap'[f].BomFactory? && heap'[sup] == Supervisor(heap[sup].bomPool + [f], heap[sup].svcPool))
             || (heap'[f].ServiceFactory? && heap'[sup] == Supervisor(heap[sup].bomPool, heap[sup].svcPool + [f]))
    ensures Kinds(heap', sup)
  {
    assert forall p :: p in Registered(heap', sup) <==> p in Registered(heap, sup) || p == f;
    assert forall p :: p in heap[sup].bomPool ==> p in Registered(heap, sup);
    assert forall p :: p in heap[sup].svcPool ==> p in Registered(heap, sup);
  }

  // ---------- Creating objects ----------

  /** A new object `o`, pushed onto the pool of the factory `f`. */
  function Pushed(s: State, f: Ptr, o: Object): State
    requires f in s.heap && (s.heap[f].BomFactory? || s.heap[f].ServiceFactory?)
  {
    s.(heap := s.heap[s.next := o][f := WithPool(s.heap[f], Pool(s.heap[f]) + [s.next])], next := s.next + 1)
  }

  lemma PushedInv(s: State, f: Ptr, o: Object)
    requires Inv(s) && s.supervisor.Some? && f in Registered(s.heap, s.supervisor.value) && IsLeaf(o)
    requires f in s.heap && (s.heap[f].BomFactory? || s.heap[f].ServiceFactory?)
    ensures Inv(Pushed(s, f, o)) && Grows(s, Pushed(s, f, o))
  {
    PushOnHeap(s.heap, s.supervisor.value, f, s.next, o, Pushed(s, f, o).heap);
  }

  /** FacSimcrsServiceContext::instance().create(). */
  function WithContext(s: State, crsCode: string): State
    requires Shape(s)
  {
    var t := WithServiceFactory(s);
    Pushed(t, t.factory.value, Context(NewContext(crsCode)))
  }

  lemma WithContextInv(s: State, crsCode: string)
    requires Inv(s) && Shape(s)
    ensures Inv(WithContext(s, crsCode)) && Grows(s, WithContext(s, crsCode))
  {
    WithServiceFactoryInv(s);
    var t := WithServiceFactory(s);
    InvHasShape(t);
    PushedInv(t, t.factory.value, Context(NewContext(crsCode)));
  }

  predicate IsBomFactory(s: State, f: Ptr) {
    s.supervisor.Some? && s.supervisor.value in s.heap && s.heap[s.supervisor.value].Supervisor?
    && f in s.heap[s.supervisor.value].bomPool && f in s.heap && s.heap[f].BomFactory?
  }

  function WithBom(s: State, f: Ptr): State
    requires IsBomFactory(s, f)
  {
    Pushed(s, f, Bom)
  }

  lemma WithBomInv(s: State, f: Ptr)
    requires Inv(s) && IsBomFactory(s, f)
    ensures Inv(WithBom(s, f)) && Grows(s, WithBom(s, f))
  {
    assert f in Registered(s.heap, s.supervisor.value);
    PushedInv(s, f, Bom);
  }

  /** A service stores into its context. */
  function WithStored(s: State, p: Ptr, content: ServiceContext): State
    requires p in s.heap && s.heap[p].Context?
  {
    s.(heap := s.heap[p := Context(content)])
  }

  lemma WithStoredInv(s: State, p: Ptr, content: ServiceContext)
    requires Inv(s) && p in s.heap && s.heap[p].Context?
    ensures Inv(WithStored(s, p, content)) && Grows(s, WithStored(s, p, content))
  {
    StoreOnHeap(s.heap, s.supervisor.value, p, Context(content));
  }

  lemma StoreOnHeap(heap: Heap, sup: Ptr, p: Ptr, o: Object)
    requires sup in heap && heap[sup].Supervisor? && Conserved(heap, sup, Registered(heap, sup)) && Kinds(heap, sup)
    requires p in heap && IsLeaf(heap[p]) && IsLeaf(o)
    ensures Conserved(heap[p := o], sup, Registered(heap, sup)) && Kinds(heap[p := o], sup)
  {
    var heap' := heap[p := o];
    OwnershipFrame(heap, heap', Registered(heap, sup));
    StoreKinds(heap, sup, p, o);
  }

  lemma StoreKinds(heap: Heap, sup: Ptr, p: Ptr, o: Object)
    requires sup in heap && heap[sup].Supervisor? && Kinds(heap, sup)
    requires p in heap && IsLeaf(heap[p]) && IsLeaf(o)
    ensures Kinds(heap[p := o], sup)
  {
    forall f | f in Registered(heap, sup)
      ensures f in heap
    {
    }
    KindsKept(heap, sup, heap[p := o]);
  }

  // ---------- Cleaning ----------

  /** FacServiceAbstract::clean() on the service context factory. */
  ghost function WithoutContexts(s: State): State
    requires Shape(s)
  {
    var t := WithServiceFactory(s);
    var f := t.factory.value;
    t.(heap := (t.heap - Elements(Pool(t.heap[f])))[f := ServiceFactory([])])
  }

  lemma WithoutContextsInv(s: State)
    requires Inv(s) && Shape(s)
    ensures Inv(WithoutContexts(s)) && Grows(s, WithoutContexts(s))
  {
    WithServiceFactoryInv(s);
    InvHasShape(WithServiceFactory(s));
    EmptyPoolInv(WithServiceFactory(s), WithServiceFactory(s).factory.value);
  }

  lemma EmptyPoolInv(t: State, f: Ptr)
    requires Inv(t) && t.factory == Some(f) && t.supervisor.Some? && f in Registered(t.heap, t.supervisor.value)
    requires f in t.heap && t.heap[f].ServiceFactory?
    ensures Inv(t.(heap := (t.heap - Elements(Pool(t.heap[f])))[f := ServiceFactory([])]))
  {
    EmptyOnHeap(t.heap, t.supervisor.value, f, (t.heap - Elements(Pool(t.heap[f])))[f := ServiceFactory([])]);
  }

  lemma EmptyOnHeap(heap: Heap, sup: Ptr, f: Ptr, heap': Heap)
    requires sup in heap && heap[sup].Supervisor? && Conserved(heap, sup, Registered(heap, sup)) && Kinds(heap, sup)
    requires f in Registered(heap, sup) && f in heap && heap[f].ServiceFactory?
    requires heap' == (heap - Elements(Pool(heap[f])))[f := ServiceFactory([])]
    ensures sup in heap' && heap'[sup] == heap[sup]
    ensures Conserved(heap', sup, Registered(heap, sup)) && Kinds(heap', sup)
  {
    PoolLeavesOwners(heap, sup, f);
    assert heap'.Keys == heap.Keys - Elements(Pool(heap[f]));
    ConservedClean(heap, sup, Registered(heap, sup), f, heap');
    assert sup in heap'.Keys;
    EmptyKinds(heap, sup, f, heap');
  }

  /** Neither the supervisor nor any registered factory is in a pool. */
  lemma PoolLeavesOwners(heap: Heap, sup: Ptr, f: Ptr)
    requires sup in heap && heap[sup].Supervisor? && Conserved(heap, sup, Registered(heap, sup))
    requires f in Registered(heap, sup)
    ensures f in heap && f != sup && sup !in Pool(heap[f])
    ensures forall g :: g in Registered(heap, sup) ==> g in heap && g !in Pool(heap[f])
  {
    assert forall p :: p in Pool(heap[f]) ==> p in OwnedBy(heap, Registered(heap, sup));
  }

  lemma EmptyKinds(heap: Heap, sup: Ptr, f: Ptr, heap': Heap)
    requires sup in heap && heap[sup].Supervisor? && Kinds(heap, sup)
    requires f in heap && f != sup && heap[f].ServiceFactory? && sup !in Pool(heap[f])
    requires forall g :: g in Registered(heap, sup) ==> g in heap && g !in Pool(heap[f])
    requires heap' == (heap - Elements(Pool(heap[f])))[f := ServiceFactory([])]
    ensures sup in heap' && heap'[sup] == heap[sup] && Kinds(heap', sup)
  {
    KindsKept(heap, sup, heap');
  }

  /** What cleaning the contexts relies on, and where it leads. */
  lemma ContextsCanGo(s: State)
    requires Inv(s) && Shape(s)
    ensures var t := WithServiceFactory(s);
      && t.factory.Some? && Cleanable(t.heap, t.factory.value) && t.heap[t.factory.value].ServiceFactory?
    ensures Inv(WithoutContexts(s)) && Shape(WithoutContexts(s))
  {
    WithServiceFactoryInv(s);
    WithoutContextsInv(s);
    InvHasShape(WithServiceFactory(s));
    InvHasShape(WithoutContexts(s));
  }

  /** FacSupervisor::cleanBomLayer(). */
  ghost function WithoutBoms(s: State): State
    requires Shape(s)
  {
    var t := WithSupervisor(s);
    var sup := t.supervisor.value;
    t.(heap := (t.heap - OwnedBy(t.heap, t.heap[sup].bomPool))[sup := t.heap[sup].(bomPool := [])])
  }

  /** FacSupervisor::cleanServiceLayer(). */
  ghost function WithoutServices(s: State): State
    requires Shape(s)
  {
    var t := WithSupervisor(s);
    var sup := t.supervisor.value;
    t.(heap := (t.heap - OwnedBy(t.heap, t.heap[sup].svcPool))[sup := t.heap[sup].(svcPool := [])], factory := None)
  }

  lemma WithoutBomsInv(s: State)
    requires Inv(s) && Shape(s)
    ensures Inv(WithoutBoms(s)) && Grows(s, WithoutBoms(s))
  {
    WithSupervisorInv(s);
    var t := WithSupervisor(s);
    var sup := t.supervisor.value;
    LayersAreDisjoint(t, sup);
    LayerLeaves(t.heap, sup, t.heap[sup].svcPool, t.heap[sup].bomPool, WithoutBoms(s).heap);
  }

  lemma WithoutServicesInv(s: State)
    requires Inv(s) && Shape(s)
    ensures Inv(WithoutServices(s)) && Grows(s, WithoutServices(s))
  {
    WithSupervisorInv(s);
    var t := WithSupervisor(s);
    var sup := t.supervisor.value;
    LayersAreDisjoint(t, sup);
    LayerLeaves(t.heap, sup, t.heap[sup].bomPool, t.heap[sup].svcPool, WithoutServices(s).heap);
  }

  /** One layer leaves with everything it owns, and the other layer is all that stays registered. */
  lemma LayerLeaves(heap: Heap, sup: Ptr, keep: seq<Ptr>, gone: seq<Ptr>, heap': Heap)
    requires sup in heap && heap[sup].Supervisor? && Kinds(heap, sup) && WellOwned(heap, keep)
    requires heap.Keys == {sup} + OwnedBy(heap, keep) + OwnedBy(heap, gone)
    requires OwnedBy(heap, keep) !! OwnedBy(heap, gone)
    requires sup !in OwnedBy(heap, keep) && sup !in OwnedBy(heap, gone)
    requires sup in heap' && heap'[sup].Supervisor?
    requires || (keep == heap[sup].svcPool && gone == heap[sup].bomPool && heap'[sup] == Supervisor([], keep))
             || (keep == heap[sup].bomPool && gone == heap[sup].svcPool && heap'[sup] == Supervisor(keep, []))
    requires heap'.Keys == heap.Keys - OwnedBy(heap, gone)
    requires forall p :: p in heap' && p != sup ==> heap'[p] == heap[p]
    ensures Conserved(heap', sup, Registered(heap', sup)) && Kinds(heap', sup)
  {
    assert Registered(heap', sup) == keep;
    ConservedRemoval(heap, sup, keep, gone, heap');
    FactoriesAreOwned(heap, keep);
    FactoriesAreOwned(heap, gone);
    LayerKinds(heap, sup, keep, gone, heap');
  }

  lemma LayerKinds(heap: Heap, sup: Ptr, keep: seq<Ptr>, gone: seq<Ptr>, heap': Heap)
    requires sup in heap && heap[sup].Supervisor? && Kinds(heap, sup) && sup in heap' && heap'[sup].Supervisor?
    requires || (keep == heap[sup].svcPool && gone == heap[sup].bomPool && heap'[sup] == Supervisor([], keep))
             || (keep == heap[sup].bomPool && gone == heap[sup].svcPool && heap'[sup] == Supervisor(keep, []))
    requires forall f :: f in keep ==> f in heap' && f != sup
    requires forall f :: f in gone ==> f !in heap' && f != sup
    requires forall p :: p in heap' ==> p in heap && (p != sup ==> heap'[p] == heap[p])
    ensures Kinds(heap', sup)
  {
    assert Registered(heap', sup) == keep;
    assert forall f :: f in Registered(heap, sup) <==> f in keep || f in gone;
  }

  /** What cleaning the BOM layer relies on, and where it leads. */
  lemma BomLayerCanGo(s: State, sup: Ptr)
    requires Inv(s) && Shape(s) && s.supervisor == Some(sup)
    ensures var pool := s.heap[sup].bomPool;
      && Removable(s.heap, pool) && sup !in OwnedBy(s.heap, pool)
      && (forall f :: f in pool ==> s.heap[f].BomFactory?)
      && WithoutBoms(s) == s.(heap := (s.heap - OwnedBy(s.heap, pool))[sup := s.heap[sup].(bomPool := [])])
    ensures Inv(WithoutBoms(s)) && Shape(WithoutBoms(s))
  {
    WithoutBomsInv(s);
    LayersAreDisjoint(s, sup);
    WellOwnedIsRemovable(s.heap, s.heap[sup].bomPool);
    InvHasShape(WithoutBoms(s));
  }

  lemma ServiceLayerCanGo(s: State, sup: Ptr)
    requires Inv(s) && Shape(s) && s.supervisor == Some(sup)
    ensures var pool := s.heap[sup].svcPool;
      && Removable(s.heap, pool) && sup !in OwnedBy(s.heap, pool)
      && (forall f :: f in pool ==> s.heap[f].ServiceFactory?)
      && (pool == [] ==> s.factory == None)
      && WithoutServices(s) == s.(heap := (s.heap - OwnedBy(s.heap, pool))[sup := s.heap[sup].(svcPool := [])],
                                  factory := None)
    ensures Inv(WithoutServices(s)) && Shape(WithoutServices(s))
  {
    WithoutServicesInv(s);
    LayersAreDisjoint(s, sup);
    WellOwnedIsRemovable(s.heap, s.heap[sup].svcPool);
    InvHasShape(WithoutServices(s));
  }

  /** What cleaning a layer deletes, in order. */
  function BomTeardown(heap: Heap, sup: Ptr): seq<Ptr>
    requires sup in heap && heap[sup].Supervisor? && forall f :: f in heap[sup].bomPool ==> f in heap
  {
    Teardown(heap, heap[sup].bomPool, |heap[sup].bomPool|)
  }

  function ServiceTeardown(heap: Heap, sup: Ptr): seq<Ptr>
    requires sup in heap && heap[sup].Supervisor? && forall f :: f in heap[sup].svcPool ==> f in heap
  {
    Teardown(heap, heap[sup].svcPool, |heap[sup].svcPool|)
  }

  /** Once the BOM layer is gone, the service layer is as it was, and then nothing is left. */
  lemma BothLayersCanGo(s: State, sup: Ptr)
    requires Inv(s) && Shape(s) && s.supervisor == Some(sup)
    ensures Inv(WithoutBoms(s)) && Shape(WithoutBoms(s))
    ensures var t, services := WithoutBoms(s), s.heap[sup].svcPool;
      && t.heap[sup] == Supervisor([], services)
      && (forall f :: f in services ==> f in s.heap && f in t.heap)
      && ServiceTeardown(t.heap, sup) == ServiceTeardown(s.heap, sup)
    ensures var r := WithoutServices(WithoutBoms(s));
      r.heap.Keys == {sup} && r.heap[sup] == Supervisor([], []) && r.factory == None
  {
    BomLayerCanGo(s, sup);
    LayersAreDisjoint(s, sup);
    FactoriesAreOwned(s.heap, s.heap[sup].svcPool);
    var t, services := WithoutBoms(s), s.heap[sup].svcPool;
    TeardownFrame(s.heap, t.heap, services, |services|);
    ServiceLayerCanGo(t, sup);
    NothingLeft(WithoutServices(t), sup);
  }

  lemma {:induction false} TeardownFrame(heap: Heap, heap': Heap, fs: seq<Ptr>, n: nat)
    requires n <= |fs| && forall f :: f in fs ==> f in heap && f in heap' && heap'[f] == heap[f]
    ensures Teardown(heap', fs, n) == Teardown(heap, fs, n)
  {
    if n > 0 {
      TeardownFrame(heap, heap', fs, n - 1);
    }
  }

  lemma NothingToTearDown(heap: Heap, sup: Ptr)
    requires sup in heap && heap[sup] == Supervisor([], [])
    ensures BomTeardown(heap, sup) + ServiceTeardown(heap, sup) == []
  {
  }

  /** FacSupervisor::cleanFactory(): everything is freed and both instance pointers are null. */
  function Cleaned(s: State): State {
    State(map[], s.next, None, None)
  }

  lemma CleanedInv(s: State)
    ensures Inv(Cleaned(s)) && Shape(Cleaned(s)) && Grows(s, Cleaned(s))
  {
  }

  /** With both layers clean, the supervisor is the only live object. */
  lemma NothingLeft(s: State, sup: Ptr)
    requires Inv(s) && s.supervisor == Some(sup) && sup in s.heap && s.heap[sup] == Supervisor([], [])
    ensures s.heap.Keys == {sup}
  {
    assert OwnedBy(s.heap, Registered(s.heap, sup)) == {};
  }
}
