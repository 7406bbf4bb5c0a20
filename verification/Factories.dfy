/** The factory layer of SimCRS: the supervisor, the service context factory and the BOM
    factories, as code that allocates, pools and deletes objects. */
module Factories {
  import opened Lifetime
  import opened Operations
  import opened Options
  import opened Sequences
  import opened ServiceContexts

  /** One process: its heap and the static instance pointers of the two singletons. */
  class Process {
    var heap: Heap
    var next: Ptr
    var supervisor: Option<Ptr>
    var factory: Option<Ptr>

    /** Every address that was ever passed to `delete`, in order. */
    ghost var deletions: seq<Ptr>

    function View(): State
      reads this
    {
      State(heap, next, supervisor, factory)
    }

    ghost predicate Accounted()
      reads this
    {
      Ledger(heap, next, deletions)
    }

    ghost predicate Valid()
      reads this
    {
      Inv(View()) && Shape(View()) && Accounted()
    }

    constructor ()
      ensures Valid() && View() == START && deletions == []
    {
      heap, next, supervisor, factory, deletions := map[], 0, None, None, [];
    }

    method New(o: Object) returns (p: Ptr)
      requires Accounted()
      modifies this`heap, this`next
      ensures p == old(next) && next == p + 1 && heap == old(heap)[p := o]
      ensures Accounted()
    {
      LedgerNew(heap, next, deletions, o);
      p := next;
      heap := heap[p := o];
      next := next + 1;
    }

    /** `delete`: freeing what is not live is not allowed. */
    method Delete(p: Ptr)
      requires Accounted() && p in heap
      modifies this`heap, this`deletions
      ensures heap == old(heap) - {p} && deletions == old(deletions) + [p]
      ensures Accounted()
    {
      LedgerDelete(heap, next, deletions, p);
      heap := heap - {p};
      deletions := deletions + [p];
    }

    /** Overwriting a live object. */
    method Write(p: Ptr, o: Object)
      requires Accounted() && p in heap
      modifies this`heap
      ensures heap == old(heap)[p := o]
      ensures Accounted()
    {
      LedgerWrite(heap, next, deletions, p, o);
      heap := heap[p := o];
    }

    // ---------- Singletons ----------

    method SupervisorInstance() returns (p: Ptr)
      requires Accounted()
      modifies this`heap, this`next, this`supervisor
      ensures Accounted() && View() == WithSupervisor(old(View())) && supervisor == Some(p)
    {
      if supervisor.None? {
        var created := New(Supervisor([], []));
        supervisor := Some(created);
      }
      p := supervisor.value;
    }

    method RegisterServiceFactory(sup: Ptr, f: Ptr)
      requires Accounted() && sup in heap && heap[sup].Supervisor?
      modifies this`heap
      ensures heap == old(heap)[sup := old(heap)[sup].(svcPool := old(heap)[sup].svcPool + [f])]
      ensures Accounted()
    {
      Write(sup, heap[sup].(svcPool := heap[sup].svcPool + [f]));
    }

    method RegisterBomFactory(sup: Ptr, f: Ptr)
      requires Accounted() && sup in heap && heap[sup].Supervisor?
      modifies this`heap
      ensures heap == old(heap)[sup := old(heap)[sup].(bomPool := old(heap)[sup].bomPool + [f])]
      ensures Accounted()
    {
      Write(sup, heap[sup].(bomPool := heap[sup].bomPool + [f]));
    }

    method FactoryInstance() returns (f: Ptr)
      requires Accounted() && Shape(View())
      modifies this`heap, this`next, this`supervisor, this`factory
      ensures Accounted() && View() == WithServiceFactory(old(View())) && factory == Some(f)
    {
      if factory.None? {
        var created := New(ServiceFactory([]));
        factory := Some(created);
        var sup := SupervisorInstance();
        RegisterServiceFactory(sup, created);
      }
      f := factory.value;
    }

    // ---------- Pools ----------

    /** Allocate an object and push it onto a factory's pool. */
    method PushNew(f: Ptr, o: Object) returns (p: Ptr)
      requires Accounted() && f in heap && (heap[f].BomFactory? || heap[f].ServiceFactory?)
      modifies this`heap, this`next
      ensures Accounted() && View() == Pushed(old(View()), f, o) && p == old(next)
    {
      assert Used(f, next);
      p := New(o);
      Write(f, WithPool(heap[f], Pool(heap[f]) + [p]));
    }

    method CreateContext(crsCode: string) returns (p: Ptr)
      requires Valid()
      modifies this`heap, this`next, this`supervisor, this`factory
      ensures Valid() && View() == WithContext(old(View()), crsCode)
      ensures p in heap && heap[p] == Context(NewContext(crsCode)) && p !in old(heap)
    {
      WithContextInv(View(), crsCode);
      WithServiceFactoryInv(View());
      var f := FactoryInstance();
      p := PushNew(f, Context(NewContext(crsCode)));
      InvHasShape(View());
    }

    method RegisterNewBomFactory() returns (f: Ptr)
      requires Valid()
      modifies this`heap, this`next, this`supervisor
      ensures Valid() && View() == WithBomFactory(old(View()))
    {
      WithBomFactoryInv(View());
      f := New(BomFactory([]));
      var sup := SupervisorInstance();
      RegisterBomFactory(sup, f);
      InvHasShape(View());
    }

    method CreateBom(f: Ptr) returns (p: Ptr)
      requires Valid() && IsBomFactory(View(), f)
      modifies this`heap, this`next
      ensures Valid() && View() == WithBom(old(View()), f)
    {
      WithBomInv(View(), f);
      p := PushNew(f, Bom);
      InvHasShape(View());
    }

    /** A service stores into its context. */
    method Store(p: Ptr, content: ServiceContext)
      requires Accounted() && p in heap && heap[p].Context?
      modifies this`heap
      ensures Accounted() && View() == WithStored(old(View()), p, content)
      ensures old(Valid()) ==> Valid()
    {
      if Inv(View()) {
        WithStoredInv(View(), p, content);
        InvHasShape(WithStored(View(), p, content));
      }
      Write(p, Context(content));
    }

    // ---------- Cleaning one factory ----------

    ghost predicate CanClean(f: Ptr)
      reads this
    {
      Accounted() && Cleanable(heap, f)
    }

    method DeleteAll(pool: seq<Ptr>)
      requires Accounted() && Distinct(pool) && forall p :: p in pool ==> p in heap
      modifies this`heap, this`deletions
      ensures heap == old(heap) - Elements(pool) && deletions == old(deletions) + pool
      ensures Accounted()
    {
      for i := 0 to |pool|
        invariant Accounted()
        invariant heap == old(heap) - Elements(pool[..i]) && deletions == old(deletions) + pool[..i]
      {
        assert pool[i] !in pool[..i];
        Delete(pool[i]);
        assert pool[..i + 1] == pool[..i] + [pool[i]];
        assert Elements(pool[..i + 1]) == Elements(pool[..i]) + {pool[i]};
      }
      assert pool[..|pool|] == pool;
    }

    method CleanServiceFactory(f: Ptr)
      requires CanClean(f) && heap[f].ServiceFactory?
      modifies this`heap, this`deletions
      ensures heap == (old(heap) - Elements(Pool(old(heap)[f])))[f := ServiceFactory([])]
      ensures Accounted() && deletions == old(deletions) + Pool(old(heap)[f])
    {
      DeleteAll(heap[f].contexts);
      Write(f, ServiceFactory([]));
    }

    method CleanBomFactory(f: Ptr)
      requires CanClean(f) && heap[f].BomFactory?
      modifies this`heap, this`deletions
      ensures heap == (old(heap) - Elements(Pool(old(heap)[f])))[f := BomFactory([])]
      ensures Accounted() && deletions == old(deletions) + Pool(old(heap)[f])
    {
      DeleteAll(heap[f].boms);
      Write(f, BomFactory([]));
    }

    /** `delete` on a service factory: the derived destructor resets the instance pointer, the
        base destructor cleans the pool, and then the memory goes. */
    method DestroyServiceFactory(f: Ptr)
      requires CanClean(f) && heap[f].ServiceFactory?
      modifies this`heap, this`factory, this`deletions
      ensures heap == old(heap) - ({f} + Elements(Pool(old(heap)[f]))) && factory == None
      ensures Accounted() && deletions == old(deletions) + Pool(old(heap)[f]) + [f]
    {
      factory := None;
      CleanServiceFactory(f);
      Delete(f);
    }

    method DestroyBomFactory(f: Ptr)
      requires CanClean(f) && heap[f].BomFactory?
      modifies this`heap, this`deletions
      ensures heap == old(heap) - ({f} + Elements(Pool(old(heap)[f])))
      ensures Accounted() && deletions == old(deletions) + Pool(old(heap)[f]) + [f]
    {
      CleanBomFactory(f);
      Delete(f);
    }

    method CleanContexts()
      requires Valid()
      modifies this
      ensures Valid() && View() == WithoutContexts(old(View()))
      ensures deletions == old(deletions) + Pool(WithServiceFactory(old(View())).heap[factory.value])
    {
      ContextsCanGo(View());
      var f := FactoryInstance();
      CleanServiceFactory(f);
    }

    // ---------- Cleaning the layers ----------

    method DestroyBomFactoryAt(pool: seq<Ptr>, i: nat, ghost start: Heap, ghost before: seq<Ptr>)
      requires Accounted() && Removable(start, pool) && i < |pool| && start[pool[i]].BomFactory?
      requires Torn(start, before, pool, i, heap, deletions)
      modifies this`heap, this`deletions
      ensures Accounted() && Torn(start, before, pool, i + 1, heap, deletions)
    {
      TornIsCleanable(start, before, pool, i, heap, deletions);
      TornStep(start, before, pool, i, heap, deletions);
      DestroyBomFactory(pool[i]);
    }

    method DestroyBomFactories(pool: seq<Ptr>)
      requires Accounted() && Removable(heap, pool) && forall f :: f in pool ==> heap[f].BomFactory?
      modifies this`heap, this`deletions
      ensures Accounted() && Torn(old(heap), old(deletions), pool, |pool|, heap, deletions)
    {
      TornStart(heap, deletions, pool);
      for i := 0 to |pool|
        invariant Accounted() && Torn(old(heap), old(deletions), pool, i, heap, deletions)
      {
        DestroyBomFactoryAt(pool, i, old(heap), old(deletions));
      }
    }

    method DestroyServiceFactoryAt(pool: seq<Ptr>, i: nat, ghost start: Heap, ghost before: seq<Ptr>)
      requires Accounted() && Removable(start, pool) && i < |pool| && start[pool[i]].ServiceFactory?
      requires Torn(start, before, pool, i, heap, deletions)
      modifies this`heap, this`factory, this`deletions
      ensures Accounted() && Torn(start, before, pool, i + 1, heap, deletions) && factory == None
    {
      TornIsCleanable(start, before, pool, i, heap, deletions);
      TornStep(start, before, pool, i, heap, deletions);
      DestroyServiceFactory(pool[i]);
    }

    method DestroyServiceFactories(pool: seq<Ptr>)
      requires Accounted() && Removable(heap, pool) && forall f :: f in pool ==> heap[f].ServiceFactory?
      modifies this`heap, this`factory, this`deletions
      ensures Accounted() && Torn(old(heap), old(deletions), pool, |pool|, heap, deletions)
      ensures factory == if pool == [] then old(factory) else None
    {
      TornStart(heap, deletions, pool);
      for i := 0 to |pool|
        invariant Accounted() && Torn(old(heap), old(deletions), pool, i, heap, deletions)
        invariant factory == if i == 0 then old(factory) else None
      {
        DestroyServiceFactoryAt(pool, i, old(heap), old(deletions));
      }
    }

    method EmptyBomLayer(sup: Ptr)
      requires Accounted() && sup in heap && heap[sup].Supervisor? && Removable(heap, heap[sup].bomPool)
      requires sup !in OwnedBy(heap, heap[sup].bomPool)
      requires forall f :: f in heap[sup].bomPool ==> heap[f].BomFactory?
      modifies this`heap, this`deletions
      ensures var pool := old(heap)[sup].bomPool;
        && heap == (old(heap) - OwnedBy(old(heap), pool))[sup := old(heap)[sup].(bomPool := [])]
        && deletions == old(deletions) + Teardown(old(heap), pool, |pool|)
      ensures Accounted()
    {
      ghost var pool := heap[sup].bomPool;
      DestroyBomFactories(heap[sup].bomPool);
      assert pool[..|pool|] == pool;
      Write(sup, heap[sup].(bomPool := []));
    }

    method EmptyServiceLayer(sup: Ptr)
      requires Accounted() && sup in heap && heap[sup].Supervisor? && Removable(heap, heap[sup].svcPool)
      requires sup !in OwnedBy(heap, heap[sup].svcPool)
      requires forall f :: f in heap[sup].svcPool ==> heap[f].ServiceFactory?
      modifies this`heap, this`factory, this`deletions
      ensures var pool := old(heap)[sup].svcPool;
        && heap == (old(heap) - OwnedBy(old(heap), pool))[sup := old(heap)[sup].(svcPool := [])]
        && deletions == old(deletions) + Teardown(old(heap), pool, |pool|)
        && factory == (if pool == [] then old(factory) else None)
      ensures Accounted()
    {
      ghost var pool := heap[sup].svcPool;
      DestroyServiceFactories(heap[sup].svcPool);
      assert pool[..|pool|] == pool;
      Write(sup, heap[sup].(svcPool := []));
    }

    method CleanBomLayer(sup: Ptr)
      requires Valid() && supervisor == Some(sup)
      modifies this`heap, this`deletions
      ensures Valid() && View() == WithoutBoms(old(View()))
      ensures deletions == old(deletions) + BomTeardown(old(heap), sup)
    {
      BomLayerCanGo(View(), sup);
      EmptyBomLayer(sup);
    }

    method CleanServiceLayer(sup: Ptr)
      requires Valid() && supervisor == Some(sup)
      modifies this`heap, this`factory, this`deletions
      ensures Valid() && View() == WithoutServices(old(View()))
      ensures deletions == old(deletions) + ServiceTeardown(old(heap), sup)
    {
      ServiceLayerCanGo(View(), sup);
      EmptyServiceLayer(sup);
    }

    /** The BOM layer first, then the service layer: everything but the supervisor goes, the
        objects of each pool before their factory. */
    method CleanLayers(sup: Ptr)
      requires Valid() && supervisor == Some(sup)
      modifies this`heap, this`factory, this`deletions
      ensures Valid() && heap.Keys == {sup} && heap[sup] == Supervisor([], []) && factory == None
      ensures deletions == old(deletions) + BomTeardown(old(heap), sup) + ServiceTeardown(old(heap), sup)
    {
      BothLayersCanGo(View(), sup);
      CleanBomLayer(sup);
      CleanServiceLayer(sup);
    }

    /** `delete` on the supervisor: the destructor cleans both layers, then the memory goes. */
    method DestroySupervisor(sup: Ptr)
      requires Valid() && supervisor == Some(sup)
      modifies this`heap, this`factory, this`deletions
      ensures Accounted() && heap == map[] && factory == None
      ensures deletions == old(deletions) + BomTeardown(old(heap), sup) + ServiceTeardown(old(heap), sup) + [sup]
    {
      CleanLayers(sup);
      Delete(sup);
    }

    /** Both layers are cleaned explicitly, and then once more by the destructor: the second
        cleaning finds empty pools, so everything is deleted once. */
    method CleanFactory()
      requires Valid()
      modifies this
      ensures Valid() && View() == Cleaned(old(View()))
      ensures old(supervisor).None? ==> deletions == old(deletions)
      ensures old(supervisor).Some? ==>
        var sup := old(supervisor).value;
        deletions == old(deletions) + BomTeardown(old(heap), sup) + ServiceTeardown(old(heap), sup) + [sup]
    {
      if supervisor.Some? {
        CleanLayers(supervisor.value);
      }
      if supervisor.Some? {
        NothingToTearDown(heap, supervisor.value);
        DestroySupervisor(supervisor.value);
      }
      supervisor := None;
      CleanedInv(old(View()));
    }
  }
}
