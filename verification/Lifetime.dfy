/** Lifetime of factories and of the objects they pool, on an explicit heap: `delete` demands a
    live object, so deleting twice and reading freed memory are proof obligations. */
module Lifetime {
  import opened Options
  import opened Sequences
  import opened ServiceContexts

  type Ptr = nat

  datatype Object =
    | Supervisor(bomPool: seq<Ptr>, svcPool: seq<Ptr>)
    | BomFactory(boms: seq<Ptr>)
    | ServiceFactory(contexts: seq<Ptr>)
    | Bom
    | Context(content: ServiceContext)

  type Heap = map<Ptr, Object>

  /** The live objects, the next unused address, and the two static instance pointers.  The
      objects freed so far are the addresses below `next` that are not live. */
  datatype State = State(heap: Heap, next: Ptr, supervisor: Option<Ptr>, factory: Option<Ptr>)

  const START := State(map[], 0, None, None)

  // ---------- Ownership ----------

  function Pool(o: Object): seq<Ptr> {
    match o
    case BomFactory(boms) => boms
    case ServiceFactory(contexts) => contexts
    case _ => []
  }

  /** The objects that factories create. */
  predicate IsLeaf(o: Object) {
    o.Bom? || o.Context?
  }

  ghost function Elements(ps: seq<Ptr>): set<Ptr> {
    set p | p in ps
  }

  /** The factories `fs` and everything in their pools. */
  ghost function OwnedBy(heap: Heap, fs: seq<Ptr>): set<Ptr> {
    Elements(fs) + set f, p | f in fs && f in heap && p in Pool(heap[f]) :: p
  }

  /** Factories, and pools that hold live objects, each object once and in one pool only. */
  ghost predicate WellOwned(heap: Heap, fs: seq<Ptr>) {
    && Distinct(fs)
    && (forall f :: f in fs ==> f in heap)
    && (forall f :: f in fs ==> Distinct(Pool(heap[f])))
    && (forall f, p :: f in fs && p in Pool(heap[f]) ==> p in heap && p !in fs)
    && (forall f, g, p :: f in fs && g in fs && p in Pool(heap[f]) && p in Pool(heap[g]) ==> f == g)
  }

  /** The live objects other than the supervisor are exactly the owned ones. */
  ghost predicate Conserved(heap: Heap, sup: Ptr, fs: seq<Ptr>) {
    && WellOwned(heap, fs)
    && sup !in OwnedBy(heap, fs)
    && heap.Keys == {sup} + OwnedBy(heap, fs)
  }

  /** Every live object is the supervisor or owned by exactly one registered factory, and the
      service factory instance is registered exactly once whenever it is not null. */
  ghost predicate Inv(s: State) {
    && (forall p :: p in s.heap ==> p < s.next)
    && (s.supervisor.None? ==> s.heap == map[] && s.factory.None?)
    && (s.supervisor.Some? ==>
          var sup := s.supervisor.value;
          && sup in s.heap && s.heap[sup].Supervisor?
          && s.heap[sup].svcPool == (if s.factory.Some? then [s.factory.value] else [])
          && Conserved(s.heap, sup, Registered(s.heap, sup))
          && Kinds(s.heap, sup))
  }

  /** Registered factories are factories of their layer, and everything else is a created object. */
  ghost predicate Kinds(heap: Heap, sup: Ptr)
    requires sup in heap && heap[sup].Supervisor?
  {
    && (forall f :: f in heap[sup].bomPool ==> f in heap && heap[f].BomFactory?)
    && (forall f :: f in heap[sup].svcPool ==> f in heap && heap[f].ServiceFactory?)
    && (forall p :: p in heap && p != sup && p !in Registered(heap, sup) ==> IsLeaf(heap[p]))
  }

  ghost function Registered(heap: Heap, sup: Ptr): seq<Ptr>
    requires sup in heap && heap[sup].Supervisor?
  {
    heap[sup].bomPool + heap[sup].svcPool
  }

  lemma OwnedConcat(heap: Heap, a: seq<Ptr>, b: seq<Ptr>)
    ensures OwnedBy(heap, a + b) == OwnedBy(heap, a) + OwnedBy(heap, b)
  {
  }

  /** Different factories own different things. */
  lemma WellOwnedSplits(heap: Heap, a: seq<Ptr>, b: seq<Ptr>)
    requires WellOwned(heap, a + b)
    ensures WellOwned(heap, a) && WellOwned(heap, b)
    ensures OwnedBy(heap, a) !! OwnedBy(heap, b)
  {
    assert forall f :: f in a ==> f in a + b;
    assert forall f :: f in b ==> f in a + b;
    forall f, g | f in a && g in b
      ensures f != g
    {
      var i :| 0 <= i < |a| && a[i] == f;
      var j :| 0 <= j < |b| && b[j] == g;
      assert (a + b)[i] == f && (a + b)[|a| + j] == g;
    }
    forall i, j | 0 <= i < j < |a|
      ensures a[i] != a[j]
    {
      assert (a + b)[i] == a[i] && (a + b)[j] == a[j];
    }
    forall i, j | 0 <= i < j < |b|
      ensures b[i] != b[j]
    {
      assert (a + b)[|a| + i] == b[i] && (a + b)[|a| + j] == b[j];
    }
  }

  /** Ownership depends only on what is owned. */
  lemma OwnershipFrame(heap: Heap, heap': Heap, fs: seq<Ptr>)
    requires WellOwned(heap, fs)
    requires forall p :: p in OwnedBy(heap, fs) ==> p in heap' && Pool(heap'[p]) == Pool(heap[p])
    ensures WellOwned(heap', fs) && OwnedBy(heap', fs) == OwnedBy(heap, fs)
  {
    forall f, p | f in fs && f in heap && p in Pool(heap[f])
      ensures p in OwnedBy(heap, fs)
    {
    }
    assert forall f :: f in fs ==> f in OwnedBy(heap, fs);
  }

  lemma DistinctInsert(a: seq<Ptr>, f: Ptr, b: seq<Ptr>)
    requires Distinct(a + b) && f !in a + b
    ensures Distinct(a + [f] + b)
    ensures forall g :: g in a + [f] + b <==> g in a + b || g == f
  {
    var before, after := a + b, a + [f] + b;
    forall i, j | 0 <= i < j < |after|
      ensures after[i] != after[j]
    {
      var i' := if i < |a| then i else i - 1;
      var j' := if j < |a| then j else j - 1;
      if i != |a| { assert after[i] == before[i'] && before[i'] in before; }
      if j != |a| { assert after[j] == before[j'] && before[j'] in before; }
    }
  }

  /** Registering a new factory with an empty pool. */
  lemma AddFactory(heap: Heap, a: seq<Ptr>, f: Ptr, b: seq<Ptr>)
    requires WellOwned(heap, a + b) && f in heap && Pool(heap[f]) == [] && f !in OwnedBy(heap, a + b)
    ensures WellOwned(heap, a + [f] + b) && OwnedBy(heap, a + [f] + b) == OwnedBy(heap, a + b) + {f}
  {
    DistinctInsert(a, f, b);
    AddFactoryTo(heap, a + b, f, a + [f] + b);
  }

  lemma AddFactoryTo(heap: Heap, before: seq<Ptr>, f: Ptr, after: seq<Ptr>)
    requires WellOwned(heap, before) && f in heap && Pool(heap[f]) == [] && f !in OwnedBy(heap, before)
    requires Distinct(after) && forall g :: g in after <==> g in before || g == f
    ensures WellOwned(heap, after) && OwnedBy(heap, after) == OwnedBy(heap, before) + {f}
  {
    forall g, p | g in after && p in Pool(heap[g])
      ensures p in heap && p !in after
    {
      assert g in before && p in OwnedBy(heap, before);
    }
  }

  lemma DistinctPush(pool: seq<Ptr>, p: Ptr)
    requires Distinct(pool) && p !in pool
    ensures Distinct(pool + [p]) && forall x :: x in pool + [p] <==> x in pool || x == p
  {
  }

  /** Putting a new object into the pool of a registered factory. */
  lemma AddToPool(heap: Heap, fs: seq<Ptr>, f: Ptr, p: Ptr, heap': Heap)
    requires WellOwned(heap, fs) && f in fs && p !in heap && p in heap'
    requires f in heap' && Pool(heap'[f]) == Pool(heap[f]) + [p]
    requires forall q :: q in heap && q != f ==> q in heap' && heap'[q] == heap[q]
    ensures WellOwned(heap', fs) && OwnedBy(heap', fs) == OwnedBy(heap, fs) + {p}
  {
    assert p !in fs && p !in Pool(heap[f]);
    DistinctPush(Pool(heap[f]), p);
    PushKeepsWellOwned(heap, fs, f, p, heap');
    PushOwns(heap, fs, f, p, heap');
  }

  lemma PushKeepsWellOwned(heap: Heap, fs: seq<Ptr>, f: Ptr, p: Ptr, heap': Heap)
    requires WellOwned(heap, fs) && f in fs && p !in heap && p in heap' && f in heap'
    requires Distinct(Pool(heap'[f])) && forall x :: x in Pool(heap'[f]) <==> x in Pool(heap[f]) || x == p
    requires forall q :: q in heap && q != f ==> q in heap' && heap'[q] == heap[q]
    ensures WellOwned(heap', fs)
  {
    forall g, x | g in fs && x in Pool(heap'[g])
      ensures x in heap' && x !in fs
    {
      assert x in Pool(heap[g]) || x == p;
    }
    forall g, h, x | g in fs && h in fs && x in Pool(heap'[g]) && x in Pool(heap'[h])
      ensures g == h
    {
      if x == p {
        assert g == f && h == f;
      } else {
        assert x in Pool(heap[g]) && x in Pool(heap[h]);
      }
    }
  }

  lemma PushOwns(heap: Heap, fs: seq<Ptr>, f: Ptr, p: Ptr, heap': Heap)
    requires WellOwned(heap, fs) && f in fs && f in heap'
    requires forall x :: x in Pool(heap'[f]) <==> x in Pool(heap[f]) || x == p
    requires forall g :: g in fs && g != f ==> g in heap' && heap'[g] == heap[g]
    ensures OwnedBy(heap', fs) == OwnedBy(heap, fs) + {p}
  {
    assert p in Pool(heap'[f]);
  }

  predicate SameKind(o: Object, o': Object) {
    && (o.BomFactory? <==> o'.BomFactory?)
    && (o.ServiceFactory? <==> o'.ServiceFactory?)
    && (IsLeaf(o) <==> IsLeaf(o'))
  }

  /** Objects change their content, not their kind; new ones are created objects. */
  lemma KindsKept(heap: Heap, sup: Ptr, heap': Heap)
    requires sup in heap && heap[sup].Supervisor? && Kinds(heap, sup)
    requires sup in heap' && heap'[sup] == heap[sup]
    requires forall f :: f in Registered(heap, sup) ==> f in heap'
    requires forall p :: p in heap' ==> if p in heap then SameKind(heap[p], heap'[p]) else IsLeaf(heap'[p])
    ensures Kinds(heap', sup)
  {
    forall f | f in heap[sup].bomPool
      ensures f in heap' && heap'[f].BomFactory?
    {
      assert f in Registered(heap, sup);
    }
    forall f | f in heap[sup].svcPool
      ensures f in heap' && heap'[f].ServiceFactory?
    {
      assert f in Registered(heap, sup);
    }
  }

  // ---------- Deletions ----------

  predicate Used(p: Ptr, next: Ptr) {
    p < next
  }

  /** Every address used so far is either live or has been deleted, and then exactly once. */
  ghost predicate Ledger(heap: Heap, next: Ptr, deletions: seq<Ptr>) {
    && (forall p: Ptr {:trigger Used(p, next)} :: p in heap ==> Used(p, next))
    && forall p: Ptr {:trigger Used(p, next)} ::
         multiset(deletions)[p] == if Used(p, next) && p !in heap then 1 else 0
  }

  lemma LedgerNew(heap: Heap, next: Ptr, deletions: seq<Ptr>, o: Object)
    requires Ledger(heap, next, deletions)
    ensures Ledger(heap[next := o], next + 1, deletions)
  {
    var heap', next' := heap[next := o], next + 1;
    forall p: Ptr {:trigger Used(p, next')}
      ensures p in heap' ==> Used(p, next')
      ensures multiset(deletions)[p] == if Used(p, next') && p !in heap' then 1 else 0
    {
      assert Used(p, next) || p >= next;
    }
  }

  lemma LedgerWrite(heap: Heap, next: Ptr, deletions: seq<Ptr>, p: Ptr, o: Object)
    requires Ledger(heap, next, deletions) && p in heap
    ensures Ledger(heap[p := o], next, deletions)
  {
    forall q: Ptr {:trigger Used(q, next)}
      ensures q in heap[p := o] ==> Used(q, next)
      ensures multiset(deletions)[q] == if Used(q, next) && q !in heap[p := o] then 1 else 0
    {
      assert Used(q, next) || q >= next;
    }
  }

  lemma LedgerDelete(heap: Heap, next: Ptr, deletions: seq<Ptr>, p: Ptr)
    requires Ledger(heap, next, deletions) && p in heap
    ensures Ledger(heap - {p}, next, deletions + [p])
  {
    assert Used(p, next);
  }

  /** The order in which deleting the first `n` factories of `fs` deletes what they own: the
      objects of a pool, then the factory. */
  function Teardown(heap: Heap, fs: seq<Ptr>, n: nat): seq<Ptr>
    requires n <= |fs| && forall f :: f in fs ==> f in heap
  {
    if n == 0 then [] else Teardown(heap, fs, n - 1) + Pool(heap[fs[n - 1]]) + [fs[n - 1]]
  }

  // ---------- What keeps ownership intact ----------

  lemma ConservedAlone(heap: Heap, sup: Ptr, f: Ptr)
    requires heap.Keys == {sup, f} && sup != f && Pool(heap[f]) == []
    ensures Conserved(heap, sup, [f])
  {
    assert OwnedBy(heap, [f]) == {f};
  }

  /** A new factory enters the registered ones. */
  lemma ConservedFactory(heap: Heap, sup: Ptr, a: seq<Ptr>, b: seq<Ptr>, f: Ptr, heap': Heap)
    requires Conserved(heap, sup, a + b) && f !in heap
    requires heap'.Keys == heap.Keys + {f} && Pool(heap'[f]) == []
    requires forall p :: p in heap && p != sup ==> heap'[p] == heap[p]
    ensures Conserved(heap', sup, a + [f] + b)
  {
    OwnershipFrame(heap, heap', a + b);
    AddFactory(heap', a, f, b);
  }

  /** A new object enters the pool of a registered factory. */
  lemma ConservedObject(heap: Heap, sup: Ptr, fs: seq<Ptr>, f: Ptr, p: Ptr, heap': Heap)
    requires Conserved(heap, sup, fs) && f in fs && p !in heap
    requires heap'.Keys == heap.Keys + {p} && Pool(heap'[p]) == [] && Pool(heap'[f]) == Pool(heap[f]) + [p]
    requires forall q :: q in heap && q != f ==> heap'[q] == heap[q]
    ensures Conserved(heap', sup, fs)
  {
    AddToPool(heap, fs, f, p, heap');
  }

  /** Factories and everything they own leave together. */
  lemma ConservedRemoval(heap: Heap, sup: Ptr, keep: seq<Ptr>, gone: seq<Ptr>, heap': Heap)
    requires sup in heap && sup !in OwnedBy(heap, keep) && WellOwned(heap, keep)
    requires heap.Keys == {sup} + OwnedBy(heap, keep) + OwnedBy(heap, gone)
    requires OwnedBy(heap, keep) !! OwnedBy(heap, gone) && sup !in OwnedBy(heap, gone)
    requires heap'.Keys == heap.Keys - OwnedBy(heap, gone)
    requires forall p :: p in heap' && p != sup ==> heap'[p] == heap[p]
    ensures Conserved(heap', sup, keep)
  {
    OwnershipFrame(heap, heap', keep);
  }

  /** A pool is emptied: its objects leave, the factory stays. */
  lemma ConservedClean(heap: Heap, sup: Ptr, fs: seq<Ptr>, f: Ptr, heap': Heap)
    requires Conserved(heap, sup, fs) && f in fs
    requires heap'.Keys == heap.Keys - Elements(Pool(heap[f])) && f in heap' && Pool(heap'[f]) == []
    requires forall p :: p in heap' && p != f ==> heap'[p] == heap[p]
    ensures Conserved(heap', sup, fs)
  {
    forall g | g in fs
      ensures g in heap' && (g != f ==> heap'[g] == heap[g])
    {
      assert g !in Pool(heap[f]);
    }
    CleanKeepsOthers(heap, fs, f, heap');
    CleanedOwns(heap, fs, f, heap');
    assert sup !in Elements(Pool(heap[f])) by {
      assert forall p :: p in Pool(heap[f]) ==> p in OwnedBy(heap, fs);
    }
  }

  lemma CleanKeepsOthers(heap: Heap, fs: seq<Ptr>, f: Ptr, heap': Heap)
    requires WellOwned(heap, fs) && f in fs
    requires heap'.Keys == heap.Keys - Elements(Pool(heap[f])) && f in heap' && Pool(heap'[f]) == []
    requires forall g :: g in fs ==> g in heap' && (g != f ==> heap'[g] == heap[g])
    ensures WellOwned(heap', fs)
  {
    forall g, p | g in fs && p in Pool(heap'[g])
      ensures p in heap' && p !in fs
    {
      assert g != f && p in Pool(heap[g]);
      assert p !in Pool(heap[f]);
    }
  }

  lemma CleanedOwns(heap: Heap, fs: seq<Ptr>, f: Ptr, heap': Heap)
    requires WellOwned(heap, fs) && f in fs
    requires f in heap' && Pool(heap'[f]) == []
    requires forall g :: g in fs ==> g in heap' && (g != f ==> heap'[g] == heap[g])
    ensures OwnedBy(heap', fs) == OwnedBy(heap, fs) - Elements(Pool(heap[f]))
  {
    forall p | p in OwnedBy(heap, fs) && p !in Pool(heap[f])
      ensures p in OwnedBy(heap', fs)
    {
      if p !in fs {
        var g :| g in fs && p in Pool(heap[g]);
        assert p in Pool(heap'[g]);
      }
    }
    forall p | p in OwnedBy(heap', fs)
      ensures p in OwnedBy(heap, fs) && p !in Pool(heap[f])
    {
      if p !in fs {
        var g :| g in fs && p in Pool(heap'[g]);
        assert p in Pool(heap[g]) && g != f;
      }
    }
  }

  function WithPool(factory: Object, pool: seq<Ptr>): Object
    requires factory.BomFactory? || factory.ServiceFactory?
  {
    if factory.BomFactory? then BomFactory(pool) else ServiceFactory(pool)
  }

  lemma PushOnHeap(heap: Heap, sup: Ptr, f: Ptr, p: Ptr, o: Object, heap': Heap)
    requires sup in heap && heap[sup].Supervisor? && Conserved(heap, sup, Registered(heap, sup)) && Kinds(heap, sup)
    requires f in Registered(heap, sup) && p !in heap && IsLeaf(o)
    requires f in heap && (heap[f].BomFactory? || heap[f].ServiceFactory?)
    requires heap' == heap[p := o][f := WithPool(heap[f], Pool(heap[f]) + [p])]
    ensures heap'.Keys == heap.Keys + {p} && heap'[sup] == heap[sup]
    ensures Conserved(heap', sup, Registered(heap, sup)) && Kinds(heap', sup)
  {
    assert f != sup && p != sup;
    ConservedObject(heap, sup, Registered(heap, sup), f, p, heap');
    PushKinds(heap, sup, f, p, o, heap');
  }

  lemma PushKinds(heap: Heap, sup: Ptr, f: Ptr, p: Ptr, o: Object, heap': Heap)
    requires sup in heap && heap[sup].Supervisor? && Kinds(heap, sup) && f != sup && p !in heap && IsLeaf(o)
    requires f in heap && (heap[f].BomFactory? || heap[f].ServiceFactory?)
    requires heap' == heap[p := o][f := WithPool(heap[f], Pool(heap[f]) + [p])]
    ensures Kinds(heap', sup)
  {
    forall g | g in Registered(heap, sup)
      ensures g in heap'
    {
    }
    KindsKept(heap, sup, heap');
  }

  /** When the first `i` factories are gone with all they own, the next one is still intact. */
  ghost predicate NextIsIntact(heap: Heap, fs: seq<Ptr>, i: nat)
    requires i < |fs|
  {
    var rest, f := heap - OwnedBy(heap, fs[..i]), fs[i];
    && f in rest && Distinct(Pool(heap[f]))
    && (forall p :: p in Pool(heap[f]) ==> p in rest && p != f)
    && OwnedBy(heap, fs[..i + 1]) == OwnedBy(heap, fs[..i]) + ({f} + Elements(Pool(heap[f])))
  }

  /** The factories can be destroyed one by one. */
  ghost predicate Removable(heap: Heap, fs: seq<Ptr>) {
    && (forall f :: f in fs ==> f in heap)
    && forall i: nat {:trigger NextIsIntact(heap, fs, i)} :: i < |fs| ==> NextIsIntact(heap, fs, i)
  }

  /** Destroying the first `i` factories of `fs` leads from `start` to `heap`, and appends to the
      deletions so far. */
  ghost predicate Torn(start: Heap, before: seq<Ptr>, fs: seq<Ptr>, i: nat, heap: Heap, deletions: seq<Ptr>)
    requires i <= |fs| && forall f :: f in fs ==> f in start
  {
    heap == start - OwnedBy(start, fs[..i]) && deletions == before + Teardown(start, fs, i)
  }

  lemma TornStart(start: Heap, before: seq<Ptr>, fs: seq<Ptr>)
    requires forall f :: f in fs ==> f in start
    ensures Torn(start, before, fs, 0, start, before)
  {
  }

  /** The objects of the factory's pool are live, different, and none of them is the factory. */
  ghost predicate Cleanable(heap: Heap, f: Ptr) {
    && f in heap && Distinct(Pool(heap[f]))
    && forall p :: p in Pool(heap[f]) ==> p in heap && p != f
  }

  lemma TornIsCleanable(start: Heap, before: seq<Ptr>, fs: seq<Ptr>, i: nat, heap: Heap, deletions: seq<Ptr>)
    requires Removable(start, fs) && i < |fs| && Torn(start, before, fs, i, heap, deletions)
    ensures Cleanable(heap, fs[i]) && heap[fs[i]] == start[fs[i]]
  {
    assert NextIsIntact(start, fs, i);
  }

  lemma RemoveTwice(heap: Heap, a: set<Ptr>, b: set<Ptr>)
    ensures (heap - a) - b == heap - (a + b)
  {
  }

  lemma RemovedNext(heap: Heap, fs: seq<Ptr>, i: nat)
    requires i < |fs| && fs[i] in heap && Removable(heap, fs)
    ensures var f := fs[i];
      heap - OwnedBy(heap, fs[..i]) - ({f} + Elements(Pool(heap[f]))) == heap - OwnedBy(heap, fs[..i + 1])
  {
    assert NextIsIntact(heap, fs, i);
    RemoveTwice(heap, OwnedBy(heap, fs[..i]), {fs[i]} + Elements(Pool(heap[fs[i]])));
  }

  lemma TornStep(start: Heap, before: seq<Ptr>, fs: seq<Ptr>, i: nat, heap: Heap, deletions: seq<Ptr>)
    requires Removable(start, fs) && i < |fs| && Torn(start, before, fs, i, heap, deletions)
    requires fs[i] in heap && heap[fs[i]] == start[fs[i]]
    ensures var f := fs[i];
      Torn(start, before, fs, i + 1, heap - ({f} + Elements(Pool(heap[f]))), deletions + Pool(heap[f]) + [f])
  {
    RemovedNext(start, fs, i);
  }

  lemma WellOwnedIsRemovable(heap: Heap, fs: seq<Ptr>)
    requires WellOwned(heap, fs)
    ensures Removable(heap, fs)
  {
    forall i: nat | i < |fs|
      ensures NextIsIntact(heap, fs, i)
    {
      NextFactoryIsIntact(heap, fs, i);
    }
  }

  lemma NextFactoryIsIntact(heap: Heap, fs: seq<Ptr>, i: nat)
    requires WellOwned(heap, fs) && i < |fs|
    ensures NextIsIntact(heap, fs, i)
  {
    var a, f := fs[..i], fs[i];
    assert fs == (a + [f]) + fs[i + 1..];
    WellOwnedSplits(heap, a + [f], fs[i + 1..]);
    WellOwnedSplits(heap, a, [f]);
    OwnedConcat(heap, a, [f]);
    assert fs[..i + 1] == a + [f];
    OwnedByOne(heap, f);
  }

  lemma OwnedByOne(heap: Heap, f: Ptr)
    requires f in heap
    ensures OwnedBy(heap, [f]) == {f} + Elements(Pool(heap[f]))
  {
  }

  lemma LayersAreDisjoint(t: State, sup: Ptr)
    requires Inv(t) && t.supervisor == Some(sup)
    ensures WellOwned(t.heap, t.heap[sup].bomPool) && WellOwned(t.heap, t.heap[sup].svcPool)
    ensures OwnedBy(t.heap, t.heap[sup].bomPool) !! OwnedBy(t.heap, t.heap[sup].svcPool)
    ensures forall f :: f in t.heap[sup].bomPool ==> t.heap[f].BomFactory?
    ensures forall f :: f in t.heap[sup].svcPool ==> t.heap[f].ServiceFactory?
    ensures t.heap[sup].svcPool == [] ==> t.factory == None
    ensures t.heap.Keys == {sup} + OwnedBy(t.heap, t.heap[sup].bomPool) + OwnedBy(t.heap, t.heap[sup].svcPool)
    ensures sup !in OwnedBy(t.heap, t.heap[sup].bomPool) && sup !in OwnedBy(t.heap, t.heap[sup].svcPool)
  {
    OwnedConcat(t.heap, t.heap[sup].bomPool, t.heap[sup].svcPool);
    WellOwnedSplits(t.heap, t.heap[sup].bomPool, t.heap[sup].svcPool);
  }

  lemma FactoriesAreOwned(heap: Heap, fs: seq<Ptr>)
    ensures forall f :: f in fs ==> f in OwnedBy(heap, fs)
  {
  }
}
