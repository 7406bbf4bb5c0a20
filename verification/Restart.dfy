/** After everything has been cleaned, a process behaves exactly like a new one: every later run
    is the run of a new process with all addresses moved up. */
module Restart {
  import opened Lifetime
  import opened Operations
  import opened Options
  import opened Runs
  import opened ServiceContexts

  // ---------- The same state, `n` addresses further up ----------

  function Up(p: Ptr, n: nat): Ptr {
    p + n
  }

  ghost predicate MovedSeq(ps: seq<Ptr>, qs: seq<Ptr>, n: nat) {
    |ps| == |qs| && forall i :: 0 <= i < |ps| ==> qs[i] == Up(ps[i], n)
  }

  ghost predicate MovedObject(o: Object, o': Object, n: nat) {
    match o
    case Supervisor(bomPool, svcPool) =>
      o'.Supervisor? && MovedSeq(bomPool, o'.bomPool, n) && MovedSeq(svcPool, o'.svcPool, n)
    case BomFactory(boms) => o'.BomFactory? && MovedSeq(boms, o'.boms, n)
    case ServiceFactory(contexts) => o'.ServiceFactory? && MovedSeq(contexts, o'.contexts, n)
    case _ => o' == o
  }

  ghost predicate MovedSet(ps: set<Ptr>, qs: set<Ptr>, n: nat) {
    && (forall p: Ptr {:trigger Up(p, n)} :: p in ps <==> Up(p, n) in qs)
    && (forall q :: q in qs ==> q >= n)
  }

  ghost predicate MovedHeap(heap: Heap, heap': Heap, n: nat) {
    && MovedSet(heap.Keys, heap'.Keys, n)
    && forall p: Ptr {:trigger Up(p, n)} :: p in heap ==> Up(p, n) in heap' && MovedObject(heap[p], heap'[Up(p, n)], n)
  }

  ghost predicate MovedPtr(p: Option<Ptr>, q: Option<Ptr>, n: nat) {
    q == if p.Some? then Some(Up(p.value, n)) else None
  }

  ghost predicate Moved(s: State, t: State, n: nat) {
    && MovedHeap(s.heap, t.heap, n)
    && t.next == s.next + n && MovedPtr(s.supervisor, t.supervisor, n) && MovedPtr(s.factory, t.factory, n)
  }

  function MoveAction(a: Action, n: nat): Action {
    match a
    case NewBom(f) => NewBom(Up(f, n))
    case Store(p, content) => Store(Up(p, n), content)
    case _ => a
  }

  function MoveActions(actions: seq<Action>, n: nat): seq<Action> {
    if actions == [] then [] else [MoveAction(actions[0], n)] + MoveActions(actions[1..], n)
  }

  // ---------- What the operations are made of ----------

  lemma MoveUpdate(heap: Heap, heap': Heap, n: nat, p: Ptr, o: Object, o': Object)
    requires MovedHeap(heap, heap', n) && MovedObject(o, o', n)
    ensures MovedHeap(heap[p := o], heap'[Up(p, n) := o'], n)
  {
  }

  lemma MoveRemove(heap: Heap, heap': Heap, n: nat, ps: set<Ptr>, qs: set<Ptr>)
    requires MovedHeap(heap, heap', n) && MovedSet(ps, qs, n)
    ensures MovedHeap(heap - ps, heap' - qs, n)
  {
  }

  lemma MoveMember(ps: seq<Ptr>, qs: seq<Ptr>, n: nat, p: Ptr)
    requires MovedSeq(ps, qs, n)
    ensures p in ps <==> Up(p, n) in qs
  {
    if p in ps {
      var i :| 0 <= i < |ps| && ps[i] == p;
      assert qs[i] == Up(p, n);
    }
  }

  lemma MoveElements(ps: seq<Ptr>, qs: seq<Ptr>, n: nat)
    requires MovedSeq(ps, qs, n)
    ensures MovedSet(Elements(ps), Elements(qs), n)
  {
    forall p: Ptr
      ensures p in Elements(ps) <==> Up(p, n) in Elements(qs)
    {
      MoveMember(ps, qs, n, p);
    }
  }

  lemma MovedPool(o: Object, o': Object, n: nat)
    requires MovedObject(o, o', n)
    ensures MovedSeq(Pool(o), Pool(o'), n) && SameKind(o, o')
  {
  }

  lemma MoveOwnedBy(heap: Heap, heap': Heap, n: nat, fs: seq<Ptr>, gs: seq<Ptr>)
    requires MovedHeap(heap, heap', n) && MovedSeq(fs, gs, n)
    ensures MovedSet(OwnedBy(heap, fs), OwnedBy(heap', gs), n)
  {
    forall p: Ptr
      ensures p in OwnedBy(heap, fs) <==> Up(p, n) in OwnedBy(heap', gs)
    {
      if p in OwnedBy(heap, fs) { OwnedIsMoved(heap, heap', n, fs, gs, p); }
      if Up(p, n) in OwnedBy(heap', gs) { MovedWasOwned(heap, heap', n, fs, gs, Up(p, n)); }
    }
    forall q | q in OwnedBy(heap', gs)
      ensures q >= n
    {
      MovedWasOwned(heap, heap', n, fs, gs, q);
    }
  }

  lemma OwnedIsMoved(heap: Heap, heap': Heap, n: nat, fs: seq<Ptr>, gs: seq<Ptr>, p: Ptr)
    requires MovedHeap(heap, heap', n) && MovedSeq(fs, gs, n) && p in OwnedBy(heap, fs)
    ensures Up(p, n) in OwnedBy(heap', gs)
  {
    MoveMember(fs, gs, n, p);
    if p !in fs {
      var f: Ptr :| f in fs && f in heap && p in Pool(heap[f]);
      MoveMember(fs, gs, n, f);
      MovedPool(heap[f], heap'[Up(f, n)], n);
      MoveMember(Pool(heap[f]), Pool(heap'[Up(f, n)]), n, p);
    }
  }

  lemma MovedWasOwned(heap: Heap, heap': Heap, n: nat, fs: seq<Ptr>, gs: seq<Ptr>, q: Ptr)
    requires MovedHeap(heap, heap', n) && MovedSeq(fs, gs, n) && q in OwnedBy(heap', gs)
    ensures q >= n && q - n in OwnedBy(heap, fs)
  {
    if q in gs {
      MovedElement(fs, gs, n, q);
    } else {
      var g: Ptr :| g in gs && g in heap' && q in Pool(heap'[g]);
      MovedElement(fs, gs, n, g);
      var f: Ptr := g - n;
      assert Up(f, n) == g && f in heap.Keys;
      MovedPool(heap[f], heap'[Up(f, n)], n);
      MovedElement(Pool(heap[f]), Pool(heap'[g]), n, q);
    }
  }

  lemma MovedElement(ps: seq<Ptr>, qs: seq<Ptr>, n: nat, q: Ptr)
    requires MovedSeq(ps, qs, n) && q in qs
    ensures q >= n && q - n in ps
  {
    var i :| 0 <= i < |qs| && qs[i] == q;
    assert ps[i] == q - n;
  }

  // ---------- Every operation commutes with moving ----------

  lemma AllocationMoves(s: State, t: State, n: nat, o: Object)
    requires Moved(s, t, n) && MovedObject(o, o, n)
    ensures Moved(Allocated(s, o), Allocated(t, o), n)
  {
    MoveUpdate(s.heap, t.heap, n, s.next, o, o);
  }

  lemma SupervisorMoves(s: State, t: State, n: nat)
    requires Moved(s, t, n)
    ensures Moved(WithSupervisor(s), WithSupervisor(t), n)
  {
    AllocationMoves(s, t, n, Supervisor([], []));
  }

  lemma RegisterMoves(s: State, t: State, n: nat, f: Ptr)
    requires Moved(s, t, n)
    requires s.supervisor.Some? && s.supervisor.value in s.heap && s.heap[s.supervisor.value].Supervisor?
    requires t.supervisor.Some? && t.supervisor.value in t.heap && t.heap[t.supervisor.value].Supervisor?
    ensures Moved(RegisterSvc(s, f), RegisterSvc(t, Up(f, n)), n)
    ensures Moved(RegisterBom(s, f), RegisterBom(t, Up(f, n)), n)
  {
    var sup: Ptr := s.supervisor.value;
    var o, o' := s.heap[sup], t.heap[Up(sup, n)];
    MoveUpdate(s.heap, t.heap, n, sup, o.(svcPool := o.svcPool + [f]), o'.(svcPool := o'.svcPool + [Up(f, n)]));
    MoveUpdate(s.heap, t.heap, n, sup, o.(bomPool := o.bomPool + [f]), o'.(bomPool := o'.bomPool + [Up(f, n)]));
  }

  /** The supervisor, if there is one, is live. */
  predicate SupervisorIsLive(s: State) {
    s.supervisor.Some? ==> s.supervisor.value in s.heap && s.heap[s.supervisor.value].Supervisor?
  }

  lemma RegisteringMoves(s: State, t: State, n: nat, f: Ptr)
    requires Moved(s, t, n) && SupervisorIsLive(s) && SupervisorIsLive(t)
    ensures Moved(RegisterSvc(WithSupervisor(s), f), RegisterSvc(WithSupervisor(t), Up(f, n)), n)
    ensures Moved(RegisterBom(WithSupervisor(s), f), RegisterBom(WithSupervisor(t), Up(f, n)), n)
  {
    SupervisorMoves(s, t, n);
    RegisterMoves(WithSupervisor(s), WithSupervisor(t), n, f);
  }

  lemma ServiceFactoryMoves(s: State, t: State, n: nat)
    requires Moved(s, t, n) && Shape(s) && Shape(t)
    ensures Moved(WithServiceFactory(s), WithServiceFactory(t), n)
  {
    if s.factory.None? {
      AllocationMoves(s, t, n, ServiceFactory([]));
      var s1 := Allocated(s, ServiceFactory([])).(factory := Some(s.next));
      var t1 := Allocated(t, ServiceFactory([])).(factory := Some(t.next));
      RegisteringMoves(s1, t1, n, s.next);
    }
  }

  lemma BomFactoryMoves(s: State, t: State, n: nat)
    requires Moved(s, t, n) && Shape(s) && Shape(t)
    ensures Moved(WithBomFactory(s), WithBomFactory(t), n)
  {
    AllocationMoves(s, t, n, BomFactory([]));
    RegisteringMoves(Allocated(s, BomFactory([])), Allocated(t, BomFactory([])), n, s.next);
  }

  lemma PushMoves(s: State, t: State, n: nat, f: Ptr, o: Object)
    requires Moved(s, t, n) && IsLeaf(o)
    requires f in s.heap && (s.heap[f].BomFactory? || s.heap[f].ServiceFactory?)
    ensures Up(f, n) in t.heap && SameKind(s.heap[f], t.heap[Up(f, n)])
    ensures Moved(Pushed(s, f, o), Pushed(t, Up(f, n), o), n)
  {
    MovedPool(s.heap[f], t.heap[Up(f, n)], n);
    var a := WithPool(s.heap[f], Pool(s.heap[f]) + [s.next]);
    var b := WithPool(t.heap[Up(f, n)], Pool(t.heap[Up(f, n)]) + [t.next]);
    MoveUpdate(s.heap, t.heap, n, s.next, o, o);
    MoveUpdate(s.heap[s.next := o], t.heap[t.next := o], n, f, a, b);
  }

  lemma BomFactoryIsMoved(s: State, t: State, n: nat, f: Ptr)
    requires Moved(s, t, n) && Shape(s) && Shape(t)
    ensures IsBomFactory(s, f) <==> IsBomFactory(t, Up(f, n))
  {
    if s.supervisor.Some? {
      var sup: Ptr := s.supervisor.value;
      MoveMember(s.heap[sup].bomPool, t.heap[Up(sup, n)].bomPool, n, f);
      assert f in s.heap.Keys <==> Up(f, n) in t.heap.Keys;
      if f in s.heap {
        MovedPool(s.heap[f], t.heap[Up(f, n)], n);
      }
    }
  }

  lemma ContextMoves(s: State, t: State, n: nat, crsCode: string)
    requires Moved(s, t, n) && Shape(s) && Shape(t)
    ensures Moved(WithContext(s, crsCode), WithContext(t, crsCode), n)
  {
    ServiceFactoryMoves(s, t, n);
    PushMoves(WithServiceFactory(s), WithServiceFactory(t), n, WithServiceFactory(s).factory.value,
              Context(NewContext(crsCode)));
  }

  lemma CleanContextsMoves(s: State, t: State, n: nat)
    requires Moved(s, t, n) && Shape(s) && Shape(t)
    ensures Moved(WithoutContexts(s), WithoutContexts(t), n)
  {
    ServiceFactoryMoves(s, t, n);
    var s1, t1 := WithServiceFactory(s), WithServiceFactory(t);
    var f: Ptr := s1.factory.value;
    MovedPool(s1.heap[f], t1.heap[Up(f, n)], n);
    var gone, gone' := Elements(Pool(s1.heap[f])), Elements(Pool(t1.heap[Up(f, n)]));
    MoveElements(Pool(s1.heap[f]), Pool(t1.heap[Up(f, n)]), n);
    MoveRemove(s1.heap, t1.heap, n, gone, gone');
    MoveUpdate(s1.heap - gone, t1.heap - gone', n, f, ServiceFactory([]), ServiceFactory([]));
  }

  lemma RemoveLayerMoves(heap: Heap, heap': Heap, n: nat, fs: seq<Ptr>, gs: seq<Ptr>, sup: Ptr, o: Object, o': Object)
    requires MovedHeap(heap, heap', n) && MovedSeq(fs, gs, n) && MovedObject(o, o', n)
    ensures MovedHeap((heap - OwnedBy(heap, fs))[sup := o], (heap' - OwnedBy(heap', gs))[Up(sup, n) := o'], n)
  {
    MoveOwnedBy(heap, heap', n, fs, gs);
    MoveRemove(heap, heap', n, OwnedBy(heap, fs), OwnedBy(heap', gs));
    MoveUpdate(heap - OwnedBy(heap, fs), heap' - OwnedBy(heap', gs), n, sup, o, o');
  }

  lemma CleanLayersMove(s: State, t: State, n: nat)
    requires Moved(s, t, n) && Shape(s) && Shape(t)
    ensures Moved(WithoutBoms(s), WithoutBoms(t), n)
    ensures Moved(WithoutServices(s), WithoutServices(t), n)
  {
    SupervisorMoves(s, t, n);
    var s1, t1 := WithSupervisor(s), WithSupervisor(t);
    var sup: Ptr := s1.supervisor.value;
    var o, o' := s1.heap[sup], t1.heap[Up(sup, n)];
    RemoveLayerMoves(s1.heap, t1.heap, n, o.bomPool, o'.bomPool, sup, o.(bomPool := []), o'.(bomPool := []));
    RemoveLayerMoves(s1.heap, t1.heap, n, o.svcPool, o'.svcPool, sup, o.(svcPool := []), o'.(svcPool := []));
  }

  lemma StoreMoves(s: State, t: State, n: nat, p: Ptr, content: ServiceContext)
    requires Moved(s, t, n)
    ensures (p in s.heap && s.heap[p].Context?) <==> (Up(p, n) in t.heap && t.heap[Up(p, n)].Context?)
    ensures p in s.heap && s.heap[p].Context? ==> Moved(WithStored(s, p, content), WithStored(t, Up(p, n), content), n)
  {
    assert p in s.heap.Keys <==> Up(p, n) in t.heap.Keys;
    MoveUpdate(s.heap, t.heap, n, p, Context(content), Context(content));
  }

  lemma ApplyMoves(s: State, t: State, a: Action, n: nat)
    requires Inv(s) && Shape(s) && Inv(t) && Shape(t) && Moved(s, t, n)
    ensures Moved(Apply(s, a), Apply(t, MoveAction(a, n)), n)
  {
    match a {
      case GetSupervisor => SupervisorMoves(s, t, n);
      case GetFactory => ServiceFactoryMoves(s, t, n);
      case NewServiceContext(crsCode) => ContextMoves(s, t, n, crsCode);
      case NewBomFactory => BomFactoryMoves(s, t, n);
      case NewBom(f) =>
        BomFactoryIsMoved(s, t, n, f);
        if IsBomFactory(s, f) {
          PushMoves(s, t, n, f, Bom);
        }
      case Store(p, content) => StoreMoves(s, t, n, p, content);
      case CleanContextPool => CleanContextsMoves(s, t, n);
      case CleanBoms => CleanLayersMove(s, t, n);
      case CleanServices => CleanLayersMove(s, t, n);
      case CleanAll =>
    }
  }

  lemma {:induction false} RunMoves(s: State, t: State, actions: seq<Action>, n: nat)
    requires Inv(s) && Shape(s) && Inv(t) && Shape(t) && Moved(s, t, n)
    ensures Moved(Run(s, actions), Run(t, MoveActions(actions, n)), n)
    decreases |actions|
  {
    if actions != [] {
      ApplyMoves(s, t, actions[0], n);
      ApplyInv(s, actions[0]);
      ApplyInv(t, MoveAction(actions[0], n));
      RunMoves(Apply(s, actions[0]), Apply(t, MoveAction(actions[0], n)), actions[1..], n);
      assert MoveActions(actions, n)[1..] == MoveActions(actions[1..], n);
    }
  }

  lemma CleanedStateMoves(s: State)
    ensures Moved(START, Cleaned(s), s.next) && Inv(Cleaned(s)) && Shape(Cleaned(s))
  {
  }

  /** After cleaning everything, in whatever state that finds the process, any further run is the
      same run of a new process, as many addresses further up as have been used so far. */
  lemma CleanedIsNew(s: State, actions: seq<Action>)
    requires Inv(s) && Shape(s)
    ensures Inv(Apply(s, CleanAll)) && Shape(Apply(s, CleanAll))
    ensures Moved(Run(START, actions), Run(Apply(s, CleanAll), MoveActions(actions, s.next)), s.next)
  {
    CleanedStateMoves(s);
    assert Apply(s, CleanAll) == Cleaned(s);
    RunMoves(START, Cleaned(s), actions, s.next);
  }
}
