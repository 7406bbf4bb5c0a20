/** Whole runs of the factory layer: what holds after every sequence of operations, and that
    cleaning everything brings a process back to where it started. */
module Runs {
  import opened Factories
  import opened Lifetime
  import opened Operations
  import opened Options
  import opened ServiceContexts

  /** The operations a client can perform.  Naming an object that is not there does nothing. */
  datatype Action =
    | GetSupervisor
    | GetFactory
    | NewServiceContext(crsCode: string)
    | NewBomFactory
    | NewBom(f: Ptr)
    | Store(p: Ptr, content: ServiceContext)
    | CleanContextPool
    | CleanBoms
    | CleanServices
    | CleanAll

  ghost function Apply(s: State, a: Action): (r: State)
    requires Inv(s) && Shape(s)
  {
    match a
    case GetSupervisor => WithSupervisor(s)
    case GetFactory => WithServiceFactory(s)
    case NewServiceContext(crsCode) => WithContext(s, crsCode)
    case NewBomFactory => WithBomFactory(s)
    case NewBom(f) => if IsBomFactory(s, f) then WithBom(s, f) else s
    case Store(p, content) => if p in s.heap && s.heap[p].Context? then WithStored(s, p, content) else s
    case CleanContextPool => WithoutContexts(s)
    case CleanBoms => WithoutBoms(s)
    case CleanServices => WithoutServices(s)
    case CleanAll => Cleaned(s)
  }

  /** `r` is a state that an operation may lead to from `s`. */
  ghost predicate Follows(s: State, r: State) {
    Inv(r) && Shape(r) && Grows(s, r)
  }

  lemma KeptFollows(s: State, r: State)
    requires Inv(r) && Grows(s, r)
    ensures Follows(s, r)
  {
    InvHasShape(r);
  }

  lemma GettingFollows(s: State)
    requires Inv(s) && Shape(s)
    ensures Follows(s, WithSupervisor(s)) && Follows(s, WithServiceFactory(s))
  {
    WithSupervisorInv(s);
    WithServiceFactoryInv(s);
    KeptFollows(s, WithSupervisor(s));
    KeptFollows(s, WithServiceFactory(s));
  }

  lemma CreatingFollows(s: State, crsCode: string)
    requires Inv(s) && Shape(s)
    ensures Follows(s, WithContext(s, crsCode)) && Follows(s, WithBomFactory(s))
  {
    WithContextInv(s, crsCode);
    WithBomFactoryInv(s);
    KeptFollows(s, WithContext(s, crsCode));
    KeptFollows(s, WithBomFactory(s));
  }

  lemma PoolingFollows(s: State, f: Ptr)
    requires Inv(s) && IsBomFactory(s, f)
    ensures Follows(s, WithBom(s, f))
  {
    WithBomInv(s, f);
    KeptFollows(s, WithBom(s, f));
  }

  lemma StoringFollows(s: State, p: Ptr, content: ServiceContext)
    requires Inv(s) && p in s.heap && s.heap[p].Context?
    ensures Follows(s, WithStored(s, p, content))
  {
    WithStoredInv(s, p, content);
    KeptFollows(s, WithStored(s, p, content));
  }

  lemma CleaningFollows(s: State)
    requires Inv(s) && Shape(s)
    ensures Follows(s, WithoutContexts(s)) && Follows(s, WithoutBoms(s)) && Follows(s, WithoutServices(s))
    ensures Follows(s, Cleaned(s))
  {
    WithoutContextsInv(s);
    WithoutBomsInv(s);
    WithoutServicesInv(s);
    KeptFollows(s, WithoutContexts(s));
    KeptFollows(s, WithoutBoms(s));
    KeptFollows(s, WithoutServices(s));
    KeptFollows(s, Cleaned(s));
  }

  /** Every operation keeps the ownership invariant. */
  lemma ApplyInv(s: State, a: Action)
    requires Inv(s) && Shape(s)
    ensures Inv(Apply(s, a)) && Shape(Apply(s, a)) && Grows(s, Apply(s, a))
  {
    assert Follows(s, s);
    assert Follows(s, Apply(s, a)) by {
      match a {
        case GetSupervisor => GettingFollows(s);
        case GetFactory => GettingFollows(s);
        case NewServiceContext(crsCode) => CreatingFollows(s, crsCode);
        case NewBomFactory => CreatingFollows(s, "");
        case NewBom(f) => if IsBomFactory(s, f) { PoolingFollows(s, f); }
        case Store(p, content) => if p in s.heap && s.heap[p].Context? { StoringFollows(s, p, content); }
        case CleanContextPool => CleaningFollows(s);
        case CleanBoms => CleaningFollows(s);
        case CleanServices => CleaningFollows(s);
        case CleanAll => CleaningFollows(s);
      }
    }
  }

  ghost function Run(s: State, actions: seq<Action>): (r: State)
    requires Inv(s) && Shape(s)
    ensures Inv(r) && Shape(r)
    decreases |actions|
  {
    if actions == [] then s
    else
      ApplyInv(s, actions[0]);
      Run(Apply(s, actions[0]), actions[1..])
  }

  // ---------- The code performs the operations ----------

  /** Looking the supervisor up first changes nothing. */
  lemma SupervisorComesFirst(s: State)
    requires Inv(s) && Shape(s)
    ensures Shape(WithSupervisor(s))
    ensures WithoutBoms(WithSupervisor(s)) == WithoutBoms(s)
    ensures WithoutServices(WithSupervisor(s)) == WithoutServices(s)
  {
  }

  method GetSingletons(process: Process, withFactory: bool)
    requires process.Valid()
    modifies process
    ensures process.Valid() && process.deletions == old(process.deletions)
    ensures process.View() ==
      if withFactory then WithServiceFactory(old(process.View())) else WithSupervisor(old(process.View()))
  {
    GettingFollows(process.View());
    if withFactory {
      var f := process.FactoryInstance();
    } else {
      var p := process.SupervisorInstance();
    }
  }

  method CleanLayer(process: Process, services: bool)
    requires process.Valid()
    modifies process
    ensures process.Valid() && old(process.deletions) <= process.deletions
    ensures process.View() ==
      if services then WithoutServices(old(process.View())) else WithoutBoms(old(process.View()))
  {
    SupervisorComesFirst(process.View());
    GettingFollows(process.View());
    var sup := process.SupervisorInstance();
    if services {
      process.CleanServiceLayer(sup);
    } else {
      process.CleanBomLayer(sup);
    }
  }

  /** Each operation is what the methods of the factory layer do. */
  method Perform(process: Process, a: Action)
    requires process.Valid()
    modifies process
    ensures process.Valid() && process.View() == Apply(old(process.View()), a)
    ensures old(process.deletions) <= process.deletions
  {
    match a {
      case GetSupervisor => GetSingletons(process, false);
      case GetFactory => GetSingletons(process, true);
      case NewServiceContext(crsCode) => var p := process.CreateContext(crsCode);
      case NewBomFactory => var f := process.RegisterNewBomFactory();
      case NewBom(f) =>
        if IsBomFactory(process.View(), f) {
          var p := process.CreateBom(f);
        }
      case Store(p, content) =>
        if p in process.heap && process.heap[p].Context? {
          process.Store(p, content);
        }
      case CleanContextPool => process.CleanContexts();
      case CleanBoms => CleanLayer(process, false);
      case CleanServices => CleanLayer(process, true);
      case CleanAll => process.CleanFactory();
    }
  }

  /** Over a whole run of the code, starting anywhere: the state is that of the run; and every
      address used so far is live or has been passed to `delete`, once, and never both. */
  method PerformAll(process: Process, actions: seq<Action>)
    requires process.Valid()
    modifies process
    ensures process.Valid() && process.View() == Run(old(process.View()), actions)
    ensures old(process.deletions) <= process.deletions
    ensures forall p: Ptr :: multiset(process.deletions)[p] == if p < process.next && p !in process.heap then 1 else 0
  {
    ghost var start := process.View();
    for i := 0 to |actions|
      invariant process.Valid() && Run(process.View(), actions[i..]) == Run(start, actions)
      invariant old(process.deletions) <= process.deletions
    {
      assert actions[i..][0] == actions[i] && actions[i..][1..] == actions[i + 1..];
      Perform(process, actions[i]);
    }
    LedgerMeaning(process.heap, process.next, process.deletions);
  }

  lemma LedgerMeaning(heap: Heap, next: Ptr, deletions: seq<Ptr>)
    requires Ledger(heap, next, deletions)
    ensures forall p: Ptr :: multiset(deletions)[p] == if p < next && p !in heap then 1 else 0
  {
    forall p: Ptr
      ensures multiset(deletions)[p] == if p < next && p !in heap then 1 else 0
    {
      assert Used(p, next) || p >= next;
    }
  }

  // ---------- Ownership after every run ----------

  /** The pointers that a live object holds. */
  function Slots(o: Object): seq<Ptr> {
    match o
    case Supervisor(bomPool, svcPool) => bomPool + svcPool
    case _ => Pool(o)
  }

  ghost predicate HoldsAt(s: State, owner: Ptr, i: int, p: Ptr) {
    owner in s.heap && 0 <= i < |Slots(s.heap[owner])| && Slots(s.heap[owner])[i] == p
  }

  /** After every run no live object points to a freed one, and every live object other than
      the supervisor is held in exactly one slot of exactly one live object. */
  lemma EverythingHasOnePlace(actions: seq<Action>, p: Ptr)
    ensures var s := Run(START, actions);
      && (forall owner, i :: HoldsAt(s, owner, i, p) ==> p in s.heap && s.supervisor != Some(p))
      && (p in s.heap && s.supervisor != Some(p) ==> exists owner, i :: HoldsAt(s, owner, i, p))
      && (forall a, i, b, j :: HoldsAt(s, a, i, p) && HoldsAt(s, b, j, p) ==> a == b && i == j)
  {
    var s := Run(START, actions);
    forall owner, i | HoldsAt(s, owner, i, p)
      ensures p in s.heap && s.supervisor != Some(p)
    {
      HeldIsOwned(s, owner, i, p);
    }
    if p in s.heap && s.supervisor != Some(p) {
      OwnedIsHeld(s, p);
    }
    forall a, i, b, j | HoldsAt(s, a, i, p) && HoldsAt(s, b, j, p)
      ensures a == b && i == j
    {
      HeldOnce(s, p, a, i, b, j);
    }
  }

  lemma HeldIsOwned(s: State, owner: Ptr, i: int, p: Ptr)
    requires Inv(s) && HoldsAt(s, owner, i, p)
    ensures s.supervisor.Some? && p in OwnedBy(s.heap, Registered(s.heap, s.supervisor.value))
  {
    OwnersAreRegistered(s, owner);
    assert p in Slots(s.heap[owner]);
  }

  lemma OwnedIsHeld(s: State, p: Ptr)
    requires Inv(s) && p in s.heap && s.supervisor != Some(p)
    ensures exists owner, i :: HoldsAt(s, owner, i, p)
  {
    var sup := s.supervisor.value;
    var fs := Registered(s.heap, sup);
    if p in fs {
      var i :| 0 <= i < |fs| && fs[i] == p;
      assert HoldsAt(s, sup, i, p);
    } else {
      var f :| f in fs && p in Pool(s.heap[f]);
      var i :| 0 <= i < |Pool(s.heap[f])| && Pool(s.heap[f])[i] == p;
      assert HoldsAt(s, f, i, p);
    }
  }

  lemma HeldOnce(s: State, p: Ptr, a: Ptr, i: int, b: Ptr, j: int)
    requires Inv(s) && HoldsAt(s, a, i, p) && HoldsAt(s, b, j, p)
    ensures a == b && i == j
  {
    OwnersAreRegistered(s, a);
    OwnersAreRegistered(s, b);
    assert p in Slots(s.heap[a]) && p in Slots(s.heap[b]);
  }

  /** Only the supervisor and the registered factories hold pointers. */
  lemma OwnersAreRegistered(s: State, owner: Ptr)
    requires Inv(s) && owner in s.heap && Slots(s.heap[owner]) != []
    ensures s.supervisor == Some(owner)
            || (owner in Registered(s.heap, s.supervisor.value) && Slots(s.heap[owner]) == Pool(s.heap[owner]))
  {
  }

  /** An address that is no longer live is never live again: addresses are not reused. */
  lemma {:induction false} FreedForGood(s: State, actions: seq<Action>, p: Ptr)
    requires Inv(s) && Shape(s) && p < s.next && p !in s.heap
    ensures p < Run(s, actions).next && p !in Run(s, actions).heap
    decreases |actions|
  {
    if actions != [] {
      ApplyInv(s, actions[0]);
      FreedForGood(Apply(s, actions[0]), actions[1..], p);
    }
  }

  // ---------- How long a service context lives ----------

  ghost predicate InServicePool(s: State, p: Ptr) {
    && s.factory.Some? && s.factory.value in s.heap && s.heap[s.factory.value].ServiceFactory?
    && p in s.heap[s.factory.value].contexts && p in s.heap && s.heap[p].Context?
  }

  predicate CleansContexts(a: Action) {
    a.CleanContextPool? || a.CleanServices? || a.CleanAll?
  }

  lemma PooledFacts(s: State, p: Ptr)
    requires Inv(s) && InServicePool(s, p)
    ensures s.supervisor.Some? && s.supervisor.value in s.heap && s.heap[s.supervisor.value].Supervisor?
    ensures s.heap[s.supervisor.value].svcPool == [s.factory.value]
    ensures p in OwnedBy(s.heap, [s.factory.value]) && s.factory.value in OwnedBy(s.heap, [s.factory.value])
    ensures OwnedBy(s.heap, s.heap[s.supervisor.value].bomPool) !! OwnedBy(s.heap, [s.factory.value])
    ensures p != s.supervisor.value && p != s.factory.value && s.factory.value != s.supervisor.value
  {
    LayersAreDisjoint(s, s.supervisor.value);
    assert p in Pool(s.heap[s.factory.value]);
  }

  ghost predicate StillPooled(s: State, r: State, p: Ptr) {
    p in s.heap && InServicePool(r, p) && r.heap[p] == s.heap[p]
  }

  lemma KeptByCreating(s: State, p: Ptr, crsCode: string)
    requires Inv(s) && Shape(s) && InServicePool(s, p)
    ensures StillPooled(s, WithContext(s, crsCode), p) && StillPooled(s, WithBomFactory(s), p)
  {
    PooledFacts(s, p);
  }

  lemma KeptByPooling(s: State, p: Ptr, f: Ptr)
    requires Inv(s) && InServicePool(s, p) && IsBomFactory(s, f)
    ensures StillPooled(s, WithBom(s, f), p)
  {
    PooledFacts(s, p);
  }

  lemma KeptByStoring(s: State, p: Ptr, q: Ptr, content: ServiceContext)
    requires Inv(s) && InServicePool(s, p) && q in s.heap && s.heap[q].Context?
    ensures InServicePool(WithStored(s, q, content), p)
    ensures q != p ==> StillPooled(s, WithStored(s, q, content), p)
  {
  }

  lemma KeptByCleaningBoms(s: State, p: Ptr)
    requires Inv(s) && Shape(s) && InServicePool(s, p)
    ensures StillPooled(s, WithoutBoms(s), p)
  {
    PooledFacts(s, p);
  }

  lemma LostByCleaning(s: State, p: Ptr)
    requires Inv(s) && Shape(s) && InServicePool(s, p)
    ensures p !in WithoutContexts(s).heap && p !in WithoutServices(s).heap && p !in Cleaned(s).heap
  {
    PooledFacts(s, p);
  }

  /** A pooled context survives an operation exactly when the operation does not clean the
      service contexts. */
  lemma ContextSurvivesStep(s: State, a: Action, p: Ptr)
    requires Inv(s) && Shape(s) && InServicePool(s, p)
    ensures p in Apply(s, a).heap <==> !CleansContexts(a)
    ensures !CleansContexts(a) ==> InServicePool(Apply(s, a), p)
    ensures !CleansContexts(a) && (a.Store? ==> a.p != p) ==> Apply(s, a).heap[p] == s.heap[p]
  {
    if CleansContexts(a) {
      LostByCleaning(s, p);
    } else if a.Store? {
      if a.p in s.heap && s.heap[a.p].Context? { KeptByStoring(s, p, a.p, a.content); }
    } else {
      PooledStays(s, a, p);
    }
  }

  lemma PooledStays(s: State, a: Action, p: Ptr)
    requires Inv(s) && Shape(s) && InServicePool(s, p) && !CleansContexts(a) && !a.Store?
    ensures StillPooled(s, Apply(s, a), p)
  {
    assert StillPooled(s, s, p);
    PooledFacts(s, p);
    match a {
      case GetSupervisor =>
      case GetFactory =>
      case NewServiceContext(crsCode) => KeptByCreating(s, p, crsCode);
      case NewBomFactory => KeptByCreating(s, p, "");
      case NewBom(f) => if IsBomFactory(s, f) { KeptByPooling(s, p, f); }
      case CleanBoms => KeptByCleaningBoms(s, p);
    }
  }

  /** A context keeps its content through every run in which its own service does not store into
      it and the service contexts are not cleaned; if they are, it is gone for good. */
  lemma {:induction false} ContextSurvivesRun(s: State, actions: seq<Action>, p: Ptr)
    requires Inv(s) && Shape(s) && InServicePool(s, p)
    requires forall a :: a in actions && a.Store? ==> a.p != p
    ensures p in Run(s, actions).heap <==> forall a :: a in actions ==> !CleansContexts(a)
    ensures p in Run(s, actions).heap ==> Run(s, actions).heap[p] == s.heap[p]
    decreases |actions|
  {
    if actions != [] {
      var first, rest := actions[0], actions[1..];
      assert first in actions && forall a :: a in rest ==> a in actions;
      assert forall a :: a in actions ==> a == first || a in rest;
      ContextSurvivesStep(s, first, p);
      ApplyInv(s, first);
      if CleansContexts(first) {
        FreedForGood(Apply(s, first), rest, p);
      } else {
        ContextSurvivesRun(Apply(s, first), rest, p);
      }
    }
  }

  /** A newly created context is pooled. */
  lemma NewContextIsPooled(s: State, crsCode: string)
    requires Inv(s) && Shape(s)
    ensures InServicePool(WithContext(s, crsCode), WithServiceFactory(s).next)
  {
    WithServiceFactoryInv(s);
  }
}
