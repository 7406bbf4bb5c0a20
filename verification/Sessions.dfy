/** Several services in one process: whatever happens to the others, each service can be used until
    it is finalised, and asks only for what its own history asks for. */
module Sessions {
  import opened Factories
  import opened Lifetime
  import opened Operations
  import opened Options
  import opened ServiceContexts
  import opened Services

  /** What can happen in a process that uses services. */
  datatype Event =
    | Start(stdair: ServiceRef, sevmgr: Option<ServiceRef>, made: Made, crsCode: string)
    | Do(i: nat, op: Business)
    | Finish(i: nat)

  /** One service's own history: how it was made, what it was asked to do, and whether it is finalised. */
  datatype Usage = Usage(owns: bool, creation: seq<Call>, ops: seq<Business>, finished: bool)

  /** The usage that a new service begins with: without an event manager it is made by the
      constructors that create StdAir, with one by the constructor that is handed both. */
  function FirstUsage(stdair: ServiceRef, sevmgr: Option<ServiceRef>): Usage {
    Usage(sevmgr.None?, FillCalls(stdair, sevmgr), [], false)
  }

  predicate InUse(us: seq<Usage>, i: nat) {
    i < |us| && !us[i].finished
  }

  /** An event concerns one service only; a service that was finalised is not used any more. */
  function Record(us: seq<Usage>, e: Event): seq<Usage> {
    match e
    case Start(stdair, sevmgr, _, _) => us + [FirstUsage(stdair, sevmgr)]
    case Do(i, op) => if InUse(us, i) then us[i := us[i].(ops := us[i].ops + [op])] else us
    case Finish(i) => if InUse(us, i) then us[i := us[i].(finished := true)] else us
  }

  function RecordAll(events: seq<Event>): seq<Usage> {
    if events == [] then [] else Record(RecordAll(events[..|events| - 1]), events[|events| - 1])
  }

  /** A service with context `p` that has made `calls` fits its own history. */
  ghost predicate Fits(heap: Heap, p: Ptr, calls: seq<Call>, u: Usage) {
    && p in heap && heap[p].Context? && heap[p].content.ownsStdair == Some(u.owns)
    && (!u.finished ==> Ready(heap[p].content))
    && calls == u.creation + HistoryCalls(u.owns, u.ops)
  }

  ghost predicate ServesAs(process: Process, s: Service, u: Usage)
    reads process, s
  {
    s.process == process && s.context.Some? && Fits(process.heap, s.context.value, s.calls, u)
  }

  // ---------- What an event leaves alone ----------

  /** The contexts of `heap`, except that at `p`, are unchanged in `heap'`. */
  ghost predicate OthersKept(heap: Heap, heap': Heap, p: Ptr) {
    forall q: Ptr :: q in heap && heap[q].Context? && q != p ==> q in heap' && heap'[q] == heap[q]
  }

  /** Making a service leaves every other context as it is. */
  lemma CreationKeepsOthers(s: State, crsCode: string, p: Ptr, c: ServiceContext)
    requires Inv(s) && Shape(s)
    ensures OthersKept(s.heap, WithFilled(s, crsCode, p, c).heap, p)
  {
    var r := WithFilled(s, crsCode, p, c);
    forall q: Ptr | q in s.heap && s.heap[q].Context? && q != p
      ensures q in r.heap && r.heap[q] == s.heap[q]
    {
      assert q < s.next;
    }
  }

  twostate predicate SameAsBefore(s: Service)
    reads s
  {
    s.context == old(s.context) && s.calls == old(s.calls)
  }

  /** The services of a process, and the history of each. */
  datatype Session = Session(process: Process, services: seq<Service>, usages: seq<Usage>) {

    ghost predicate Serving()
      reads process, services
    {
      && |services| == |usages|
      && (forall i :: 0 <= i < |services| ==> ServesAs(process, services[i], usages[i]))
      && (forall i, j :: 0 <= i < j < |services| ==>
            services[i] != services[j] && services[i].context != services[j].context)
    }

    /** Making a service with a context at `p` leaves the others as they are. */
    twostate lemma AllStay(p: Ptr)
      requires old(Serving()) && p !in old(process.heap)
      requires forall i :: 0 <= i < |services| ==> SameAsBefore(services[i])
      requires OthersKept(old(process.heap), process.heap, p)
      ensures Serving() && forall i :: 0 <= i < |services| ==> services[i].context != Some(p)
    {
      forall i | 0 <= i < |services|
        ensures ServesAs(process, services[i], usages[i])
        ensures SameAsBefore(services[i]) && services[i].context != Some(p)
      {
        assert old(ServesAs(process, services[i], usages[i])) && SameAsBefore(services[i]);
      }
    }

    /** One service changes its calls or its own context, and the others stay as they are. */
    twostate lemma OthersStay(i: nat)
      requires old(Serving()) && i < |services|
      requires services[i].context == old(services[i].context) && services[i].context.Some?
      requires forall j :: 0 <= j < |services| && j != i ==> SameAsBefore(services[j])
      requires OthersKept(old(process.heap), process.heap, services[i].context.value)
      ensures |usages| == |services|
      ensures forall u :: ServesAs(process, services[i], u) ==> this.(usages := usages[i := u]).Serving()
    {
      forall j | 0 <= j < |services| && j != i
        ensures ServesAs(process, services[j], usages[j]) && SameAsBefore(services[j])
      {
        assert old(ServesAs(process, services[j], usages[j])) && SameAsBefore(services[j]);
        assert old(services[j].context) != old(services[i].context);
      }
    }
  }

  // ---------- The code ----------

  method Make(process: Process, stdair: ServiceRef, sevmgr: Option<ServiceRef>, made: Made, crsCode: string)
    returns (s: Service)
    requires process.Valid()
    modifies process
    ensures fresh(s) && process.Valid() && s.context.Some? && s.context.value !in old(process.heap)
    ensures ServesAs(process, s, FirstUsage(stdair, sevmgr))
    ensures OthersKept(old(process.heap), process.heap, s.context.value)
  {
    if sevmgr.None? {
      s := new Service.Owning(process, stdair, made, crsCode);
    } else {
      s := new Service.Sharing(process, stdair, sevmgr.value, made, crsCode);
    }
    CreationKeepsOthers(old(process.View()), crsCode, s.context.value, s.Content());
  }

  method StartOne(se: Session, stdair: ServiceRef, sevmgr: Option<ServiceRef>, made: Made, crsCode: string)
    returns (se': Session)
    requires se.process.Valid() && se.Serving()
    modifies se.process
    ensures se'.process == se.process && se.process.Valid() && se'.Serving()
    ensures |se'.services| == |se.services| + 1 && se'.services[..|se.services|] == se.services
    ensures fresh(se'.services[|se.services|])
    ensures se'.usages == se.usages + [FirstUsage(stdair, sevmgr)]
  {
    var s := Make(se.process, stdair, sevmgr, made, crsCode);
    se.AllStay(s.context.value);
    se' := Session(se.process, se.services + [s], se.usages + [FirstUsage(stdair, sevmgr)]);
  }

  method DoOne(se: Session, i: nat, s: Service, op: Business)
    requires se.Serving() && InUse(se.usages, i) && s == se.services[i]
    modifies s`calls
    ensures se.(usages := Record(se.usages, Do(i, op))).Serving()
  {
    PlayOne(s, op);
    OneMore(se.usages[i], op);
    se.OthersStay(i);
  }

  lemma OneMore(u: Usage, op: Business)
    ensures u.creation + HistoryCalls(u.owns, u.ops + [op])
         == u.creation + HistoryCalls(u.owns, u.ops) + BusinessCalls(u.owns, op)
  {
    var ops := u.ops + [op];
    assert ops[..|u.ops|] == u.ops;
    HistoryStep(u.owns, ops, BusinessCalls(u.owns, op));
    Regroup(u.creation, HistoryCalls(u.owns, u.ops), BusinessCalls(u.owns, op));
  }

  method Drop(s: Service, ghost u: Usage)
    requires s.process.Accounted() && ServesAs(s.process, s, u)
    modifies s.process`heap
    ensures s.process.Accounted() && ServesAs(s.process, s, u.(finished := true))
    ensures old(s.process.Valid()) ==> s.process.Valid()
    ensures OthersKept(old(s.process.heap), s.process.heap, s.context.value)
  {
    s.Finalise();
  }

  method FinishOne(se: Session, i: nat)
    requires se.process.Accounted() && se.Serving() && InUse(se.usages, i)
    modifies se.process`heap
    ensures se.process.Accounted() && se.(usages := Record(se.usages, Finish(i))).Serving()
    ensures old(se.process.Valid()) ==> se.process.Valid()
  {
    assert ServesAs(se.process, se.services[i], se.usages[i]);
    Drop(se.services[i], se.usages[i]);
    se.OthersStay(i);
  }

  // ---------- All interleavings ----------

  method Handle(se: Session, e: Event) returns (se': Session)
    requires se.process.Valid() && se.Serving()
    modifies se.process, se.services
    ensures se'.process == se.process && se.process.Valid() && se'.Serving()
    ensures se'.usages == Record(se.usages, e)
    ensures |se.services| <= |se'.services|
    ensures forall i :: 0 <= i < |se'.services| ==>
      if i < |se.services| then se'.services[i] == se.services[i] else fresh(se'.services[i])
  {
    se' := se.(usages := Record(se.usages, e));
    match e {
      case Start(stdair, sevmgr, made, crsCode) =>
        se' := StartOne(se, stdair, sevmgr, made, crsCode);
      case Do(i, op) =>
        if InUse(se.usages, i) {
          DoOne(se, i, se.services[i], op);
        }
      case Finish(i) =>
        if InUse(se.usages, i) {
          FinishOne(se, i);
        }
    }
  }

  /** A service makes the other services once, in order and with its own StdAir, passing on an event
      manager exactly when it does not own StdAir; then it calls, in order and as often as its own
      operations need it, what these ask for. */
  ghost predicate CallsFollow(calls: seq<Call>, u: Usage) {
    && |calls| >= 3
    && calls[0].MakeSimfqt? && calls[1].MakeAirtsp? && calls[2].MakeAirinv?
    && calls[0].stdair == calls[1].stdair == calls[2].stdair && (calls[2].sevmgr.None? <==> u.owns)
    && InOrder(u.owns, calls[3..]) && Counted(u.owns, u.ops, calls[3..])
  }

  lemma {:induction false} CreationIsFill(events: seq<Event>, i: nat)
    requires i < |RecordAll(events)|
    ensures var u := RecordAll(events)[i];
      exists stdair, sevmgr: Option<ServiceRef> ::
        u.creation == FillCalls(stdair, sevmgr) && (sevmgr.None? <==> u.owns)
  {
    var front := RecordAll(events[..|events| - 1]);
    if i < |front| {
      CreationIsFill(events[..|events| - 1], i);
    }
  }

  lemma OwnCalls(events: seq<Event>, i: nat)
    requires i < |RecordAll(events)|
    ensures var u := RecordAll(events)[i];
      CallsFollow(u.creation + HistoryCalls(u.owns, u.ops), u)
  {
    var u := RecordAll(events)[i];
    CreationIsFill(events, i);
    HistoryLaws(u.owns, u.ops);
    assert |u.creation| == 3;
    assert (u.creation + HistoryCalls(u.owns, u.ops))[3..] == HistoryCalls(u.owns, u.ops);
  }

  lemma CallsFollowInSession(se: Session, events: seq<Event>)
    requires se.Serving() && se.usages == RecordAll(events)
    ensures forall i :: 0 <= i < |se.services| ==> CallsFollow(se.services[i].calls, se.usages[i])
  {
    forall i | 0 <= i < |se.services|
      ensures CallsFollow(se.services[i].calls, se.usages[i])
    {
      assert ServesAs(se.process, se.services[i], se.usages[i]);
      OwnCalls(events, i);
    }
  }

  // ---------- What is recorded of a service ----------

  /** The number of services made by `events`. */
  function Started(events: seq<Event>): nat {
    if events == [] then 0 else Started(events[..|events| - 1]) + (if events[|events| - 1].Start? then 1 else 0)
  }

  /** What service `i` is asked to do by `events`, until it is finalised. */
  function Asked(events: seq<Event>, i: nat): seq<Business> {
    if events == [] || events[0] == Finish(i) then []
    else (if events[0].Do? && events[0].i == i then [events[0].op] else []) + Asked(events[1..], i)
  }

  lemma {:induction false} AskedStep(events: seq<Event>, e: Event, i: nat)
    ensures Asked(events + [e], i)
         == Asked(events, i) + (if Finish(i) !in events && e.Do? && e.i == i then [e.op] else [])
  {
    var all := events + [e];
    if events == [] {
      assert all[1..] == [];
    } else {
      assert all[1..] == events[1..] + [e];
      AskedStep(events[1..], e, i);
      assert events == [events[0]] + events[1..];
    }
  }

  lemma {:induction false} StartedIsLength(events: seq<Event>)
    ensures |RecordAll(events)| == Started(events)
  {
    if events != [] {
      StartedIsLength(events[..|events| - 1]);
    }
  }

  /** The service that an event starts is recorded with that start, with exactly what it is asked to do
      from then on, and as finalised exactly when some later event finalises it. */
  lemma {:induction false} RecordedUsage(before: seq<Event>, start: Event, after: seq<Event>)
    requires start.Start?
    ensures var all, i := before + [start] + after, Started(before);
      i < |RecordAll(all)|
      && RecordAll(all)[i] == Usage(start.sevmgr.None?,
           [MakeSimfqt(start.stdair), MakeAirtsp(start.stdair), MakeAirinv(start.stdair, start.sevmgr)],
           Asked(after, i), Finish(i) in after)
    decreases |after|
  {
    var all, i := before + [start] + after, Started(before);
    StartedIsLength(before);
    if after == [] {
      assert all == before + [start] && all[..|before|] == before;
    } else {
      var front, e := after[..|after| - 1], after[|after| - 1];
      RecordedUsage(before, start, front);
      assert all == before + [start] + front + [e];
      RecordAllStep(before + [start] + front, e);
      assert after == front + [e];
      AskedStep(front, e, i);
      RecordAt(RecordAll(before + [start] + front), e, i);
    }
  }

  lemma RecordAllStep(events: seq<Event>, e: Event)
    ensures RecordAll(events + [e]) == Record(RecordAll(events), e)
  {
    assert (events + [e])[..|events|] == events;
  }

  /** One event and one service that was made before it. */
  lemma RecordAt(us: seq<Usage>, e: Event, i: nat)
    requires i < |us|
    ensures |us| <= |Record(us, e)|
    ensures Record(us, e)[i] == Usage(us[i].owns, us[i].creation,
      us[i].ops + (if !us[i].finished && e.Do? && e.i == i then [e.op] else []), us[i].finished || e == Finish(i))
  {
    assert us[i].ops + [] == us[i].ops;
  }

  method HandleEach(process: Process, events: seq<Event>) returns (se: Session)
    requires process.Valid()
    modifies process
    ensures se.process == process && process.Valid() && se.Serving()
    ensures se.usages == RecordAll(events)
  {
    se := Session(process, [], []);
    for k := 0 to |events|
      invariant se.process == process && process.Valid() && se.Serving()
      invariant se.usages == RecordAll(events[..k])
      invariant forall i :: 0 <= i < |se.services| ==> fresh(se.services[i])
    {
      assert events[..k + 1][..k] == events[..k];
      se := Handle(se, events[k]);
    }
    assert events[..|events|] == events;
  }

  /** Whatever sequence of services is made, used and finalised in a process: no getter fails, and
      each service has asked for what its own construction and its own business methods ask for,
      in order and as often.  In particular StdAir builds and clones for its owner only. */
  method HandleAll(process: Process, events: seq<Event>) returns (se: Session)
    requires process.Valid()
    modifies process
    ensures se.process == process && process.Valid() && se.Serving()
    ensures se.usages == RecordAll(events)
    ensures forall i :: 0 <= i < |se.services| ==> CallsFollow(se.services[i].calls, se.usages[i])
  {
    se := HandleEach(process, events);
    CallsFollowInSession(se, events);
  }
}
