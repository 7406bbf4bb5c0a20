/** Selling and cancelling a travel solution segment by segment.  AirInv decides each request; the
    one thing assumed about it is that a request it accepts moves the booking count of its class
    by the number of seats, and that a request it refuses changes nothing. */
module Distribution {
  import opened Sequences

  type ClassId = nat
  type Bookings = map<ClassId, int>

  datatype Request = Sale(id: ClassId, seats: int) | Cancellation(id: ClassId, seats: int)

  /** AirInv as an oracle: how it finds a class by segment key and class code, and what it accepts. */
  datatype Policy = Policy(resolve: (string, string) -> ClassId, accepts: (Bookings, Request) -> bool)

  /** The calls AirInv receives. */
  datatype Call =
    | SellById(id: ClassId, seats: int)
    | SellByKey(segment: string, code: string, seats: int)
    | Cancel(id: ClassId, seats: int)

  function Count(b: Bookings, id: ClassId): int {
    if id in b then b[id] else 0
  }

  function Delta(r: Request): int {
    if r.Sale? then r.seats else -r.seats
  }

  function Book(policy: Policy, b: Bookings, r: Request): Bookings {
    if policy.accepts(b, r) then b[r.id := Count(b, r.id) + Delta(r)] else b
  }

  /** The bookings after all requests, none of which stops the ones behind it. */
  function BookAll(policy: Policy, b: Bookings, rs: seq<Request>): Bookings {
    if rs == [] then b else Book(policy, BookAll(policy, b, rs[..|rs| - 1]), rs[|rs| - 1])
  }

  /** Whether each request was accepted. */
  function Verdicts(policy: Policy, b: Bookings, rs: seq<Request>): (v: seq<bool>)
    ensures |v| == |rs|
  {
    if rs == [] then []
    else Verdicts(policy, b, rs[..|rs| - 1]) + [policy.accepts(BookAll(policy, b, rs[..|rs| - 1]), rs[|rs| - 1])]
  }

  class AirInv {
    const policy: Policy
    var bookings: Bookings
    var calls: seq<Call>

    constructor (policy: Policy, bookings: Bookings)
      ensures this.policy == policy && this.bookings == bookings && calls == []
    {
      this.policy, this.bookings, calls := policy, bookings, [];
    }

    method Sell(id: ClassId, seats: int) returns (ok: bool)
      modifies this
      ensures ok == policy.accepts(old(bookings), Sale(id, seats))
      ensures bookings == Book(policy, old(bookings), Sale(id, seats))
      ensures calls == old(calls) + [SellById(id, seats)]
    {
      calls := calls + [SellById(id, seats)];
      ok := policy.accepts(bookings, Sale(id, seats));
      bookings := Book(policy, bookings, Sale(id, seats));
    }

    method SellOnSegment(segment: string, code: string, seats: int) returns (ok: bool)
      modifies this
      ensures ok == policy.accepts(old(bookings), Sale(policy.resolve(segment, code), seats))
      ensures bookings == Book(policy, old(bookings), Sale(policy.resolve(segment, code), seats))
      ensures calls == old(calls) + [SellByKey(segment, code, seats)]
    {
      calls := calls + [SellByKey(segment, code, seats)];
      ok := policy.accepts(bookings, Sale(policy.resolve(segment, code), seats));
      bookings := Book(policy, bookings, Sale(policy.resolve(segment, code), seats));
    }

    method CancelBooking(id: ClassId, seats: int) returns (ok: bool)
      modifies this
      ensures ok == policy.accepts(old(bookings), Cancellation(id, seats))
      ensures bookings == Book(policy, old(bookings), Cancellation(id, seats))
      ensures calls == old(calls) + [Cancel(id, seats)]
    {
      calls := calls + [Cancel(id, seats)];
      ok := policy.accepts(bookings, Cancellation(id, seats));
      bookings := Book(policy, bookings, Cancellation(id, seats));
    }
  }

  // ---------- The distribution commands ----------

  /** The class ID maps (one per segment, or none at all), the segment keys, and the class list
      chosen for each segment. */
  datatype TravelSolution = TravelSolution(
    classIds: seq<map<string, ClassId>>,
    segments: seq<string>,
    classPath: seq<string>)

  /** The first class of a list. */
  function ClassCode(classList: string): (code: string)
    requires classList != ""
    ensures code == classList[..1]
  {
    [classList[0]]
  }

  /** What `sell` assumes: a class list per segment, not empty, and known to the ID map. */
  predicate Sellable(ts: TravelSolution) {
    if ts.classIds != [] then
      && |ts.classIds| <= |ts.classPath|
      && forall i :: 0 <= i < |ts.classIds| ==> ts.classPath[i] != "" && ts.classPath[i][..1] in ts.classIds[i]
    else
      && |ts.segments| <= |ts.classPath|
      && forall i :: 0 <= i < |ts.segments| ==> ts.classPath[i] != ""
  }

  function PathLength(ts: TravelSolution): nat {
    if ts.classIds != [] then |ts.classIds| else |ts.segments|
  }

  /** The call for segment `i`, and the sale that it asks for. */
  function SegmentCall(ts: TravelSolution, i: nat, seats: int): Call
    requires Sellable(ts) && i < PathLength(ts)
  {
    if ts.classIds != [] then SellById(ts.classIds[i][ClassCode(ts.classPath[i])], seats)
    else SellByKey(ts.segments[i], ClassCode(ts.classPath[i]), seats)
  }

  function SegmentSale(policy: Policy, ts: TravelSolution, i: nat, seats: int): Request
    requires Sellable(ts) && i < PathLength(ts)
  {
    match SegmentCall(ts, i, seats)
    case SellById(id, _) => Sale(id, seats)
    case SellByKey(segment, code, _) => Sale(policy.resolve(segment, code), seats)
    case Cancel(id, _) => Sale(id, seats)
  }

  function SegmentCalls(ts: TravelSolution, n: nat, seats: int): seq<Call>
    requires Sellable(ts) && n <= PathLength(ts)
  {
    if n == 0 then [] else SegmentCalls(ts, n - 1, seats) + [SegmentCall(ts, n - 1, seats)]
  }

  function SegmentSales(policy: Policy, ts: TravelSolution, n: nat, seats: int): seq<Request>
    requires Sellable(ts) && n <= PathLength(ts)
  {
    if n == 0 then [] else SegmentSales(policy, ts, n - 1, seats) + [SegmentSale(policy, ts, n - 1, seats)]
  }

  function Last(v: seq<bool>): bool {
    v != [] && v[|v| - 1]
  }

  /** The requests `rs` lead from `start` to `now`, the last of them with verdict `ok`. */
  ghost predicate Requested(policy: Policy, start: Bookings, rs: seq<Request>, now: Bookings, ok: bool) {
    now == BookAll(policy, start, rs) && ok == Last(Verdicts(policy, start, rs))
  }

  lemma RequestedStep(policy: Policy, start: Bookings, rs: seq<Request>, r: Request, now: Bookings, ok: bool)
    requires Requested(policy, start, rs, now, ok)
    ensures Requested(policy, start, rs + [r], Book(policy, now, r), policy.accepts(now, r))
  {
    assert (rs + [r])[..|rs|] == rs;
  }

  /** The calls of a sale, segment by segment: for the ID that the segment's map has for the first
      class of its list, or for the segment's key and that class. */
  ghost predicate SoldInOrder(ts: TravelSolution, seats: int, calls: seq<Call>)
    requires Sellable(ts)
  {
    if ts.classIds != [] then
      && |calls| == |ts.classIds|
      && forall i :: 0 <= i < |calls| ==> calls[i] == SellById(ts.classIds[i][ts.classPath[i][..1]], seats)
    else
      && |calls| == |ts.segments|
      && forall i :: 0 <= i < |calls| ==> calls[i] == SellByKey(ts.segments[i], ts.classPath[i][..1], seats)
  }

  lemma CallsAreInOrder(ts: TravelSolution, seats: int)
    requires Sellable(ts)
    ensures SoldInOrder(ts, seats, SegmentCalls(ts, PathLength(ts), seats))
  {
    var calls := SegmentCalls(ts, PathLength(ts), seats);
    assert PathLength(ts) == 0 ==> calls == [];
    forall i | 0 <= i < PathLength(ts)
      ensures |calls| == PathLength(ts) && calls[i] == SegmentCall(ts, i, seats)
    {
      CallAt(ts, PathLength(ts), seats, i);
    }
  }

  /** The flag is the verdict on the last request, after all others; false without any. */
  lemma LastVerdict(policy: Policy, b: Bookings, rs: seq<Request>)
    ensures Last(Verdicts(policy, b, rs)) <==>
      rs != [] && policy.accepts(BookAll(policy, b, rs[..|rs| - 1]), rs[|rs| - 1])
  {
  }

  lemma {:induction false} CallAt(ts: TravelSolution, n: nat, seats: int, i: nat)
    requires Sellable(ts) && i < n <= PathLength(ts)
    ensures |SegmentCalls(ts, n, seats)| == n && SegmentCalls(ts, n, seats)[i] == SegmentCall(ts, i, seats)
  {
    if i < n - 1 {
      CallAt(ts, n - 1, seats, i);
    } else if n > 1 {
      CallAt(ts, n - 1, seats, 0);
    }
  }

  method SellSolution(inventory: AirInv, ts: TravelSolution, partySize: int) returns (successful: bool)
    requires Sellable(ts)
    modifies inventory
    ensures Requested(inventory.policy, old(inventory.bookings),
                      SegmentSales(inventory.policy, ts, PathLength(ts), partySize),
                      inventory.bookings, successful)
    ensures inventory.calls == old(inventory.calls) + SegmentCalls(ts, PathLength(ts), partySize)
    ensures |old(inventory.calls)| <= |inventory.calls|
    ensures SoldInOrder(ts, partySize, inventory.calls[|old(inventory.calls)|..])
    ensures PathLength(ts) == 0 ==> !successful
  {
    CallsAreInOrder(ts, partySize);
    ghost var before := inventory.calls;
    LastVerdict(inventory.policy, inventory.bookings, SegmentSales(inventory.policy, ts, PathLength(ts), partySize));
    if |ts.classIds| > 0 {
      successful := SellByClassIds(inventory, ts, partySize);
    } else {
      successful := SellBySegments(inventory, ts, partySize);
    }
    assert inventory.calls[|before|..] == SegmentCalls(ts, PathLength(ts), partySize);
  }

  method SellByClassIds(inventory: AirInv, ts: TravelSolution, partySize: int) returns (successful: bool)
    requires Sellable(ts) && ts.classIds != []
    modifies inventory
    ensures Requested(inventory.policy, old(inventory.bookings),
                      SegmentSales(inventory.policy, ts, PathLength(ts), partySize),
                      inventory.bookings, successful)
    ensures inventory.calls == old(inventory.calls) + SegmentCalls(ts, PathLength(ts), partySize)
  {
    successful := false;
    ghost var sales := [];
    for i := 0 to |ts.classIds|
      invariant sales == SegmentSales(inventory.policy, ts, i, partySize)
      invariant Requested(inventory.policy, old(inventory.bookings), sales, inventory.bookings, successful)
      invariant inventory.calls == old(inventory.calls) + SegmentCalls(ts, i, partySize)
    {
      var classCode := ClassCode(ts.classPath[i]);
      var classId := ts.classIds[i][classCode];
      RequestedStep(inventory.policy, old(inventory.bookings), sales, Sale(classId, partySize),
                    inventory.bookings, successful);
      sales := sales + [Sale(classId, partySize)];
      successful := inventory.Sell(classId, partySize);
    }
  }

  method SellBySegments(inventory: AirInv, ts: TravelSolution, partySize: int) returns (successful: bool)
    requires Sellable(ts) && ts.classIds == []
    modifies inventory
    ensures Requested(inventory.policy, old(inventory.bookings),
                      SegmentSales(inventory.policy, ts, PathLength(ts), partySize),
                      inventory.bookings, successful)
    ensures inventory.calls == old(inventory.calls) + SegmentCalls(ts, PathLength(ts), partySize)
  {
    successful := false;
    ghost var sales := [];
    for i := 0 to |ts.segments|
      invariant sales == SegmentSales(inventory.policy, ts, i, partySize)
      invariant Requested(inventory.policy, old(inventory.bookings), sales, inventory.bookings, successful)
      invariant inventory.calls == old(inventory.calls) + SegmentCalls(ts, i, partySize)
    {
      var classCode := ClassCode(ts.classPath[i]);
      ghost var sale := Sale(inventory.policy.resolve(ts.segments[i], classCode), partySize);
      RequestedStep(inventory.policy, old(inventory.bookings), sales, sale, inventory.bookings, successful);
      sales := sales + [sale];
      successful := inventory.SellOnSegment(ts.segments[i], classCode, partySize);
    }
  }

  function Cancellations(ids: seq<ClassId>, seats: int): seq<Request> {
    if ids == [] then [] else Cancellations(ids[..|ids| - 1], seats) + [Cancellation(ids[|ids| - 1], seats)]
  }

  function CancelCalls(ids: seq<ClassId>, seats: int): seq<Call> {
    if ids == [] then [] else CancelCalls(ids[..|ids| - 1], seats) + [Cancel(ids[|ids| - 1], seats)]
  }

  lemma {:induction false} CancelCallsAt(ids: seq<ClassId>, seats: int)
    ensures |CancelCalls(ids, seats)| == |ids|
    ensures forall i :: 0 <= i < |ids| ==> CancelCalls(ids, seats)[i] == Cancel(ids[i], seats)
  {
    if ids != [] {
      CancelCallsAt(ids[..|ids| - 1], seats);
    }
  }

  method PlayCancellation(inventory: AirInv, ids: seq<ClassId>, partySize: int) returns (successful: bool)
    modifies inventory
    ensures Requested(inventory.policy, old(inventory.bookings), Cancellations(ids, partySize),
                      inventory.bookings, successful)
    ensures inventory.calls == old(inventory.calls) + CancelCalls(ids, partySize)
    ensures |inventory.calls| == |old(inventory.calls)| + |ids|
    ensures forall i :: 0 <= i < |ids| ==> inventory.calls[|old(inventory.calls)| + i] == Cancel(ids[i], partySize)
    ensures ids == [] ==> !successful
  {
    successful := false;
    ghost var requests := [];
    for i := 0 to |ids|
      invariant requests == Cancellations(ids[..i], partySize)
      invariant Requested(inventory.policy, old(inventory.bookings), requests, inventory.bookings, successful)
      invariant inventory.calls == old(inventory.calls) + CancelCalls(ids[..i], partySize)
    {
      assert ids[..i + 1][..i] == ids[..i];
      RequestedStep(inventory.policy, old(inventory.bookings), requests, Cancellation(ids[i], partySize),
                    inventory.bookings, successful);
      requests := requests + [Cancellation(ids[i], partySize)];
      successful := inventory.CancelBooking(ids[i], partySize);
    }
    assert ids[..|ids|] == ids;
    CancelCallsAt(ids, partySize);
  }

  // ---------- Both branches of a sale do the same ----------

  /** Both branches can be taken: there is an ID map and a class list per segment. */
  predicate BothBranches(ts: TravelSolution) {
    ts.classIds != [] && |ts.segments| == |ts.classIds| && Sellable(ts)
  }

  function WithoutIds(ts: TravelSolution): (r: TravelSolution)
    ensures BothBranches(ts) ==> Sellable(r) && PathLength(r) == PathLength(ts)
  {
    ts.(classIds := [])
  }

  /** Each segment's ID map holds the class that AirInv finds by segment key and class code. */
  ghost predicate MapsAgree(policy: Policy, ts: TravelSolution)
    requires BothBranches(ts)
  {
    forall i :: 0 <= i < |ts.segments| ==>
      ts.classIds[i][ts.classPath[i][..1]] == policy.resolve(ts.segments[i], ts.classPath[i][..1])
  }

  lemma {:induction false} SaleAt(policy: Policy, ts: TravelSolution, n: nat, seats: int, i: nat)
    requires Sellable(ts) && i < n <= PathLength(ts)
    ensures |SegmentSales(policy, ts, n, seats)| == n
    ensures SegmentSales(policy, ts, n, seats)[i] == SegmentSale(policy, ts, i, seats)
  {
    if i < n - 1 {
      SaleAt(policy, ts, n - 1, seats, i);
    } else {
      SalesAreSales(policy, ts, n - 1, seats);
    }
  }

  /** Selling by class ID and selling by segment ask for the same sales exactly when the ID maps
      hold what AirInv finds. */
  lemma BranchesAgree(policy: Policy, ts: TravelSolution, seats: int)
    requires BothBranches(ts)
    ensures SegmentSales(policy, ts, PathLength(ts), seats)
            == SegmentSales(policy, WithoutIds(ts), PathLength(ts), seats)
            <==> MapsAgree(policy, ts)
  {
    var n := PathLength(ts);
    var byId, bySegment := SegmentSales(policy, ts, n, seats), SegmentSales(policy, WithoutIds(ts), n, seats);
    forall i | 0 <= i < n
      ensures |byId| == |bySegment| == n
      ensures byId[i] == Sale(ts.classIds[i][ClassCode(ts.classPath[i])], seats)
      ensures bySegment[i] == Sale(policy.resolve(ts.segments[i], ClassCode(ts.classPath[i])), seats)
    {
      SaleAt(policy, ts, n, seats, i);
      SaleAt(policy, WithoutIds(ts), n, seats, i);
    }
  }

  /** The two loops, run on two inventories in the same state, end in the same state with the same
      result. */
  method SellBothWays(x: AirInv, y: AirInv, ts: TravelSolution, partySize: int) returns (okX: bool, okY: bool)
    requires x != y && x.policy == y.policy && x.bookings == y.bookings
    requires BothBranches(ts) && MapsAgree(x.policy, ts)
    modifies x, y
    ensures x.bookings == y.bookings && okX == okY
  {
    BranchesAgree(x.policy, ts, partySize);
    okX := SellSolution(x, ts, partySize);
    okY := SellSolution(y, WithoutIds(ts), partySize);
  }

  // ---------- And only then ----------

  /** An inventory that accepts requests for `x` and `y` until `limit` seats are booked in them. */
  function FillTo(resolve: (string, string) -> ClassId, x: ClassId, y: ClassId, limit: int): Policy {
    Policy(resolve, (b, r: Request) => r.id in {x, y} && Count(b, x) + Count(b, y) < limit)
  }

  function Occurrences(rs: seq<Request>, ids: set<ClassId>): nat {
    if rs == [] then 0
    else Occurrences(rs[..|rs| - 1], ids) + (if rs[|rs| - 1].id in ids then 1 else 0)
  }

  /** The seats of `k` parties. */
  function Times(seats: int, k: nat): int {
    if k == 0 then 0 else Times(seats, k - 1) + seats
  }

  lemma {:induction false} TimesAdds(seats: int, j: nat, k: nat)
    ensures Times(seats, j + k) == Times(seats, j) + Times(seats, k)
  {
    if k > 0 {
      TimesAdds(seats, j, k - 1);
    }
  }

  lemma {:induction false} TimesGrows(seats: int, j: nat, k: nat)
    requires seats > 0 && j < k
    ensures Times(seats, j) < Times(seats, k)
  {
    if j < k - 1 {
      TimesGrows(seats, j, k - 1);
    }
  }

  lemma {:induction false} OccurrencesOfBoth(rs: seq<Request>, x: ClassId, y: ClassId)
    requires x != y
    ensures Occurrences(rs, {x, y}) == Occurrences(rs, {x}) + Occurrences(rs, {y})
  {
    if rs != [] {
      OccurrencesOfBoth(rs[..|rs| - 1], x, y);
    }
  }

  /** Until it is full it accepts every request for the two classes. */
  lemma {:induction false} Filling(policy: Policy, rs: seq<Request>, x: ClassId, y: ClassId, n: nat, seats: int)
    requires policy == FillTo(policy.resolve, x, y, Times(seats, n)) && x != y && seats > 0 && AllSales(rs, seats)
    requires Occurrences(rs, {x, y}) <= n
    ensures Count(BookAll(policy, map[], rs), x) == Times(seats, Occurrences(rs, {x}))
    ensures Count(BookAll(policy, map[], rs), y) == Times(seats, Occurrences(rs, {y}))
  {
    if rs != [] {
      var front, last := rs[..|rs| - 1], rs[|rs| - 1];
      assert last in rs && forall r :: r in front ==> r in rs;
      Filling(policy, front, x, y, n, seats);
      OccurrencesOfBoth(front, x, y);
      FillOne(policy, BookAll(policy, map[], front), last, x, y, n, seats,
              Occurrences(front, {x}), Occurrences(front, {y}));
    }
  }

  lemma FillOne(policy: Policy, b: Bookings, r: Request, x: ClassId, y: ClassId, n: nat, seats: int, i: nat, j: nat)
    requires policy == FillTo(policy.resolve, x, y, Times(seats, n)) && x != y && seats > 0 && r == Sale(r.id, seats)
    requires Count(b, x) == Times(seats, i) && Count(b, y) == Times(seats, j) && (r.id in {x, y} ==> i + j < n)
    ensures Count(Book(policy, b, r), x) == Times(seats, i + if r.id == x then 1 else 0)
    ensures Count(Book(policy, b, r), y) == Times(seats, j + if r.id == y then 1 else 0)
  {
    TimesAdds(seats, i, j);
    if r.id in {x, y} {
      TimesGrows(seats, i + j, n);
      assert policy.accepts(b, r);
    }
  }

  /** Once it is full it accepts nothing. */
  lemma {:induction false} Full(policy: Policy, rs: seq<Request>, x: ClassId, y: ClassId, n: nat, seats: int, k: nat)
    requires policy == FillTo(policy.resolve, x, y, Times(seats, n)) && k <= |rs|
    requires Count(BookAll(policy, map[], rs[..k]), x) + Count(BookAll(policy, map[], rs[..k]), y) == Times(seats, n)
    ensures BookAll(policy, map[], rs) == BookAll(policy, map[], rs[..k])
  {
    if k < |rs| {
      var front := rs[..|rs| - 1];
      assert front[..k] == rs[..k];
      Full(policy, front, x, y, n, seats, k);
    } else {
      assert rs[..k] == rs;
    }
  }

  lemma FilledUpTo(policy: Policy, rs: seq<Request>, x: ClassId, y: ClassId, n: nat, seats: int, i: nat)
    requires policy == FillTo(policy.resolve, x, y, Times(seats, n)) && x != y && seats > 0 && AllSales(rs, seats)
    requires i < |rs| && rs[i].id in {x, y} && n == Occurrences(rs[..i], {x, y}) + 1
    ensures Count(BookAll(policy, map[], rs), x)
         == Times(seats, Occurrences(rs[..i], {x}) + if rs[i].id == x then 1 else 0)
  {
    var part := rs[..i + 1];
    assert forall r :: r in part ==> r in rs;
    OccurrencesStep(rs, {x, y}, i);
    OccurrencesStep(rs, {x}, i);
    JustFull(policy, part, x, y, n, seats);
    Full(policy, rs, x, y, n, seats, i + 1);
  }

  lemma OccurrencesStep(rs: seq<Request>, ids: set<ClassId>, i: nat)
    requires i < |rs|
    ensures Occurrences(rs[..i + 1], ids) == Occurrences(rs[..i], ids) + if rs[i].id in ids then 1 else 0
  {
    assert rs[..i + 1][..i] == rs[..i];
  }

  lemma JustFull(policy: Policy, rs: seq<Request>, x: ClassId, y: ClassId, n: nat, seats: int)
    requires policy == FillTo(policy.resolve, x, y, Times(seats, n)) && x != y && seats > 0 && AllSales(rs, seats)
    requires Occurrences(rs, {x, y}) == n
    ensures Count(BookAll(policy, map[], rs), x) == Times(seats, Occurrences(rs, {x}))
    ensures Count(BookAll(policy, map[], rs), x) + Count(BookAll(policy, map[], rs), y) == Times(seats, n)
  {
    Filling(policy, rs, x, y, n, seats);
    OccurrencesOfBoth(rs, x, y);
    TimesAdds(seats, Occurrences(rs, {x}), Occurrences(rs, {y}));
  }

  /** An inventory tells two lists of sales apart. */
  ghost predicate TellsApart(policy: Policy, rs: seq<Request>, qs: seq<Request>) {
    BookAll(policy, map[], rs) != BookAll(policy, map[], qs)
  }

  /** Two lists of sales that differ are told apart by some inventory. */
  lemma ListsCanBeToldApart(resolve: (string, string) -> ClassId, rs: seq<Request>, qs: seq<Request>, i: nat,
                            seats: int)
    returns (policy: Policy)
    requires seats > 0 && AllSales(rs, seats) && AllSales(qs, seats)
    requires i < |rs| == |qs| && rs[..i] == qs[..i] && rs[i] != qs[i]
    ensures policy.resolve == resolve && TellsApart(policy, rs, qs)
  {
    assert rs[i] in rs && qs[i] in qs;
    var x, y := rs[i].id, qs[i].id;
    var n := Occurrences(rs[..i], {x, y}) + 1;
    policy := FillTo(resolve, x, y, Times(seats, n));
    FilledUpTo(policy, rs, x, y, n, seats, i);
    FilledUpTo(policy, qs, x, y, n, seats, i);
    TimesGrows(seats, Occurrences(rs[..i], {x}), Occurrences(rs[..i], {x}) + 1);
  }

  /** For every inventory that finds classes as `policy` does, whatever it accepts and whatever is
      booked, the two branches end in the same state with the same result: exactly when the ID
      maps hold what AirInv finds. */
  lemma OutcomesAgree(policy: Policy, ts: TravelSolution, seats: int)
    requires BothBranches(ts) && seats > 0
    ensures (forall p: Policy, b: Bookings :: p.resolve == policy.resolve ==>
               SameOutcome(p, b, SegmentSales(p, ts, PathLength(ts), seats),
                           SegmentSales(p, WithoutIds(ts), PathLength(ts), seats)))
            <==> MapsAgree(policy, ts)
  {
    var n := PathLength(ts);
    forall p: Policy | p.resolve == policy.resolve
      ensures SegmentSales(p, ts, n, seats) == SegmentSales(p, WithoutIds(ts), n, seats) <==> MapsAgree(policy, ts)
    {
      BranchesAgree(p, ts, seats);
    }
    if !MapsAgree(policy, ts) {
      var rs, qs := SegmentSales(policy, ts, n, seats), SegmentSales(policy, WithoutIds(ts), n, seats);
      SalesAreSales(policy, ts, n, seats);
      SalesAreSales(policy, WithoutIds(ts), n, seats);
      var i := FirstDifference(rs, qs);
      var p := ListsCanBeToldApart(policy.resolve, rs, qs, i, seats);
      SalesNeedOnlyResolve(p, policy, ts, n, seats);
      SalesNeedOnlyResolve(p, policy, WithoutIds(ts), n, seats);
      assert !SameOutcome(p, map[], SegmentSales(p, ts, n, seats), SegmentSales(p, WithoutIds(ts), n, seats));
    }
  }

  ghost predicate SameOutcome(policy: Policy, b: Bookings, rs: seq<Request>, qs: seq<Request>) {
    && BookAll(policy, b, rs) == BookAll(policy, b, qs)
    && Last(Verdicts(policy, b, rs)) == Last(Verdicts(policy, b, qs))
  }

  lemma {:induction false} SalesNeedOnlyResolve(p: Policy, q: Policy, ts: TravelSolution, n: nat, seats: int)
    requires p.resolve == q.resolve && Sellable(ts) && n <= PathLength(ts)
    ensures SegmentSales(p, ts, n, seats) == SegmentSales(q, ts, n, seats)
  {
    if n > 0 {
      SalesNeedOnlyResolve(p, q, ts, n - 1, seats);
    }
  }

  lemma {:induction false} FirstDifference(rs: seq<Request>, qs: seq<Request>) returns (i: nat)
    requires |rs| == |qs| && rs != qs
    ensures i < |rs| && rs[..i] == qs[..i] && rs[i] != qs[i]
  {
    var n := |rs| - 1;
    if rs[..n] != qs[..n] {
      i := FirstDifference(rs[..n], qs[..n]);
      assert rs[..n][..i] == rs[..i] && qs[..n][..i] == qs[..i];
    } else {
      i := n;
      assert rs == rs[..n] + [rs[n]] && qs == qs[..n] + [qs[n]];
    }
  }

  // ---------- Conservation ----------

  /** How far the accepted requests for class `id` move its count. */
  function Moved(rs: seq<Request>, v: seq<bool>, id: ClassId): int
    requires |rs| == |v|
  {
    if rs == [] then 0
    else
      var n := |rs| - 1;
      Moved(rs[..n], v[..n], id) + (if v[n] && rs[n].id == id then Delta(rs[n]) else 0)
  }

  /** How many of the requests for class `id` were accepted. */
  function Accepted(rs: seq<Request>, v: seq<bool>, id: ClassId): nat
    requires |rs| == |v|
  {
    if rs == [] then 0
    else
      var n := |rs| - 1;
      Accepted(rs[..n], v[..n], id) + (if v[n] && rs[n].id == id then 1 else 0)
  }

  lemma {:induction false} CountsMove(policy: Policy, b: Bookings, rs: seq<Request>, id: ClassId)
    ensures Count(BookAll(policy, b, rs), id) == Count(b, id) + Moved(rs, Verdicts(policy, b, rs), id)
  {
    if rs != [] {
      var n := |rs| - 1;
      CountsMove(policy, b, rs[..n], id);
      assert Verdicts(policy, b, rs)[..n] == Verdicts(policy, b, rs[..n]);
    }
  }

  ghost predicate AllSales(rs: seq<Request>, seats: int) {
    forall r :: r in rs ==> r.Sale? && r.seats == seats
  }

  ghost predicate AllCancellations(rs: seq<Request>, seats: int) {
    forall r :: r in rs ==> r.Cancellation? && r.seats == seats
  }

  ghost predicate AllTrue(v: seq<bool>) {
    forall i :: 0 <= i < |v| ==> v[i]
  }

  function Ids(rs: seq<Request>): seq<ClassId> {
    if rs == [] then [] else Ids(rs[..|rs| - 1]) + [rs[|rs| - 1].id]
  }

  lemma {:induction false} SalesAreSales(policy: Policy, ts: TravelSolution, n: nat, seats: int)
    requires Sellable(ts) && n <= PathLength(ts)
    ensures AllSales(SegmentSales(policy, ts, n, seats), seats) && |SegmentSales(policy, ts, n, seats)| == n
  {
    if n > 0 {
      SalesAreSales(policy, ts, n - 1, seats);
    }
  }

  lemma {:induction false} CancellationsCancel(ids: seq<ClassId>, seats: int)
    ensures AllCancellations(Cancellations(ids, seats), seats) && Ids(Cancellations(ids, seats)) == ids
    ensures |Cancellations(ids, seats)| == |ids|
  {
    if ids != [] {
      var front := ids[..|ids| - 1];
      CancellationsCancel(front, seats);
      var rs := Cancellations(ids, seats);
      assert rs[..|rs| - 1] == Cancellations(front, seats);
      assert ids == front + [ids[|ids| - 1]];
    }
  }

  lemma {:induction false} MovedBySales(rs: seq<Request>, v: seq<bool>, id: ClassId, seats: int)
    requires |rs| == |v| && AllSales(rs, seats)
    ensures Moved(rs, v, id) == seats * Accepted(rs, v, id)
  {
    if rs != [] {
      var n := |rs| - 1;
      assert rs[n] in rs;
      MovedBySales(rs[..n], v[..n], id, seats);
    }
  }

  lemma {:induction false} MovedByCancellations(rs: seq<Request>, v: seq<bool>, id: ClassId, seats: int)
    requires |rs| == |v| && AllCancellations(rs, seats)
    ensures Moved(rs, v, id) == -(seats * Accepted(rs, v, id))
  {
    if rs != [] {
      var n := |rs| - 1;
      assert rs[n] in rs;
      MovedByCancellations(rs[..n], v[..n], id, seats);
    }
  }

  /** At most as many requests for a class are accepted as there are; all, if all are. */
  lemma {:induction false} AcceptedOccurrences(rs: seq<Request>, v: seq<bool>, id: ClassId)
    requires |rs| == |v|
    ensures Accepted(rs, v, id) <= multiset(Ids(rs))[id]
    ensures AllTrue(v) ==> Accepted(rs, v, id) == multiset(Ids(rs))[id]
  {
    if rs != [] {
      var n := |rs| - 1;
      AcceptedOccurrences(rs[..n], v[..n], id);
    }
  }

  /** A sale moves each count by the party size for every accepted segment of the class. */
  lemma SaleConserves(policy: Policy, b: Bookings, ts: TravelSolution, seats: int, id: ClassId)
    requires Sellable(ts)
    ensures var sales := SegmentSales(policy, ts, PathLength(ts), seats);
      Count(BookAll(policy, b, sales), id) == Count(b, id) + seats * Accepted(sales, Verdicts(policy, b, sales), id)
  {
    var sales := SegmentSales(policy, ts, PathLength(ts), seats);
    SalesAreSales(policy, ts, PathLength(ts), seats);
    CountsMove(policy, b, sales, id);
    MovedBySales(sales, Verdicts(policy, b, sales), id, seats);
  }

  lemma CancellationConserves(policy: Policy, b: Bookings, ids: seq<ClassId>, seats: int, id: ClassId)
    ensures var cancels := Cancellations(ids, seats);
      |cancels| == |ids|
      && Count(BookAll(policy, b, cancels), id)
        == Count(b, id) - seats * Accepted(cancels, Verdicts(policy, b, cancels), id)
  {
    var cancels := Cancellations(ids, seats);
    CancellationsCancel(ids, seats);
    CountsMove(policy, b, cancels, id);
    MovedByCancellations(cancels, Verdicts(policy, b, cancels), id, seats);
  }

  /** Selling and then cancelling restores a count exactly when as many of its cancellations as of
      its sales were accepted (or the party is empty). */
  lemma RoundTrip(policy: Policy, b: Bookings, ts: TravelSolution, ids: seq<ClassId>, seats: int, id: ClassId)
    requires Sellable(ts)
    ensures var sales, cancels := SegmentSales(policy, ts, PathLength(ts), seats), Cancellations(ids, seats);
      var sold := BookAll(policy, b, sales);
      Count(BookAll(policy, sold, cancels), id) == Count(b, id)
      <==> seats == 0
           || Accepted(sales, Verdicts(policy, b, sales), id) == Accepted(cancels, Verdicts(policy, sold, cancels), id)
  {
    var sales, cancels := SegmentSales(policy, ts, PathLength(ts), seats), Cancellations(ids, seats);
    var sold := BookAll(policy, b, sales);
    SaleConserves(policy, b, ts, seats, id);
    CancellationConserves(policy, sold, ids, seats, id);
    ProductsDiffer(seats, Accepted(sales, Verdicts(policy, b, sales), id),
                   Accepted(cancels, Verdicts(policy, sold, cancels), id));
  }

  lemma ProductsDiffer(n: int, x: int, y: int)
    ensures n * x == n * y <==> n == 0 || x == y
  {
    assert n * x - n * y == n * (x - y);
  }

  /** When every segment was sold, cancelling any permutation of the sold classes, all of it
      accepted, restores every count. */
  lemma PermutationRestores(policy: Policy, b: Bookings, ts: TravelSolution, ids: seq<ClassId>, seats: int, id: ClassId)
    requires Sellable(ts)
    requires var sales := SegmentSales(policy, ts, PathLength(ts), seats);
      && multiset(ids) == multiset(Ids(sales))
      && AllTrue(Verdicts(policy, b, sales))
      && AllTrue(Verdicts(policy, BookAll(policy, b, sales), Cancellations(ids, seats)))
    ensures var sold := BookAll(policy, b, SegmentSales(policy, ts, PathLength(ts), seats));
      Count(BookAll(policy, sold, Cancellations(ids, seats)), id) == Count(b, id)
  {
    var sales, cancels := SegmentSales(policy, ts, PathLength(ts), seats), Cancellations(ids, seats);
    CancellationsCancel(ids, seats);
    AcceptedOccurrences(sales, Verdicts(policy, b, sales), id);
    AcceptedOccurrences(cancels, Verdicts(policy, BookAll(policy, b, sales), cancels), id);
    RoundTrip(policy, b, ts, ids, seats, id);
  }

  /** On the way, whatever is accepted of it, no count drops below where it started. */
  lemma NeverBelowStart(policy: Policy, b: Bookings, ts: TravelSolution, ids: seq<ClassId>, seats: nat, k: nat,
                        id: ClassId)
    requires Sellable(ts) && k <= |ids|
    requires AllTrue(Verdicts(policy, b, SegmentSales(policy, ts, PathLength(ts), seats)))
    requires multiset(ids) == multiset(Ids(SegmentSales(policy, ts, PathLength(ts), seats)))
    ensures var sold := BookAll(policy, b, SegmentSales(policy, ts, PathLength(ts), seats));
      Count(BookAll(policy, sold, Cancellations(ids[..k], seats)), id) >= Count(b, id)
  {
    var sales := SegmentSales(policy, ts, PathLength(ts), seats);
    var sold, part := BookAll(policy, b, sales), Cancellations(ids[..k], seats);
    SaleConserves(policy, b, ts, seats, id);
    AcceptedOccurrences(sales, Verdicts(policy, b, sales), id);
    CancellationsCancel(ids[..k], seats);
    CancellationConserves(policy, sold, ids[..k], seats, id);
    AcceptedOccurrences(part, Verdicts(policy, sold, part), id);
    PartOccurs(ids, k, id);
    ProductsOrdered(seats, Accepted(part, Verdicts(policy, sold, part), id),
                    Accepted(sales, Verdicts(policy, b, sales), id));
  }

  lemma PartOccurs(ids: seq<ClassId>, k: nat, id: ClassId)
    requires k <= |ids|
    ensures multiset(ids[..k])[id] <= multiset(ids)[id]
  {
    assert ids == ids[..k] + ids[k..];
    assert multiset(ids) == multiset(ids[..k]) + multiset(ids[k..]);
  }

  lemma ProductsOrdered(n: nat, x: nat, y: nat)
    requires x <= y
    ensures n * x <= n * y
  {
    assert n * y - n * x == n * (y - x);
  }

  // ---------- Totals ----------

  /** The seats booked in all of `classes`. */
  function Total(b: Bookings, classes: seq<ClassId>): int {
    if classes == [] then 0 else Count(b, classes[0]) + Total(b, classes[1..])
  }

  function Trues(v: seq<bool>): nat {
    if v == [] then 0 else Trues(v[..|v| - 1]) + (if v[|v| - 1] then 1 else 0)
  }

  lemma {:induction false} TotalUpdate(b: Bookings, classes: seq<ClassId>, id: ClassId, delta: int)
    requires Distinct(classes)
    ensures Total(b[id := Count(b, id) + delta], classes) == Total(b, classes) + (if id in classes then delta else 0)
  {
    if classes != [] {
      TotalUpdate(b, classes[1..], id, delta);
      assert id in classes <==> id == classes[0] || id in classes[1..];
    }
  }

  lemma {:induction false} TotalMoves(policy: Policy, b: Bookings, rs: seq<Request>, classes: seq<ClassId>, delta: int)
    requires Distinct(classes)
    requires forall r :: r in rs ==> r.id in classes && Delta(r) == delta
    ensures Total(BookAll(policy, b, rs), classes) == Total(b, classes) + delta * Trues(Verdicts(policy, b, rs))
  {
    if rs != [] {
      var front, last := rs[..|rs| - 1], rs[|rs| - 1];
      assert last in rs && forall r :: r in front ==> r in rs;
      TotalMoves(policy, b, front, classes, delta);
      TotalStep(policy, BookAll(policy, b, front), last, classes);
      TruesStep(Verdicts(policy, b, front), policy.accepts(BookAll(policy, b, front), last), delta);
    }
  }

  lemma TotalStep(policy: Policy, b: Bookings, r: Request, classes: seq<ClassId>)
    requires Distinct(classes)
    requires r.id in classes
    ensures Total(Book(policy, b, r), classes) == Total(b, classes) + (if policy.accepts(b, r) then Delta(r) else 0)
  {
    TotalUpdate(b, classes, r.id, Delta(r));
  }

  lemma TruesStep(v: seq<bool>, ok: bool, delta: int)
    ensures delta * Trues(v + [ok]) == delta * Trues(v) + (if ok then delta else 0)
  {
    assert (v + [ok])[..|v|] == v;
  }

  /** A sale changes the total over any set of classes that contains the sold ones by the party
      size times the number of accepted segments. */
  lemma SaleMovesTotal(policy: Policy, b: Bookings, ts: TravelSolution, seats: int, classes: seq<ClassId>)
    requires Sellable(ts)
    requires Distinct(classes)
    requires forall r :: r in SegmentSales(policy, ts, PathLength(ts), seats) ==> r.id in classes
    ensures var sales := SegmentSales(policy, ts, PathLength(ts), seats);
      Total(BookAll(policy, b, sales), classes) == Total(b, classes) + seats * Trues(Verdicts(policy, b, sales))
  {
    SalesAreSales(policy, ts, PathLength(ts), seats);
    TotalMoves(policy, b, SegmentSales(policy, ts, PathLength(ts), seats), classes, seats);
  }

  // ---------- What the returned flag says ----------

  /** A true flag certifies that every segment was sold, for every inventory and every path of `n`
      segments, exactly when there is at most one: the flag is that of the last segment alone. */
  lemma FlagCertifiesSale(n: nat)
    ensures (forall policy, b, rs :: |rs| == n && AllSales(rs, 1) && Last(Verdicts(policy, b, rs)) ==>
               AllTrue(Verdicts(policy, b, rs)))
            <==> n <= 1
  {
    if n >= 2 {
      var policy := Policy((_, _) => 0, (_, r: Request) => r.id == 1);
      var rs := [Sale(0, 1)] + seq(n - 1, _ => Sale(1, 1));
      VerdictAt(policy, map[], rs, 0);
      VerdictAt(policy, map[], rs, n - 1);
      assert |rs| == n && AllSales(rs, 1) && Last(Verdicts(policy, map[], rs)) && !AllTrue(Verdicts(policy, map[], rs));
    }
  }

  lemma {:induction false} VerdictAt(policy: Policy, b: Bookings, rs: seq<Request>, i: nat)
    requires i < |rs|
    ensures Verdicts(policy, b, rs)[i] == policy.accepts(BookAll(policy, b, rs[..i]), rs[i])
  {
    if i < |rs| - 1 {
      VerdictAt(policy, b, rs[..|rs| - 1], i);
      assert rs[..|rs| - 1][..i] == rs[..i];
    }
  }
}
