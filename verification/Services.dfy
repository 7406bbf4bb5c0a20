/** SIMCRS_Service: construction fills a pooled context step by step, business methods use it
    through getters that assert, and finalisation drops every reference it holds. */
module Services {
  import opened Factories
  import opened Lifetime
  import opened Operations
  import opened Options
  import opened Sequences
  import opened ServiceContexts

  /** What a service asks of the other services. */
  datatype Call =
    | MakeSimfqt(stdair: ServiceRef) | MakeAirtsp(stdair: ServiceRef)
    | MakeAirinv(stdair: ServiceRef, sevmgr: Option<ServiceRef>)
    | ParseSchedule | ParseInventory | ParseFares
    | BuildStdair | BuildAirtsp | BuildAirinv | BuildSimfqt
    | CloneStdair | CloneAirtsp | CloneAirinv | CloneSimfqt
    | UseStdair | UseAirtsp | UseAirinv | UseSimfqt

  /** The services that the constructors create. */
  datatype Made = Made(simfqt: ServiceRef, airtsp: ServiceRef, airinv: ServiceRef)

  /** `Done`, or the exception thrown when the service has no context. */
  datatype Status = Done | NonInitialised

  /** Every asserting getter succeeds, and the StdAir ownership flag has been written. */
  predicate Ready(c: ServiceContext) {
    && c.stdair.Some? && c.ownsStdair.Some?
    && c.airtsp.Some? && c.airinv.Some? && c.simfqt.Some?
  }

  /** The context once it has been filled. */
  function Filled(stdair: ServiceRef, owns: bool, sevmgr: Option<ServiceRef>, made: Made, crsCode: string)
    : ServiceContext
  {
    ServiceContext(Some(stdair), Some(owns), sevmgr, sevmgr.None?,
                   Some(made.airtsp), Some(made.airinv), Some(made.simfqt), crsCode)
  }

  /** SIMCRS_ServiceContext::reset(): the references go, flags and code stay. */
  function Reset(c: ServiceContext): ServiceContext {
    c.(stdair := None, simfqt := None, airtsp := None, airinv := None, sevmgr := None)
  }

  /** A new context, pooled and then filled. */
  function WithFilled(s: State, crsCode: string, p: Ptr, c: ServiceContext): State
    requires Shape(s)
  {
    var t := WithContext(s, crsCode);
    t.(heap := t.heap[p := Context(c)])
  }

  function FillCalls(stdair: ServiceRef, sevmgr: Option<ServiceRef>): seq<Call> {
    [MakeSimfqt(stdair), MakeAirtsp(stdair), MakeAirinv(stdair, sevmgr)]
  }

  function CloneCalls(owns: bool): seq<Call> {
    (if owns then [CloneStdair] else []) + [CloneAirtsp, CloneAirinv, CloneSimfqt]
  }

  function ParseCalls(owns: bool): seq<Call> {
    [ParseSchedule, ParseInventory, ParseFares] + (if owns then CloneCalls(owns) else [])
  }

  function BuildCalls(owns: bool): seq<Call> {
    (if owns then [BuildStdair] else []) + [BuildAirtsp, BuildAirinv, BuildSimfqt]
    + (if owns then CloneCalls(owns) else [])
  }

  class Service {
    const process: Process
    var context: Option<Ptr>
    var calls: seq<Call>

    /** The context is live. */
    ghost predicate HasContext()
      reads this, process
    {
      context.Some? && context.value in process.heap && process.heap[context.value].Context?
    }

    ghost function Content(): ServiceContext
      reads this, process
      requires HasContext()
    {
      process.heap[context.value].content
    }

    /** Either the service was never initialised, or its context is live and filled. */
    ghost predicate CanBeUsed()
      reads this, process
    {
      context.Some? ==> HasContext() && Ready(Content())
    }

    // ---------- Construction ----------

    /** The constructors that create StdAir themselves; with database parameters or without. */
    constructor Owning(process: Process, stdair: ServiceRef, made: Made, crsCode: string)
      requires process.Valid()
      modifies process
      ensures this.process == process && process.Valid() && CanBeUsed() && HasContext()
      ensures Content() == Filled(stdair, true, None, made, crsCode) && context.value !in old(process.heap)
      ensures process.View() == WithFilled(old(process.View()), crsCode, context.value, Content())
      ensures calls == FillCalls(stdair, None)
      ensures Content() == ServiceContext(Some(stdair), Some(true), None, true, Some(made.airtsp), Some(made.airinv),
                                          Some(made.simfqt), crsCode)
      ensures calls == [MakeSimfqt(stdair), MakeAirtsp(stdair), MakeAirinv(stdair, None)]
    {
      this.process, context, calls := process, None, [];
      new;
      InitServiceContext(crsCode);
      label Pooled:
      FillOwning(stdair, made);
      FilledIsValid@Pooled();
    }

    /** The constructor that is handed StdAir and SEvMgr, and owns neither. */
    constructor Sharing(process: Process, stdair: ServiceRef, sevmgr: ServiceRef, made: Made, crsCode: string)
      requires process.Valid()
      modifies process
      ensures this.process == process && process.Valid() && CanBeUsed() && HasContext()
      ensures Content() == Filled(stdair, false, Some(sevmgr), made, crsCode) && context.value !in old(process.heap)
      ensures process.View() == WithFilled(old(process.View()), crsCode, context.value, Content())
      ensures calls == FillCalls(stdair, Some(sevmgr))
      ensures Content() == ServiceContext(Some(stdair), Some(false), Some(sevmgr), false, Some(made.airtsp),
                                          Some(made.airinv), Some(made.simfqt), crsCode)
      ensures calls == [MakeSimfqt(stdair), MakeAirtsp(stdair), MakeAirinv(stdair, Some(sevmgr))]
    {
      this.process, context, calls := process, None, [];
      new;
      InitServiceContext(crsCode);
      label Pooled:
      FillSharing(stdair, sevmgr, made);
      FilledIsValid@Pooled();
    }

    /** Storing into a live context keeps the process valid. */
    twostate lemma FilledIsValid()
      requires old(process.Valid()) && old(HasContext()) && HasContext() && context == old(context)
      requires process.Accounted() && process.View() == WithStored(old(process.View()), context.value, Content())
      ensures process.Valid()
    {
      WithStoredInv(old(process.View()), context.value, Content());
      InvHasShape(process.View());
    }

    method FillOwning(stdair: ServiceRef, made: Made)
      requires process.Accounted() && HasContext() && Content() == NewContext(Content().crsCode)
      modifies process`heap, this`calls
      ensures process.Accounted() && HasContext()
              && Content() == Filled(stdair, true, None, made, old(Content()).crsCode)
      ensures process.View() == WithStored(old(process.View()), context.value, Content())
      ensures calls == old(calls) + FillCalls(stdair, None)
    {
      AddStdAirService(stdair, true);
      InitSimfqtService(made.simfqt);
      InitAirtspService(made.airtsp);
      InitAirinvService(made.airinv);
    }

    method FillSharing(stdair: ServiceRef, sevmgr: ServiceRef, made: Made)
      requires process.Accounted() && HasContext() && Content() == NewContext(Content().crsCode)
      modifies process`heap, this`calls
      ensures process.Accounted() && HasContext()
              && Content() == Filled(stdair, false, Some(sevmgr), made, old(Content()).crsCode)
      ensures process.View() == WithStored(old(process.View()), context.value, Content())
      ensures calls == old(calls) + FillCalls(stdair, Some(sevmgr))
    {
      AddStdAirService(stdair, false);
      AddSevmgrService(sevmgr, false);
      InitSimfqtService(made.simfqt);
      InitAirtspService(made.airtsp);
      InitAirinvService(made.airinv);
    }

    method InitServiceContext(crsCode: string)
      requires process.Valid()
      modifies process, this`context
      ensures process.Valid() && HasContext() && Content() == NewContext(crsCode)
      ensures process.View() == WithContext(old(process.View()), crsCode) && context.value !in old(process.heap)
    {
      var p := process.CreateContext(crsCode);
      context := Some(p);
    }

    /** The setters of the context. */
    method Store(content: ServiceContext)
      requires process.Accounted() && HasContext()
      modifies process`heap
      ensures process.Accounted() && HasContext() && Content() == content
      ensures old(process.Valid()) ==> process.Valid()
      ensures process.View() == WithStored(old(process.View()), context.value, content)
    {
      process.Store(context.value, content);
    }

    method AddStdAirService(stdair: ServiceRef, owns: bool)
      requires process.Accounted() && HasContext()
      modifies process`heap
      ensures process.Accounted() && HasContext()
              && Content() == old(Content()).(stdair := Some(stdair), ownsStdair := Some(owns))
      ensures process.View() == WithStored(old(process.View()), context.value, Content())
    {
      Store(process.heap[context.value].content.(stdair := Some(stdair), ownsStdair := Some(owns)));
    }

    method AddSevmgrService(sevmgr: ServiceRef, owns: bool)
      requires process.Accounted() && HasContext()
      modifies process`heap
      ensures process.Accounted() && HasContext()
              && Content() == old(Content()).(sevmgr := Some(sevmgr), ownsSevmgr := owns)
      ensures process.View() == WithStored(old(process.View()), context.value, Content())
    {
      Store(process.heap[context.value].content.(sevmgr := Some(sevmgr), ownsSevmgr := owns));
    }

    method InitSimfqtService(simfqt: ServiceRef)
      requires process.Accounted() && HasContext() && Content().stdair.Some?
      modifies process`heap, this`calls
      ensures process.Accounted() && HasContext() && Content() == old(Content()).(simfqt := Some(simfqt))
      ensures calls == old(calls) + [MakeSimfqt(old(Content()).stdair.value)]
      ensures process.View() == WithStored(old(process.View()), context.value, Content())
    {
      var c := process.heap[context.value].content;
      calls := calls + [MakeSimfqt(c.stdair.value)];
      Store(c.(simfqt := Some(simfqt)));
    }

    method InitAirtspService(airtsp: ServiceRef)
      requires process.Accounted() && HasContext() && Content().stdair.Some?
      modifies process`heap, this`calls
      ensures process.Accounted() && HasContext() && Content() == old(Content()).(airtsp := Some(airtsp))
      ensures calls == old(calls) + [MakeAirtsp(old(Content()).stdair.value)]
      ensures process.View() == WithStored(old(process.View()), context.value, Content())
    {
      var c := process.heap[context.value].content;
      calls := calls + [MakeAirtsp(c.stdair.value)];
      Store(c.(airtsp := Some(airtsp)));
    }

    /** AirInv gets the event manager only when this service does not own it; then it must be there. */
    method InitAirinvService(airinv: ServiceRef)
      requires process.Accounted() && HasContext() && Content().stdair.Some?
      requires !Content().ownsSevmgr ==> Content().sevmgr.Some?
      modifies process`heap, this`calls
      ensures process.Accounted() && HasContext() && Content() == old(Content()).(airinv := Some(airinv))
      ensures var c := old(Content());
        calls == old(calls) + [MakeAirinv(c.stdair.value, if c.ownsSevmgr then None else c.sevmgr)]
      ensures process.View() == WithStored(old(process.View()), context.value, Content())
    {
      var c := process.heap[context.value].content;
      if c.ownsSevmgr == false {
        calls := calls + [MakeAirinv(c.stdair.value, Some(c.sevmgr.value))];
      } else {
        calls := calls + [MakeAirinv(c.stdair.value, None)];
      }
      Store(c.(airinv := Some(airinv)));
    }

    // ---------- Asserting getters ----------

    method GetOwnStdairServiceFlag() returns (owns: bool)
      requires HasContext() && Content().ownsStdair.Some?
      ensures owns == Content().ownsStdair.value
    {
      owns := process.heap[context.value].content.ownsStdair.value;
    }

    method GetStdairService() returns (s: ServiceRef)
      requires HasContext() && Content().stdair.Some?
      ensures Some(s) == Content().stdair
    {
      s := process.heap[context.value].content.stdair.value;
    }

    method GetAirtspService() returns (s: ServiceRef)
      requires HasContext() && Content().airtsp.Some?
      ensures Some(s) == Content().airtsp
    {
      s := process.heap[context.value].content.airtsp.value;
    }

    method GetAirinvService() returns (s: ServiceRef)
      requires HasContext() && Content().airinv.Some?
      ensures Some(s) == Content().airinv
    {
      s := process.heap[context.value].content.airinv.value;
    }

    method GetSimfqtService() returns (s: ServiceRef)
      requires HasContext() && Content().simfqt.Some?
      ensures Some(s) == Content().simfqt
    {
      s := process.heap[context.value].content.simfqt.value;
    }

    // ---------- Business methods ----------

    method ParseAndLoad() returns (status: Status)
      requires CanBeUsed()
      modifies this`calls
      ensures status == (if context.None? then NonInitialised else Done)
      ensures calls == old(calls) + (if context.None? then [] else ParseCalls(Content().ownsStdair.value))
    {
      if context.None? {
        return NonInitialised;
      }
      var doesOwnStdair := GetOwnStdairServiceFlag();
      var stdair := GetStdairService();
      var airtsp := GetAirtspService();
      calls := calls + [ParseSchedule];
      var airinv := GetAirinvService();
      calls := calls + [ParseInventory];
      var simfqt := GetSimfqtService();
      calls := calls + [ParseFares];
      if doesOwnStdair {
        var cloned := ClonePersistentBom();
      }
      status := Done;
    }

    method BuildSampleBom() returns (status: Status)
      requires CanBeUsed()
      modifies this`calls
      ensures status == (if context.None? then NonInitialised else Done)
      ensures calls == old(calls) + (if context.None? then [] else BuildCalls(Content().ownsStdair.value))
    {
      if context.None? {
        return NonInitialised;
      }
      var doesOwnStdair := GetOwnStdairServiceFlag();
      var stdair := GetStdairService();
      if doesOwnStdair {
        calls := calls + [BuildStdair];
      }
      var airtsp := GetAirtspService();
      calls := calls + [BuildAirtsp];
      var airinv := GetAirinvService();
      calls := calls + [BuildAirinv];
      var simfqt := GetSimfqtService();
      calls := calls + [BuildSimfqt];
      if doesOwnStdair {
        var cloned := ClonePersistentBom();
      }
      status := Done;
    }

    method ClonePersistentBom() returns (status: Status)
      requires CanBeUsed()
      modifies this`calls
      ensures status == (if context.None? then NonInitialised else Done)
      ensures calls == old(calls) + (if context.None? then [] else CloneCalls(Content().ownsStdair.value))
    {
      if context.None? {
        return NonInitialised;
      }
      var doesOwnStdair := GetOwnStdairServiceFlag();
      var stdair := GetStdairService();
      if doesOwnStdair {
        calls := calls + [CloneStdair];
      }
      var airtsp := GetAirtspService();
      calls := calls + [CloneAirtsp];
      var airinv := GetAirinvService();
      calls := calls + [CloneAirinv];
      var simfqt := GetSimfqtService();
      calls := calls + [CloneSimfqt];
      status := Done;
    }

    /** The methods that use one service only, and neither build nor clone: sample travel solutions
        and booking requests from StdAir, segment paths from AirTSP, selling, cancelling, listing,
        snapshots and optimisation through AirInv, fare quotes from SimFQT. */
    method AskStdair() returns (status: Status)
      requires CanBeUsed()
      modifies this`calls
      ensures status == (if context.None? then NonInitialised else Done)
      ensures calls == old(calls) + (if context.None? then [] else [UseStdair])
    {
      if context.None? {
        return NonInitialised;
      }
      var stdair := GetStdairService();
      calls := calls + [UseStdair];
      status := Done;
    }

    method AskAirtsp() returns (status: Status)
      requires CanBeUsed()
      modifies this`calls
      ensures status == (if context.None? then NonInitialised else Done)
      ensures calls == old(calls) + (if context.None? then [] else [UseAirtsp])
    {
      if context.None? {
        return NonInitialised;
      }
      var airtsp := GetAirtspService();
      calls := calls + [UseAirtsp];
      status := Done;
    }

    method AskAirinv() returns (status: Status)
      requires CanBeUsed()
      modifies this`calls
      ensures status == (if context.None? then NonInitialised else Done)
      ensures calls == old(calls) + (if context.None? then [] else [UseAirinv])
    {
      if context.None? {
        return NonInitialised;
      }
      var airinv := GetAirinvService();
      calls := calls + [UseAirinv];
      status := Done;
    }

    method AskSimfqt() returns (status: Status)
      requires CanBeUsed()
      modifies this`calls
      ensures status == (if context.None? then NonInitialised else Done)
      ensures calls == old(calls) + (if context.None? then [] else [UseSimfqt])
    {
      if context.None? {
        return NonInitialised;
      }
      var simfqt := GetSimfqtService();
      calls := calls + [UseSimfqt];
      status := Done;
    }

    /** Dropping the references: the context stays in the factory's pool. */
    method Finalise()
      requires process.Accounted() && HasContext()
      modifies process`heap
      ensures process.Accounted() && HasContext() && Content() == Reset(old(Content()))
      ensures old(process.Valid()) ==> process.Valid()
      ensures process.View() == WithStored(old(process.View()), context.value, Reset(old(Content())))
      ensures var before, after := old(Content()), Content();
        && after.stdair == after.sevmgr == after.airtsp == None && after.airinv == after.simfqt == None
        && after.ownsStdair == before.ownsStdair && after.ownsSevmgr == before.ownsSevmgr
        && after.crsCode == before.crsCode
    {
      Store(Reset(process.heap[context.value].content));
    }
  }

  // ---------- What a service asks for over its history ----------

  datatype Business = Parse | Build | Clone | AskStdair | AskAirtsp | AskAirinv | AskSimfqt

  function BusinessCalls(owns: bool, op: Business): seq<Call> {
    match op
    case Parse => ParseCalls(owns)
    case Build => BuildCalls(owns)
    case Clone => CloneCalls(owns)
    case AskStdair => [UseStdair]
    case AskAirtsp => [UseAirtsp]
    case AskAirinv => [UseAirinv]
    case AskSimfqt => [UseSimfqt]
  }

  function HistoryCalls(owns: bool, ops: seq<Business>): seq<Call> {
    if ops == [] then [] else HistoryCalls(owns, ops[..|ops| - 1]) + BusinessCalls(owns, ops[|ops| - 1])
  }

  lemma OneBusiness(owns: bool, op: Business)
    ensures BuildStdair in BusinessCalls(owns, op) <==> owns && op == Build
    ensures CloneStdair in BusinessCalls(owns, op) <==> owns && (op == Parse || op == Build || op == Clone)
  {
  }

  /** StdAir is asked to build only by a service that owns it and is told to build, and to clone
      only by a service that owns it and parses, builds or clones. */
  lemma {:induction false} OnlyOwnersTouchStdair(owns: bool, ops: seq<Business>)
    ensures BuildStdair in HistoryCalls(owns, ops) <==> owns && Build in ops
    ensures CloneStdair in HistoryCalls(owns, ops) <==> owns && (Parse in ops || Build in ops || Clone in ops)
  {
    if ops != [] {
      var front, last := ops[..|ops| - 1], ops[|ops| - 1];
      OnlyOwnersTouchStdair(owns, front);
      OneBusiness(owns, last);
      assert forall op :: op in ops <==> op in front || op == last;
    }
  }

  // ---------- Order and number of the calls ----------

  /** What comes right after a call: AirTSP before AirInv before SimFQT in every operation, StdAir
      first where it takes part; and an owner clones right after parsing and after building. */
  function NextCall(owns: bool, call: Call): Option<Call> {
    match call
    case ParseSchedule => Some(ParseInventory)
    case ParseInventory => Some(ParseFares)
    case ParseFares => if owns then Some(CloneStdair) else None
    case BuildStdair => Some(BuildAirtsp)
    case BuildAirtsp => Some(BuildAirinv)
    case BuildAirinv => Some(BuildSimfqt)
    case BuildSimfqt => if owns then Some(CloneStdair) else None
    case CloneStdair => Some(CloneAirtsp)
    case CloneAirtsp => Some(CloneAirinv)
    case CloneAirinv => Some(CloneSimfqt)
    case _ => None
  }

  ghost predicate InOrder(owns: bool, calls: seq<Call>) {
    forall i :: 0 <= i < |calls| && NextCall(owns, calls[i]).Some? ==>
      i + 1 < |calls| && Some(calls[i + 1]) == NextCall(owns, calls[i])
  }

  /** How often a call is made in a history with the operations `ops`. */
  function ExpectedCalls(owns: bool, ops: seq<Business>, call: Call): nat {
    match call
    case ParseSchedule => Count(ops, Parse)
    case ParseInventory => Count(ops, Parse)
    case ParseFares => Count(ops, Parse)
    case BuildStdair => if owns then Count(ops, Build) else 0
    case BuildAirtsp => Count(ops, Build)
    case BuildAirinv => Count(ops, Build)
    case BuildSimfqt => Count(ops, Build)
    case CloneStdair => if owns then Count(ops, Clone) + Count(ops, Parse) + Count(ops, Build) else 0
    case CloneAirtsp => Count(ops, Clone) + if owns then Count(ops, Parse) + Count(ops, Build) else 0
    case CloneAirinv => Count(ops, Clone) + if owns then Count(ops, Parse) + Count(ops, Build) else 0
    case CloneSimfqt => Count(ops, Clone) + if owns then Count(ops, Parse) + Count(ops, Build) else 0
    case UseStdair => Count(ops, AskStdair)
    case UseAirtsp => Count(ops, AskAirtsp)
    case UseAirinv => Count(ops, AskAirinv)
    case UseSimfqt => Count(ops, AskSimfqt)
    case _ => 0
  }

  ghost predicate Counted(owns: bool, ops: seq<Business>, calls: seq<Call>) {
    forall call :: Count(calls, call) == ExpectedCalls(owns, ops, call)
  }

  /** The calls of one operation, call by call. */
  lemma OperationCalls(owns: bool, op: Business)
    ensures BusinessCalls(owns, op) == match op {
      case Parse =>
        [ParseSchedule, ParseInventory, ParseFares]
        + (if owns then [CloneStdair, CloneAirtsp, CloneAirinv, CloneSimfqt] else [])
      case Build =>
        if owns
        then [BuildStdair, BuildAirtsp, BuildAirinv, BuildSimfqt] + [CloneStdair, CloneAirtsp, CloneAirinv, CloneSimfqt]
        else [BuildAirtsp, BuildAirinv, BuildSimfqt]
      case Clone => (if owns then [CloneStdair] else []) + [CloneAirtsp, CloneAirinv, CloneSimfqt]
      case AskStdair => [UseStdair]
      case AskAirtsp => [UseAirtsp]
      case AskAirinv => [UseAirinv]
      case AskSimfqt => [UseSimfqt]
    }
  {
  }

  lemma OperationInOrder(owns: bool, op: Business)
    ensures InOrder(owns, BusinessCalls(owns, op))
  {
    match op {
      case Parse => ParsingInOrder(owns);
      case Build => BuildingInOrder(owns);
      case Clone => CloningInOrder(owns);
      case _ =>
    }
  }

  lemma CloningInOrder(owns: bool)
    ensures InOrder(owns, CloneCalls(owns))
  {
  }

  lemma ParsingInOrder(owns: bool)
    ensures InOrder(owns, ParseCalls(owns))
  {
  }

  lemma BuildingInOrder(owns: bool)
    ensures InOrder(owns, BuildCalls(owns))
  {
  }

  function One(call: Call, a: Call): nat {
    if a == call then 1 else 0
  }

  lemma CountCloned(owns: bool, call: Call)
    ensures Count(CloneCalls(owns), call)
         == (if owns then One(call, CloneStdair) else 0)
            + One(call, CloneAirtsp) + One(call, CloneAirinv) + One(call, CloneSimfqt)
  {
    CountConcat(if owns then [CloneStdair] else [], [CloneAirtsp, CloneAirinv, CloneSimfqt], call);
    CountOne(CloneStdair, call);
    CountThree(CloneAirtsp, CloneAirinv, CloneSimfqt, call);
  }

  lemma CountParsed(owns: bool, call: Call)
    ensures Count(ParseCalls(owns), call)
         == One(call, ParseSchedule) + One(call, ParseInventory) + One(call, ParseFares)
            + (if owns then Count(CloneCalls(owns), call) else 0)
  {
    CountConcat([ParseSchedule, ParseInventory, ParseFares], if owns then CloneCalls(owns) else [], call);
    CountThree(ParseSchedule, ParseInventory, ParseFares, call);
  }

  lemma CountBuilt(owns: bool, call: Call)
    ensures Count(BuildCalls(owns), call)
         == (if owns then One(call, BuildStdair) else 0)
            + One(call, BuildAirtsp) + One(call, BuildAirinv) + One(call, BuildSimfqt)
            + (if owns then Count(CloneCalls(owns), call) else 0)
  {
    var first, more := if owns then [BuildStdair] else [], [BuildAirtsp, BuildAirinv, BuildSimfqt];
    CountConcat(first + more, if owns then CloneCalls(owns) else [], call);
    CountConcat(first, more, call);
    CountOne(BuildStdair, call);
    CountThree(BuildAirtsp, BuildAirinv, BuildSimfqt, call);
  }

  /** A history of one operation. */
  lemma CountOperation(op: Business)
    ensures forall x: Business :: Count([op], x) == if op == x then 1 else 0
  {
    forall x: Business {
      CountOne(op, x);
    }
  }

  lemma ParsingCounted(owns: bool, call: Call)
    ensures Count(ParseCalls(owns), call) == ExpectedCalls(owns, [Parse], call)
  {
    CountOperation(Parse);
    CountParsed(owns, call);
    CountCloned(owns, call);
  }

  lemma BuildingCounted(owns: bool, call: Call)
    ensures Count(BuildCalls(owns), call) == ExpectedCalls(owns, [Build], call)
  {
    CountOperation(Build);
    CountBuilt(owns, call);
    CountCloned(owns, call);
  }

  lemma CloningCounted(owns: bool, call: Call)
    ensures Count(CloneCalls(owns), call) == ExpectedCalls(owns, [Clone], call)
  {
    CountOperation(Clone);
    CountCloned(owns, call);
  }

  lemma AskingCounted(owns: bool, op: Business, use: Call, call: Call)
    requires (op, use) in {(AskStdair, UseStdair), (AskAirtsp, UseAirtsp), (AskAirinv, UseAirinv),
                            (AskSimfqt, UseSimfqt)}
    ensures Count([use], call) == ExpectedCalls(owns, [op], call)
  {
    CountOperation(op);
    CountOne(use, call);
  }

  lemma OperationCounted(owns: bool, op: Business, call: Call)
    ensures Count(BusinessCalls(owns, op), call) == ExpectedCalls(owns, [op], call)
  {
    match op {
      case Parse => ParsingCounted(owns, call);
      case Build => BuildingCounted(owns, call);
      case Clone => CloningCounted(owns, call);
      case AskStdair => AskingCounted(owns, op, UseStdair, call);
      case AskAirtsp => AskingCounted(owns, op, UseAirtsp, call);
      case AskAirinv => AskingCounted(owns, op, UseAirinv, call);
      case AskSimfqt => AskingCounted(owns, op, UseSimfqt, call);
    }
  }

  lemma InOrderConcat(owns: bool, x: seq<Call>, y: seq<Call>)
    requires InOrder(owns, x) && InOrder(owns, y)
    ensures InOrder(owns, x + y)
  {
    var all := x + y;
    forall i | 0 <= i < |all| && NextCall(owns, all[i]).Some?
      ensures i + 1 < |all| && Some(all[i + 1]) == NextCall(owns, all[i])
    {
      if i < |x| {
        assert NextCall(owns, x[i]).Some?;
      } else {
        assert NextCall(owns, y[i - |x|]).Some?;
      }
    }
  }

  lemma ExpectedSum(owns: bool, x: seq<Business>, y: seq<Business>, call: Call)
    ensures ExpectedCalls(owns, x + y, call) == ExpectedCalls(owns, x, call) + ExpectedCalls(owns, y, call)
  {
    CountConcat(x, y, Parse);
    CountConcat(x, y, Build);
    CountConcat(x, y, Clone);
    CountConcat(x, y, AskStdair);
    CountConcat(x, y, AskAirtsp);
    CountConcat(x, y, AskAirinv);
    CountConcat(x, y, AskSimfqt);
  }

  lemma {:induction false} HistoryInOrder(owns: bool, ops: seq<Business>)
    ensures InOrder(owns, HistoryCalls(owns, ops))
  {
    if ops != [] {
      var front, last := ops[..|ops| - 1], ops[|ops| - 1];
      HistoryInOrder(owns, front);
      OperationInOrder(owns, last);
      HistoryStep(owns, ops, BusinessCalls(owns, last));
      InOrderConcat(owns, HistoryCalls(owns, front), BusinessCalls(owns, last));
    }
  }

  lemma {:induction false} HistoryCounted(owns: bool, ops: seq<Business>, call: Call)
    ensures Count(HistoryCalls(owns, ops), call) == ExpectedCalls(owns, ops, call)
  {
    if ops != [] {
      var front, last := ops[..|ops| - 1], ops[|ops| - 1];
      HistoryCounted(owns, front, call);
      OperationCounted(owns, last, call);
      HistoryStep(owns, ops, BusinessCalls(owns, last));
      CountConcat(HistoryCalls(owns, front), BusinessCalls(owns, last), call);
      ExpectedSum(owns, front, [last], call);
      assert ops == front + [last];
    }
  }

  /** Over every history the calls come in order, and each as often as expected. */
  lemma HistoryLaws(owns: bool, ops: seq<Business>)
    ensures InOrder(owns, HistoryCalls(owns, ops)) && Counted(owns, ops, HistoryCalls(owns, ops))
  {
    HistoryInOrder(owns, ops);
    forall call {
      HistoryCounted(owns, ops, call);
    }
  }

  method PlayOne(s: Service, op: Business)
    requires s.CanBeUsed() && s.HasContext()
    modifies s`calls
    ensures s.calls == old(s.calls) + BusinessCalls(s.Content().ownsStdair.value, op)
  {
    var status;
    match op {
      case Parse => status := s.ParseAndLoad();
      case Build => status := s.BuildSampleBom();
      case Clone => status := s.ClonePersistentBom();
      case AskStdair => status := s.AskStdair();
      case AskAirtsp => status := s.AskAirtsp();
      case AskAirinv => status := s.AskAirinv();
      case AskSimfqt => status := s.AskSimfqt();
    }
  }

  /** The calls after the first `i` of the business methods `ops`. */
  ghost predicate Played(before: seq<Call>, owns: bool, ops: seq<Business>, i: nat, calls: seq<Call>)
    requires i <= |ops|
  {
    calls == before + HistoryCalls(owns, ops[..i])
  }

  lemma PlayedStep(before: seq<Call>, owns: bool, ops: seq<Business>, i: nat, calls: seq<Call>, more: seq<Call>)
    requires i < |ops| && Played(before, owns, ops, i, calls) && more == BusinessCalls(owns, ops[i])
    ensures Played(before, owns, ops, i + 1, calls + more)
  {
    var part := ops[..i + 1];
    assert part[..i] == ops[..i] && part[i] == ops[i];
    HistoryStep(owns, part, more);
    Regroup(before, HistoryCalls(owns, ops[..i]), more);
  }

  lemma HistoryStep(owns: bool, ops: seq<Business>, more: seq<Call>)
    requires ops != [] && more == BusinessCalls(owns, ops[|ops| - 1])
    ensures HistoryCalls(owns, ops) == HistoryCalls(owns, ops[..|ops| - 1]) + more
  {
  }

  lemma Regroup(a: seq<Call>, b: seq<Call>, c: seq<Call>)
    ensures (a + b) + c == a + (b + c)
  {
  }

  method PlayAt(s: Service, ops: seq<Business>, i: nat, ghost before: seq<Call>, ghost owns: bool)
    requires s.CanBeUsed() && s.HasContext() && owns == s.Content().ownsStdair.value
    requires i < |ops| && Played(before, owns, ops, i, s.calls)
    modifies s`calls
    ensures Played(before, owns, ops, i + 1, s.calls)
  {
    PlayedStep(before, owns, ops, i, s.calls, BusinessCalls(owns, ops[i]));
    PlayOne(s, ops[i]);
  }

  /** Any sequence of business methods on one service: no getter ever fails. */
  method Play(s: Service, ops: seq<Business>)
    requires s.CanBeUsed() && s.HasContext()
    modifies s`calls
    ensures s.CanBeUsed() && s.HasContext() && s.Content() == old(s.Content())
    ensures s.calls == old(s.calls) + HistoryCalls(s.Content().ownsStdair.value, ops)
    ensures |old(s.calls)| <= |s.calls|
    ensures InOrder(s.Content().ownsStdair.value, s.calls[|old(s.calls)|..])
    ensures Counted(s.Content().ownsStdair.value, ops, s.calls[|old(s.calls)|..])
  {
    ghost var owns, before := s.Content().ownsStdair.value, s.calls;
    for i := 0 to |ops|
      invariant Played(old(s.calls), owns, ops, i, s.calls)
    {
      PlayAt(s, ops, i, old(s.calls), owns);
    }
    assert ops[..|ops|] == ops;
    HistoryLaws(owns, ops);
    assert s.calls[|before|..] == HistoryCalls(owns, ops);
  }
}
