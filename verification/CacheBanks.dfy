/**
 One cache bank (timing/memsys/cache_bank.go): arbitration, two pipeline
 registers, fill forwarding, bounded queues, the reset scan and the flush walk.

 An edge is stated as a sequence of stages, each reading the decisions that the
 source takes from the old registers:

     Pop, Commit (s1 leaves), Release (a replay head leaves the miss registers),
     Execute (s0 meets the array and becomes s1), Load (s0 is chosen), Settle.

 The class in CacheBankClass.dfy does the edge the way the source does.
 */
module CacheBanks {
  import opened CacheTypes
  import opened CacheGeometry
  import opened CacheArrays
  import opened CacheMissRegisters

  datatype Op =
    | CoreOp(request: Request, port: nat)
    | ReplayOp(request: Request, port: nat, fill: Fill)
    | FillOp(line: nat, fill: Fill)
    | InitOp(set_: nat)
    | FlushOp(set_: nat, way: nat)

  /** The second pipeline register: what the array answered. */
  datatype Commit = Commit(op: Op, hit: bool, allocation: Option<Allocated>, reply: Response, victim: Option<Eviction>)

  datatype FlushState = FlushIdle | FlushWait | FlushWalk | FlushDrain | FlushDone

  datatype Bank = Bank(store: Array, mshr: Mshr, reserved: int, s0: Option<Op>, s1: Option<Commit>,
                       responses: seq<PortResponse>, memory: seq<LineRequest>,
                       initNext: nat, flushing: FlushState, flushIndex: nat,
                       forwarding: bool, forwarded: Fill)

  datatype Input = Input(request: Option<Request>, port: nat, responseReady: bool, memoryReady: bool,
                         fill: Option<Fill>, flushBegin: bool)

  datatype StoreReceipt = StoreReceipt(request: Request, port: nat, status: Status)

  datatype Edge = Edge(accepted: bool, fillAccepted: bool,
                       response: Option<PortResponse>, responseDelivered: bool,
                       memory: Option<LineRequest>, memoryAccepted: bool,
                       applied: Option<StoreReceipt>, flushDone: bool)

  const NO_RESPONSE: Response := Response(0, ZERO_WORD, Ok)

  function NewBank(c: Spec): Bank
    requires c.Valid()
  {
    Bank(NewArray(c), NewMshr(c.registers), 0, None, None, [], [], 0, FlushIdle, 0, false, NO_FILL)
  }

  predicate Empty(b: Bank) {
    b.s0.None? && b.s1.None? && b.memory == []
  }

  /** An offered word the bank can take: aligned, of this bank, enables inside the word, no store to a read-only cache. */
  predicate RequestOk(c: Spec, r: Request)
    requires c.Valid()
  {
    && r.address % c.wordBytes == 0
    && BankOf(c, r.address) == c.bank
    && (forall i | c.wordBytes <= i < 8 :: !r.enables[i])
    && (r.write ==> c.writeback)
  }

  /** The checks made before anything else: a failing one leaves the bank untouched. */
  predicate InputOk(c: Spec, b: Bank, i: Input)
    requires c.Valid()
  {
    && (i.request.Some? ==> RequestOk(c, i.request.value) && i.port < c.corePorts)
    && (i.flushBegin ==> b.flushing == FlushIdle)
    && (i.fill.Some? ==> Live(b.mshr, i.fill.value.handle) && b.mshr.entries[i.fill.value.handle.slot].finalized)
  }

  // ------------------------------------------------- decisions on old registers

  predicate Access(op: Op) {
    op.CoreOp? || op.ReplayOp?
  }

  predicate ResponseSpace(c: Spec, b: Bank) {
    |b.responses| < c.responseSize
  }

  predicate MemorySpace(c: Spec, b: Bank) {
    |b.memory| < c.memorySize
  }

  predicate MemoryAlmostFull(c: Spec, b: Bank) {
    |b.memory| >= c.memorySize - c.latency
  }

  predicate CommitRead(b: Bank) {
    b.s1.Some? && Access(b.s1.value.op) && !b.s1.value.op.request.write && b.s1.value.hit
  }

  /** A miss that starts a chain: it asks the memory port for its line. */
  predicate RootMiss(x: Commit) {
    x.op.CoreOp? && !x.hit && x.allocation.Some? && x.allocation.value.previous.None?
  }

  predicate CommitMemory(b: Bank) {
    b.s1.Some? && (b.s1.value.victim.Some? || RootMiss(b.s1.value))
  }

  predicate Stalled(c: Spec, b: Bank) {
    (CommitRead(b) && !ResponseSpace(c, b)) || (CommitMemory(b) && !MemorySpace(c, b))
  }

  predicate HeadOk(b: Bank) {
    b.mshr.head.Some? ==> b.mshr.head.value.slot < |b.mshr.entries|
  }

  function HeadEntry(b: Bank): Entry
    requires HeadOk(b) && b.mshr.head.Some?
  {
    b.mshr.entries[b.mshr.head.value.slot]
  }

  /** The replay head is a load that the latest fill can answer without the array. */
  predicate ForwardHead(c: Spec, b: Bank)
    requires HeadOk(b)
  {
    b.forwarding && b.mshr.head.Some? && !HeadEntry(b).request.write && !CommitRead(b) && !Stalled(c, b)
  }

  predicate Forwards(c: Spec, b: Bank)
    requires HeadOk(b)
  {
    ForwardHead(c, b) && ResponseSpace(c, b)
  }

  /** The operation that enters s0 on this edge. */
  function Choose(c: Spec, b: Bank, i: Input): Option<Op>
    requires c.Valid() && HeadOk(b)
    requires i.fill.Some? ==> i.fill.value.handle.slot < |b.mshr.entries|
  {
    if Stalled(c, b) then None
    else if b.initNext < c.sets then Some(InitOp(b.initNext))
    else if b.mshr.head.Some? && !ForwardHead(c, b) then
      Some(ReplayOp(HeadEntry(b).request, HeadEntry(b).port, b.forwarded))
    else if i.fill.Some? && !(b.forwarding && b.mshr.head.Some?) && (!c.writeback || !MemoryAlmostFull(c, b)) then
      Some(FillOp(b.mshr.entries[i.fill.value.handle.slot].line, i.fill.value))
    else if b.flushing == FlushWalk && (!c.writeback || !MemoryAlmostFull(c, b)) then
      Some(FlushOp(b.flushIndex % c.sets, b.flushIndex / c.sets))
    else if b.flushing == FlushIdle && !i.flushBegin && i.request.Some? && !MemoryAlmostFull(c, b) && b.reserved < c.registers then
      Some(CoreOp(i.request.value, i.port))
    else None
  }

  predicate Dequeues(c: Spec, b: Bank, i: Input)
    requires c.Valid() && HeadOk(b)
    requires i.fill.Some? ==> i.fill.value.handle.slot < |b.mshr.entries|
  {
    Forwards(c, b) || (Choose(c, b, i).Some? && Choose(c, b, i).value.ReplayOp?)
  }

  /** The miss-register events of this edge. */
  function EventsOf(c: Spec, b: Bank, i: Input): Events
    requires c.Valid() && HeadOk(b)
    requires i.fill.Some? ==> i.fill.value.handle.slot < |b.mshr.entries|
  {
    var chosen := Choose(c, b, i);
    Events(
      if !Stalled(c, b) && b.s0.Some? && b.s0.value.CoreOp? then Some(Allocation(b.s0.value.request, b.s0.value.port)) else None,
      if !Stalled(c, b) && b.s1.Some? && b.s1.value.op.CoreOp? && b.s1.value.allocation.Some? then
        Some(FinalizationOf(b.s1.value))
      else None,
      if chosen.Some? && chosen.value.FillOp? then Some(chosen.value.fill.handle) else None,
      Dequeues(c, b, i))
  }

  function FinalizationOf(x: Commit): Finalization
    requires x.allocation.Some?
  {
    Finalization(x.allocation.value.handle, x.hit, x.allocation.value.previous)
  }

  // ------------------------------------------------------------------ stages

  /** Delivered queue heads leave; a store at the replay head ends forwarding. */
  function Pop(b: Bank, i: Input): Bank
    requires HeadOk(b)
  {
    b.(responses := if i.responseReady && b.responses != [] then b.responses[1..] else b.responses,
       memory := if i.memoryReady && b.memory != [] then b.memory[1..] else b.memory,
       forwarding := b.forwarding && !(b.mshr.head.Some? && HeadEntry(b).request.write))
  }

  function CommittedResponse(x: Commit): seq<PortResponse> {
    if Access(x.op) && !x.op.request.write && x.hit then [PortResponse(x.op.port, x.reply)] else []
  }

  function CommittedMemory(x: Commit): seq<LineRequest> {
    if x.victim.Some? then [WriteLine(x.victim.value.line, x.victim.value.data)]
    else if RootMiss(x) then [ReadLine(LineOf(x.op.request.address), x.allocation.value.handle)]
    else []
  }

  function CommittedStore(x: Commit): Option<StoreReceipt> {
    if Access(x.op) && x.op.request.write && x.hit then
      Some(StoreReceipt(x.op.request, x.op.port, x.reply.status))
    else None
  }

  predicate CommitOk(b: Bank) {
    b.s1.Some? && b.s1.value.op.CoreOp? ==>
      b.s1.value.allocation.Some? && FinalizeOk(b.mshr, FinalizationOf(b.s1.value))
  }

  /** s1 leaves: its answer and its line request are queued, its miss register is finalized. */
  function CommitStage(b: Bank): (r: Bank)
    requires CommitOk(b)
    ensures |r.mshr.entries| == |b.mshr.entries| && r.mshr.head == b.mshr.head
  {
    if b.s1.None? then b
    else
      var x := b.s1.value;
      var releases := x.op.CoreOp? && x.hit;
      b.(mshr := if x.op.CoreOp? then Finalize(b.mshr, FinalizationOf(x)) else b.mshr,
         responses := b.responses + CommittedResponse(x),
         memory := b.memory + CommittedMemory(x),
         reserved := if releases then b.reserved - 1 else b.reserved,
         s1 := None)
  }

  /** The answer a forwarded fill gives the load at the replay head. */
  function ForwardedResponse(c: Spec, e: Entry, f: Fill): (r: PortResponse)
    requires c.Valid() && RequestOk(c, e.request)
  {
    AlignedOffset(c, e.request.address);
    PortResponse(e.port, Response(e.request.id,
                                  if f.status.Ok? then WordAt(c, f.data, e.request.address % SECTOR_BYTES) else ZERO_WORD,
                                  f.status))
  }

  /** The replay head leaves the miss registers. */
  function ReleaseStage(b: Bank, answer: seq<PortResponse>): Bank
    requires b.mshr.head.Some? && b.mshr.head.value.slot < |b.mshr.entries|
  {
    b.(mshr := Dequeue(b.mshr), responses := b.responses + answer, reserved := b.reserved - 1)
  }

  predicate ExecuteOk(c: Spec, b: Bank)
    requires c.Valid()
  {
    && Shaped(c, b.store)
    && (b.s0.Some? && b.s0.value.InitOp? ==> b.s0.value.set_ < c.sets)
    && (b.s0.Some? && b.s0.value.FlushOp? ==> b.s0.value.set_ < c.sets && b.s0.value.way < c.ways)
  }

  /** s0 meets the array. A replay whose fill failed completes with that error and leaves the array alone. */
  function Executed(c: Spec, b: Bank, handed: Option<Allocated>): (Array, Option<Commit>)
    requires c.Valid() && ExecuteOk(c, b)
  {
    match b.s0
    case None => (b.store, None)
    case Some(op) =>
      match op
      case InitOp(s) => (InitSet(c, b.store, s), Some(Commit(op, false, handed, NO_RESPONSE, None)))
      case CoreOp(r, p) => AccessArray(c, b.store, op, handed)
      case ReplayOp(r, p, f) =>
        if f.status.Failed? then
          (b.store, Some(Commit(op, true, handed, Response(r.id, ZERO_WORD, f.status), None)))
        else AccessArray(c, b.store, op, handed)
      case FillOp(l, f) =>
        if f.status.Failed? then (b.store, Some(Commit(op, false, handed, NO_RESPONSE, None)))
        else
          var (a, e) := FillLine(c, b.store, l, f.data);
          (a, Some(Commit(op, false, handed, NO_RESPONSE, e)))
      case FlushOp(s, w) =>
        if c.writeback then
          var (a, e) := FlushWay(c, b.store, s, w);
          (a, Some(Commit(op, false, handed, NO_RESPONSE, e)))
        else (FlushSet(c, b.store, s, c.ways), Some(Commit(op, false, handed, NO_RESPONSE, None)))
  }

  function AccessArray(c: Spec, a: Array, op: Op, handed: Option<Allocated>): (Array, Option<Commit>)
    requires c.Valid() && Shaped(c, a) && Access(op)
  {
    if op.request.write then
      var (b, hit) := Write(c, a, op.request);
      (b, Some(Commit(op, hit, handed, NO_RESPONSE, None)))
    else
      var (reply, hit) := Read(c, a, op.request);
      (a, Some(Commit(op, hit, handed, reply, None)))
  }

  /** s0 becomes s1; a core operation takes a miss register. */
  function ExecuteStage(c: Spec, b: Bank, handed: Option<Allocated>): Bank
    requires c.Valid() && ExecuteOk(c, b)
    requires handed.Some? ==> handed.value.handle.slot < |b.mshr.entries|
    requires handed.Some? ==> b.s0.Some? && b.s0.value.CoreOp?
  {
    var (a, x) := Executed(c, b, handed);
    b.(store := a, s1 := x, s0 := None,
       mshr := if handed.Some? then Allocate(b.mshr, handed.value.handle.slot, Allocation(b.s0.value.request, b.s0.value.port))
               else b.mshr)
  }

  /** The chosen operation enters s0. */
  function LoadStage(b: Bank, chosen: Option<Op>): Bank {
    match chosen
    case None => b.(s0 := None)
    case Some(op) =>
      match op
      case CoreOp(_, _) => b.(s0 := chosen, reserved := b.reserved + 1)
      case ReplayOp(_, _, _) => b.(s0 := chosen)
      case FillOp(_, f) => b.(s0 := chosen, mshr := Start(b.mshr, f.handle), forwarded := f, forwarding := true)
      case InitOp(_) => b.(s0 := chosen, initNext := b.initNext + 1)
      case FlushOp(_, _) => b.(s0 := chosen)
  }

  function FlushCount(c: Spec): nat {
    if c.writeback then c.sets * c.ways else c.sets
  }

  /** The flush state and index after the edge; `b` holds the old registers, `initNext` the new scan index. */
  function NextFlush(c: Spec, b: Bank, i: Input, chosen: Option<Op>, initNext: nat): (FlushState, nat) {
    var walked := chosen.Some? && chosen.value.FlushOp?;
    var (state, index) :=
      match b.flushing
      case FlushIdle => (FlushIdle, b.flushIndex)
      case FlushWait =>
        if initNext == c.sets && b.reserved == 0 && Empty(b) then (FlushWalk, 0) else (FlushWait, b.flushIndex)
      case FlushWalk =>
        if !walked then (FlushWalk, b.flushIndex)
        else if b.flushIndex + 1 != FlushCount(c) then (FlushWalk, b.flushIndex + 1)
        else if c.bank == 0 then (FlushDone, b.flushIndex + 1)
        else (FlushDrain, b.flushIndex + 1)
      case FlushDrain => (if Empty(b) then FlushDone else FlushDrain, b.flushIndex)
      case FlushDone => (FlushIdle, b.flushIndex);
    var begun := if i.flushBegin then FlushWait else state;
    // A flush latched during the reset scan is acknowledged by the scan itself.
    if chosen.Some? && chosen.value.InitOp? && initNext == c.sets && begun == FlushWait then (FlushDone, index)
    else (begun, index)
  }

  function SettleStage(c: Spec, was: Bank, b: Bank, i: Input, chosen: Option<Op>): Bank {
    var (state, index) := NextFlush(c, was, i, chosen, b.initNext);
    b.(flushing := state, flushIndex := index, mshr := Registered(b.mshr))
  }

  /** The states the step is meant for; in the others the source would index out of range. */
  predicate Runnable(c: Spec, b: Bank)
    requires c.Valid()
  {
    && ExecuteOk(c, b)
    && |b.mshr.entries| == c.registers && b.mshr.free < c.registers
    && (b.mshr.head.Some? ==> Live(b.mshr, b.mshr.head.value) && RequestOk(c, HeadEntry(b).request))
    && (b.s1.Some? && b.s1.value.op.CoreOp? ==> b.s1.value.allocation.Some?)
  }

  function Answer(c: Spec, b: Bank): seq<PortResponse>
    requires c.Valid() && Runnable(c, b)
  {
    if Forwards(c, b) then [ForwardedResponse(c, HeadEntry(b), b.forwarded)] else []
  }

  /** The bank after one edge whose checks pass. */
  function Step(c: Spec, b: Bank, i: Input): Bank
    requires c.Valid() && Runnable(c, b) && InputOk(c, b, i) && EventsOk(b.mshr, EventsOf(c, b, i))
  {
    var ev := EventsOf(c, b, i);
    var chosen := Choose(c, b, i);
    var stalled := Stalled(c, b);
    var b0 := Pop(b, i);
    var b1 := if stalled then b0 else CommitStage(b0);
    var b2 := if ev.dequeue then ReleaseStage(b1, Answer(c, b)) else b1;
    var b3 := if stalled then b2 else ExecuteStage(c, b2, Handed(b.mshr, ev));
    var b4 := if stalled then b3 else LoadStage(b3, chosen);
    SettleStage(c, b, b4, i, chosen)
  }

  function EdgeOf(c: Spec, b: Bank, i: Input): Edge
    requires c.Valid() && Runnable(c, b) && InputOk(c, b, i)
  {
    var chosen := Choose(c, b, i);
    Edge(chosen.Some? && chosen.value.CoreOp?,
         chosen.Some? && chosen.value.FillOp?,
         if b.responses != [] then Some(b.responses[0]) else None,
         b.responses != [] && i.responseReady,
         if b.memory != [] then Some(b.memory[0]) else None,
         b.memory != [] && i.memoryReady,
         if !Stalled(c, b) && b.s1.Some? then CommittedStore(b.s1.value) else None,
         b.flushing == FlushDone)
  }

  /** The array has the word's set, and takes the store if it is one. */
  predicate TakesWord(c: Spec, a: Array, r: Request)
    requires c.Valid() && Shaped(c, a)
  {
    && Located(c, a, r.address)
    && (r.write ==> c.writeback && forall i | c.wordBytes <= i < 8 :: !r.enables[i])
  }

  /** The array accepts s0, and a replay after a good fill finds its line. */
  predicate ArrayOk(c: Spec, b: Bank)
    requires c.Valid() && ExecuteOk(c, b)
  {
    b.s0.Some? ==>
      match b.s0.value
      case CoreOp(r, _) => TakesWord(c, b.store, r)
      case ReplayOp(r, _, f) => f.status.Ok? ==> TakesWord(c, b.store, r) && Lookup(c, b.store, r.address).Some?
      case FillOp(l, f) => f.status.Ok? ==> Located(c, b.store, l)
      case InitOp(_) => true
      case FlushOp(_, _) => true
  }
}
