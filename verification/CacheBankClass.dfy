/**
 The bank as the source keeps it: one object that owns an array and a miss
 register file and updates its registers and queues in place on every edge.
 */
module CacheBankClass {
  import opened CacheTypes
  import opened CacheGeometry
  import opened CacheArrays
  import opened CacheArrayClass
  import opened CacheMissRegisters
  import opened CacheBanks

  const NO_EDGE: Edge := Edge(false, false, None, false, None, false, None, false)

  /** The answer queued by an edge: the load in s1, else the forwarded replay head. */
  function PushedResponse(c: Spec, b: Bank): Option<PortResponse>
    requires c.Valid() && Runnable(c, b)
  {
    if Stalled(c, b) then None
    else if CommitRead(b) then Some(PortResponse(b.s1.value.op.port, b.s1.value.reply))
    else if Forwards(c, b) then Some(ForwardedResponse(c, HeadEntry(b), b.forwarded))
    else None
  }

  /** The line request queued by an edge: a writeback, else a root miss. */
  function PushedMemory(c: Spec, b: Bank): Option<LineRequest> {
    if Stalled(c, b) || b.s1.None? then None
    else
      var q := CommittedMemory(b.s1.value);
      if q == [] then None else Some(q[0])
  }

  function Pushed<T>(q: seq<T>, delivered: bool, x: Option<T>): seq<T> {
    (if delivered && q != [] then q[1..] else q) + (if x.Some? then [x.value] else [])
  }

  /** The bank once s1 and the replay head have left. */
  function Leave(c: Spec, b: Bank, i: Input): Bank
    requires c.Valid() && Runnable(c, b) && InputOk(c, b, i) && EventsOk(b.mshr, EventsOf(c, b, i)) && !Stalled(c, b)
  {
    var b1 := CommitStage(Pop(b, i));
    if EventsOf(c, b, i).dequeue then ReleaseStage(b1, Answer(c, b)) else b1
  }

  lemma LeaveTable(c: Spec, b: Bank, i: Input)
    requires c.Valid() && Runnable(c, b) && InputOk(c, b, i) && EventsOk(b.mshr, EventsOf(c, b, i)) && !Stalled(c, b)
    ensures var t, ev := Leave(c, b, i), EventsOf(c, b, i);
            && t.mshr == Dequeued(b.mshr, ev)
            && t.reserved == b.reserved - (if ev.dequeue then 1 else 0)
                             - (if ev.finalize.Some? && ev.finalize.value.release then 1 else 0)
            && t.s0 == b.s0 && t.store == b.store && t.initNext == b.initNext && t.forwarded == b.forwarded
            && t.forwarding == Pop(b, i).forwarding
  {
  }

  lemma LeaveResponses(c: Spec, b: Bank, i: Input)
    requires c.Valid() && Runnable(c, b) && InputOk(c, b, i) && EventsOk(b.mshr, EventsOf(c, b, i)) && !Stalled(c, b)
    ensures Leave(c, b, i).responses == Pushed(b.responses, i.responseReady, PushedResponse(c, b))
  {
    hide EventsOk, InputOk, EventsOf, Choose, Runnable, Finalize, Dequeue, ForwardedResponse;
    AnswerLeaves(c, b, i);
    CommitFits(c, b, i);
    var b1 := CommitStage(Pop(b, i));
    var first := if b.s1.Some? then CommittedResponse(b.s1.value) else [];
    assert b1.responses == Pop(b, i).responses + first;
    assert first + Answer(c, b) == if PushedResponse(c, b).Some? then [PushedResponse(c, b).value] else [];
    assert Pop(b, i).responses + first + Answer(c, b) == Pop(b, i).responses + (first + Answer(c, b));
  }

  lemma CommitFits(c: Spec, b: Bank, i: Input)
    requires c.Valid() && Runnable(c, b) && InputOk(c, b, i) && EventsOk(b.mshr, EventsOf(c, b, i)) && !Stalled(c, b)
    ensures HeadOk(b) && CommitOk(Pop(b, i))
  {
    hide Choose, RequestOk;
  }

  lemma AnswerLeaves(c: Spec, b: Bank, i: Input)
    requires c.Valid() && Runnable(c, b) && InputOk(c, b, i)
    ensures !EventsOf(c, b, i).dequeue ==> Answer(c, b) == []
  {
    hide Choose, InputOk, RequestOk, ForwardedResponse;
  }

  lemma LeaveMemory(c: Spec, b: Bank, i: Input)
    requires c.Valid() && Runnable(c, b) && InputOk(c, b, i) && EventsOk(b.mshr, EventsOf(c, b, i)) && !Stalled(c, b)
    ensures Leave(c, b, i).memory == Pushed(b.memory, i.memoryReady, PushedMemory(c, b))
  {
    assert Leave(c, b, i).memory == CommitStage(Pop(b, i)).memory;
  }

  /** What one edge decides, from the old registers. */
  datatype Plan = Plan(stalled: bool, chosen: Option<Op>, events: Events, handed: Option<Allocated>,
                       response: Option<PortResponse>, request: Option<LineRequest>)

  function PlanOf(c: Spec, b: Bank, i: Input): Plan
    requires c.Valid() && Runnable(c, b) && InputOk(c, b, i) && EventsOk(b.mshr, EventsOf(c, b, i))
  {
    Plan(Stalled(c, b), Choose(c, b, i), EventsOf(c, b, i), Handed(b.mshr, EventsOf(c, b, i)),
         PushedResponse(c, b), PushedMemory(c, b))
  }

  /** The plan's register-file events are those of its operations. */
  predicate PlanFits(b: Bank, p: Plan) {
    && EventsOk(b.mshr, p.events)
    && p.events.fill == (if p.chosen.Some? && p.chosen.value.FillOp? then Some(p.chosen.value.fill.handle) else None)
    && p.events.allocate == (if !p.stalled && b.s0.Some? && b.s0.value.CoreOp? then Some(Allocation(b.s0.value.request, b.s0.value.port)) else None)
    && p.handed.Some? == p.events.allocate.Some?
    && (p.handed.Some? ==> p.handed.value.handle.slot == b.mshr.free)
  }

  /** The bank `t` after an edge planned as `p`, field by field in the order the source updates them. */
  ghost predicate Planned(c: Spec, b: Bank, i: Input, p: Plan, t: Bank)
    requires c.Valid() && ExecuteOk(c, b) && HeadOk(b) && EventsOk(b.mshr, p.events)
  {
    var taken := p.chosen.Some? && p.chosen.value.FillOp?;
    && t.responses == Pushed(b.responses, i.responseReady, p.response)
    && t.memory == Pushed(b.memory, i.memoryReady, p.request)
    && t.reserved == b.reserved + (if p.chosen.Some? && p.chosen.value.CoreOp? then 1 else 0)
                     - (if p.events.dequeue then 1 else 0)
                     - (if p.events.finalize.Some? && p.events.finalize.value.release then 1 else 0)
    && t.mshr == Apply(b.mshr, p.events)
    && (if p.stalled then t.s0 == b.s0 && t.s1 == b.s1 && t.store == b.store
        else t.s0 == p.chosen && (t.store, t.s1) == Executed(c, b, p.handed))
    && t.forwarding == (taken || (b.forwarding && !(b.mshr.head.Some? && HeadEntry(b).request.write)))
    && t.forwarded == (if taken then p.chosen.value.fill else b.forwarded)
    && t.initNext == b.initNext + (if p.chosen.Some? && p.chosen.value.InitOp? then 1 else 0)
    && (t.flushing, t.flushIndex) == NextFlush(c, b, i, p.chosen, t.initNext)
  }

  /** The last three stages on the fields. */
  lemma FinishFields(c: Spec, b: Bank, t: Bank, i: Input, handed: Option<Allocated>, chosen: Option<Op>)
    requires c.Valid() && ExecuteOk(c, t)
    requires handed.Some? ==> handed.value.handle.slot < |t.mshr.entries|
    requires handed.Some? ==> t.s0.Some? && t.s0.value.CoreOp?
    ensures var r := SettleStage(c, b, LoadStage(ExecuteStage(c, t, handed), chosen), i, chosen);
            var taken := chosen.Some? && chosen.value.FillOp?;
            && r.responses == t.responses && r.memory == t.memory
            && r.reserved == t.reserved + (if chosen.Some? && chosen.value.CoreOp? then 1 else 0)
            && (r.store, r.s1) == Executed(c, t, handed) && r.s0 == chosen
            && r.forwarding == (taken || t.forwarding) && r.forwarded == (if taken then chosen.value.fill else t.forwarded)
            && r.initNext == t.initNext + (if chosen.Some? && chosen.value.InitOp? then 1 else 0)
            && (r.flushing, r.flushIndex) == NextFlush(c, b, i, chosen, r.initNext)
            && r.mshr == Registered(FinishTable(t, handed, chosen))
  {
    hide NextFlush, Executed, ExecuteOk, Registered;
  }

  function FinishTable(t: Bank, handed: Option<Allocated>, chosen: Option<Op>): Mshr
    requires handed.Some? ==> handed.value.handle.slot < |t.mshr.entries|
    requires handed.Some? ==> t.s0.Some? && t.s0.value.CoreOp?
  {
    var m := if handed.Some? then
               Allocate(t.mshr, handed.value.handle.slot, Allocation(t.s0.value.request, t.s0.value.port))
             else t.mshr;
    if chosen.Some? && chosen.value.FillOp? then Start(m, chosen.value.fill.handle) else m
  }

  lemma FinishFollows(c: Spec, b: Bank, i: Input, p: Plan, l: Bank, r: Bank)
    requires c.Valid() && ExecuteOk(c, b) && HeadOk(b) && b.mshr.free < |b.mshr.entries| && PlanFits(b, p) && !p.stalled
    requires l.responses == Pushed(b.responses, i.responseReady, p.response)
    requires l.memory == Pushed(b.memory, i.memoryReady, p.request)
    requires l.mshr == Dequeued(b.mshr, p.events)
    requires l.reserved == b.reserved - (if p.events.dequeue then 1 else 0)
                           - (if p.events.finalize.Some? && p.events.finalize.value.release then 1 else 0)
    requires l.s0 == b.s0 && l.store == b.store && l.initNext == b.initNext && l.forwarded == b.forwarded
    requires l.forwarding == Pop(b, i).forwarding
    requires r == SettleStage(c, b, LoadStage(ExecuteStage(c, l, p.handed), p.chosen), i, p.chosen)
    ensures Planned(c, b, i, p, r)
  {
    hide Executed, NextFlush, Pushed, SettleStage, LoadStage, ExecuteStage, Apply, Registered, FinishTable;
    ExecuteFits(c, b, l);
    SameExecuted(c, b, l, p.handed);
    FinishApplies(b, l, p);
    FinishFields(c, b, l, i, p.handed, p.chosen);
  }

  lemma ExecuteFits(c: Spec, b: Bank, l: Bank)
    requires c.Valid() && ExecuteOk(c, b) && l.s0 == b.s0 && l.store == b.store
    ensures ExecuteOk(c, l)
  {
  }

  lemma FinishApplies(b: Bank, l: Bank, p: Plan)
    requires PlanFits(b, p) && !p.stalled && l.mshr == Dequeued(b.mshr, p.events) && l.s0 == b.s0 && b.mshr.free < |b.mshr.entries|
    ensures p.handed.Some? ==> p.handed.value.handle.slot < |l.mshr.entries| && l.s0.Some? && l.s0.value.CoreOp?
    ensures Registered(FinishTable(l, p.handed, p.chosen)) == Apply(b.mshr, p.events)
  {
  }

  lemma SameExecuted(c: Spec, b: Bank, t: Bank, handed: Option<Allocated>)
    requires c.Valid() && ExecuteOk(c, b) && t.store == b.store && t.s0 == b.s0
    ensures Executed(c, t, handed) == Executed(c, b, handed)
  {
  }

  lemma PlanOfFits(c: Spec, b: Bank, i: Input)
    requires c.Valid() && Runnable(c, b) && InputOk(c, b, i) && EventsOk(b.mshr, EventsOf(c, b, i))
    ensures PlanFits(b, PlanOf(c, b, i))
    ensures var chosen := PlanOf(c, b, i).chosen;
            chosen.Some? && chosen.value.FillOp? ==>
              chosen.value.fill.handle.slot < |b.mshr.entries| && chosen.value.line == b.mshr.entries[chosen.value.fill.handle.slot].line
  {
  }

  lemma TableFits(c: Spec, b: Bank)
    requires c.Valid() && Runnable(c, b)
    ensures ExecuteOk(c, b) && HeadOk(b) && b.mshr.free < |b.mshr.entries|
  {
  }

  /** A plan leaves one bank. */
  lemma PlannedOnce(c: Spec, b: Bank, i: Input, p: Plan, s: Bank, t: Bank)
    requires c.Valid() && ExecuteOk(c, b) && HeadOk(b) && EventsOk(b.mshr, p.events)
    requires Planned(c, b, i, p, s) && Planned(c, b, i, p, t)
    ensures s == t
  {
    hide Pushed, Apply, Executed, NextFlush, EventsOk, ExecuteOk;
  }

  lemma StepIsFinish(c: Spec, b: Bank, i: Input)
    requires c.Valid() && Runnable(c, b) && InputOk(c, b, i) && EventsOk(b.mshr, EventsOf(c, b, i)) && !Stalled(c, b)
    ensures ExecuteOk(c, Leave(c, b, i)) && |Leave(c, b, i).mshr.entries| == |b.mshr.entries| && Leave(c, b, i).s0 == b.s0
    ensures Step(c, b, i) ==
            SettleStage(c, b, LoadStage(ExecuteStage(c, Leave(c, b, i), Handed(b.mshr, EventsOf(c, b, i))), Choose(c, b, i)),
                        i, Choose(c, b, i))
  {
  }

  lemma StalledStep(c: Spec, b: Bank, i: Input)
    requires c.Valid() && Runnable(c, b) && InputOk(c, b, i) && EventsOk(b.mshr, EventsOf(c, b, i)) && Stalled(c, b)
    ensures EventsOf(c, b, i) == Events(None, None, None, false) && Choose(c, b, i) == None
    ensures Step(c, b, i) == SettleStage(c, b, Pop(b, i), i, None)
  {
  }

  /** `Step` is the planned edge. */
  lemma StepFollows(c: Spec, b: Bank, i: Input)
    requires c.Valid() && Runnable(c, b) && InputOk(c, b, i) && EventsOk(b.mshr, EventsOf(c, b, i))
    ensures Planned(c, b, i, PlanOf(c, b, i), Step(c, b, i))
  {
    if Stalled(c, b) {
      StalledStep(c, b, i);
    } else {
      LeaveTable(c, b, i);
      LeaveResponses(c, b, i);
      LeaveMemory(c, b, i);
      PlanOfFits(c, b, i);
      StepIsFinish(c, b, i);
      FinishFollows(c, b, i, PlanOf(c, b, i), Leave(c, b, i), Step(c, b, i));
    }
  }

  /** The entry a fill answers is still there, unchanged in its line, after the events of the edge. */
  lemma FillTargetKept(m: Mshr, ev: Events)
    requires EventsOk(m, ev) && ev.fill.Some?
    ensures var h := ev.fill.value;
            Live(Apply(m, ev), h) && Apply(m, ev).entries[h.slot].line == m.entries[h.slot].line
  {
    assert !ev.dequeue;
    var f := Finalized(m, ev);
    assert Live(f, ev.fill.value) && f.entries[ev.fill.value.slot].line == m.entries[ev.fill.value.slot].line;
  }

  class CacheBank {
    const spec: Spec
    const store: CacheArray
    const mshr: CacheMSHR
    var reserved: int
    var s0: Option<Op>
    var s1: Option<Commit>
    var responses: seq<PortResponse>
    var memory: seq<LineRequest>
    var initNext: nat
    var flushing: FlushState
    var flushIndex: nat
    var forwarding: bool
    var forwarded: Fill

    function Model(): Bank
      reads this, store, mshr
    {
      Bank(store.Model(), mshr.Model(), reserved, s0, s1, responses, memory, initNext, flushing, flushIndex,
           forwarding, forwarded)
    }

    ghost predicate Valid()
      reads this, store, mshr
    {
      spec.Valid() && store.spec == spec && Runnable(spec, Model())
    }

    constructor (c: Spec)
      requires c.Valid()
      ensures spec == c && Valid() && Model() == NewBank(c) && fresh(store) && fresh(mshr)
    {
      spec := c;
      store := new CacheArray(c);
      mshr := new CacheMSHR(c.registers);
      reserved, s0, s1, responses, memory := 0, None, None, [], [];
      initNext, flushing, flushIndex, forwarding, forwarded := 0, FlushIdle, 0, false, NO_FILL;
    }

    method CheckInput(i: Input) returns (pass: bool)
      requires Valid()
      ensures pass == InputOk(spec, Model(), i)
    {
      pass := false;
      if i.request.Some? {
        if !RequestOk(spec, i.request.value) || i.port >= spec.corePorts { return; }
      }
      if i.flushBegin && flushing != FlushIdle { return; }
      if i.fill.Some? {
        var h := i.fill.value.handle;
        if !Live(mshr.Model(), h) || !mshr.entries[h.slot].finalized { return; }
      }
      pass := true;
    }

    /** What the old s1 commits on this edge. */
    method DecideCommit() returns (stalled: bool, commitRead: bool, finalize: Option<Finalization>,
                                   response: Option<PortResponse>, request: Option<LineRequest>,
                                   applied: Option<StoreReceipt>)
      requires Valid()
      ensures stalled == Stalled(spec, Model()) && commitRead == CommitRead(Model())
      ensures finalize == if !stalled && s1.Some? && s1.value.op.CoreOp? then Some(FinalizationOf(s1.value)) else None
      ensures response == if !stalled && commitRead then Some(PortResponse(s1.value.op.port, s1.value.reply)) else None
      ensures request == PushedMemory(spec, Model())
      ensures applied == if !stalled && s1.Some? then CommittedStore(s1.value) else None
    {
      finalize, response, request, applied := None, None, None, None;
      commitRead := s1.Some? && (s1.value.op.CoreOp? || s1.value.op.ReplayOp?) && !s1.value.op.request.write && s1.value.hit;
      var rootMiss := s1.Some? && s1.value.op.CoreOp? && !s1.value.hit && s1.value.allocation.value.previous.None?;
      var commitMemory := s1.Some? && (s1.value.victim.Some? || rootMiss);
      stalled := (commitRead && |responses| >= spec.responseSize) || (commitMemory && |memory| >= spec.memorySize);
      if !stalled && s1.Some? {
        var x := s1.value;
        if x.op.CoreOp? {
          finalize := Some(Finalization(x.allocation.value.handle, x.hit, x.allocation.value.previous));
        }
        if commitRead {
          response := Some(PortResponse(x.op.port, x.reply));
        }
        if x.victim.Some? {
          request := Some(WriteLine(x.victim.value.line, x.victim.value.data));
        } else if rootMiss {
          request := Some(ReadLine(LineOf(x.op.request.address), x.allocation.value.handle));
        }
        if (x.op.CoreOp? || x.op.ReplayOp?) && x.op.request.write && x.hit {
          applied := Some(StoreReceipt(x.op.request, x.op.port, x.reply.status));
        }
      }
    }

    /** What enters s0 on this edge; a fill's line is left to the table. */
    method Select(i: Input, stalled: bool, forwardHead: bool) returns (selected: Option<Op>)
      requires Valid() && InputOk(spec, Model(), i)
      requires stalled == Stalled(spec, Model()) && forwardHead == ForwardHead(spec, Model())
      ensures selected == Choose(spec, Model(), i)
    {
      selected := None;
      var replay := mshr.head.Some?;
      var almostFull := |memory| >= spec.memorySize - spec.latency;
      if initNext < spec.sets {
        selected := Some(InitOp(initNext));
      } else if !stalled {
        if replay && !forwardHead {
          var e := mshr.entries[mshr.head.value.slot];
          selected := Some(ReplayOp(e.request, e.port, forwarded));
        } else if i.fill.Some? && !(forwarding && replay) && (!spec.writeback || !almostFull) {
          selected := Some(FillOp(mshr.entries[i.fill.value.handle.slot].line, i.fill.value));
        } else if flushing == FlushWalk && (!spec.writeback || !almostFull) {
          selected := Some(FlushOp(flushIndex % spec.sets, flushIndex / spec.sets));
        } else if flushing == FlushIdle && !i.flushBegin && i.request.Some? && !almostFull && reserved < spec.registers {
          selected := Some(CoreOp(i.request.value, i.port));
        }
      }
      if stalled {
        selected := None;
      }
    }

    /** s0 meets the array; an error when the array refuses it or a replay misses. */
    method Execute(allocation: Option<Allocated>) returns (ok: bool, next: Option<Commit>)
      requires spec.Valid() && store.spec == spec && ExecuteOk(spec, Model())
      modifies store
      ensures ok == old(ArrayOk(spec, Model()))
      ensures ok ==> (store.Model(), next) == old(Executed(spec, Model(), allocation))
    {
      ok, next := true, None;
      if s0.None? { return; }
      var op := s0.value;
      match op
      case InitOp(s) =>
        store.InitSet(s);
        next := Some(Commit(op, false, allocation, NO_RESPONSE, None));
      case CoreOp(r, p) =>
        ok, next := ExecuteAccess(op, allocation);
      case ReplayOp(r, p, f) =>
        if f.status.Failed? {
          next := Some(Commit(op, true, allocation, Response(r.id, ZERO_WORD, f.status), None));
        } else {
          ok, next := ExecuteAccess(op, allocation);
          if ok && !next.value.hit {
            ok, next := false, None;
          }
        }
      case FillOp(l, f) =>
        var evicted: Option<Eviction> := None;
        if f.status.Ok? {
          ok, evicted := store.Fill(l, f.data);
        }
        next := Some(Commit(op, false, allocation, NO_RESPONSE, evicted));
      case FlushOp(s, w) =>
        var evicted: Option<Eviction> := None;
        if spec.writeback {
          evicted := store.FlushWay(s, w);
        } else {
          store.FlushSet(s);
        }
        next := Some(Commit(op, false, allocation, NO_RESPONSE, evicted));
    }

    method ExecuteAccess(op: Op, allocation: Option<Allocated>) returns (ok: bool, next: Option<Commit>)
      requires store.Valid() && store.spec == spec && Access(op)
      modifies store
      ensures ok == old(TakesWord(spec, store.Model(), op.request))
      ensures ok ==> (store.Model(), next) == old(AccessArray(spec, store.Model(), op, allocation))
      ensures ok ==> next.Some? && next.value.hit == old(CacheArrays.Lookup(spec, store.Model(), op.request.address)).Some?
    {
      next := None;
      var hit := false;
      var reply := NO_RESPONSE;
      if op.request.write {
        ok, hit := store.Write(op.request);
      } else {
        ok, reply, hit := store.Read(op.request);
      }
      next := Some(Commit(op, hit, allocation, reply, None));
    }

    /** The flush machine, from the predicates of the old edge. */
    method AdvanceFlush(i: Input, selected: Option<Op>, wasEmpty: bool, noMisses: bool, ghost b: Bank)
      requires b.flushing == flushing && b.flushIndex == flushIndex
      requires wasEmpty == Empty(b) && noMisses == (b.reserved == 0)
      modifies this`flushing, this`flushIndex
      ensures (flushing, flushIndex) == NextFlush(spec, b, i, selected, initNext)
    {
      match flushing {
      case FlushIdle =>
      case FlushWait =>
        if initNext == spec.sets && noMisses && wasEmpty {
          flushing, flushIndex := FlushWalk, 0;
        }
      case FlushWalk =>
        if selected.Some? && selected.value.FlushOp? {
          flushIndex := flushIndex + 1;
          var count := spec.sets;
          if spec.writeback {
            count := count * spec.ways;
          }
          if flushIndex == count {
            flushing := if spec.bank == 0 then FlushDone else FlushDrain;
          }
        }
      case FlushDrain =>
        if wasEmpty {
          flushing := FlushDone;
        }
      case FlushDone =>
        flushing := FlushIdle;
      }
      if i.flushBegin {
        flushing := FlushWait;
      }
      if selected.Some? && selected.value.InitOp? && initNext == spec.sets && flushing == FlushWait {
        flushing := FlushDone;
      }
    }

    /** Whether the replay head is a load for the latest fill, and the answer it gets when there is room. */
    method Forward(stalled: bool, commitRead: bool) returns (forwardHead: bool, answer: Option<PortResponse>)
      requires Valid() && stalled == Stalled(spec, Model()) && commitRead == CommitRead(Model())
      ensures forwardHead == ForwardHead(spec, Model())
      ensures answer == if Forwards(spec, Model()) then Some(ForwardedResponse(spec, HeadEntry(Model()), forwarded)) else None
    {
      forwardHead, answer := false, None;
      if mshr.head.Some? {
        var e := mshr.entries[mshr.head.value.slot];
        forwardHead := forwarding && !e.request.write && !commitRead && !stalled;
        if forwardHead && |responses| < spec.responseSize {
          answer := Some(ForwardedResponse(spec, e, forwarded));
        }
      }
    }

    /** Everything an edge decides before it changes anything. */
    method Decide(i: Input) returns (p: Plan, result: Edge)
      requires Valid() && InputOk(spec, Model(), i)
      ensures p.stalled == Stalled(spec, Model()) && p.chosen == Choose(spec, Model(), i)
      ensures p.events == EventsOf(spec, Model(), i) && p.handed == None
      ensures p.response == PushedResponse(spec, Model()) && p.request == PushedMemory(spec, Model())
      ensures result == EdgeOf(spec, Model(), i)
    {
      var stalled, commitRead, finalize, committed, request, applied := DecideCommit();
      var forwardHead, answer := Forward(stalled, commitRead);
      var selected := Select(i, stalled, forwardHead);
      var dequeue := answer.Some? || (selected.Some? && selected.value.ReplayOp?);
      var allocate := if !stalled && s0.Some? && s0.value.CoreOp? then Some(Allocation(s0.value.request, s0.value.port)) else None;
      var fill := if selected.Some? && selected.value.FillOp? then Some(selected.value.fill.handle) else None;
      p := Plan(stalled, selected, Events(allocate, finalize, fill, dequeue), None,
                if answer.Some? then answer else committed, request);
      result := Edge(selected.Some? && selected.value.CoreOp?, fill.Some?,
                     if responses != [] then Some(responses[0]) else None, responses != [] && i.responseReady,
                     if memory != [] then Some(memory[0]) else None, memory != [] && i.memoryReady,
                     applied, flushing == FlushDone);
    }

    /** Delivered heads leave the queues, new ones join, and the count follows. */
    method Queue(i: Input, p: Plan)
      modifies this`responses, this`memory, this`reserved
      ensures responses == Pushed(old(responses), i.responseReady, p.response)
      ensures memory == Pushed(old(memory), i.memoryReady, p.request)
      ensures reserved == old(reserved) + (if p.chosen.Some? && p.chosen.value.CoreOp? then 1 else 0)
                          - (if p.events.dequeue then 1 else 0)
                          - (if p.events.finalize.Some? && p.events.finalize.value.release then 1 else 0)
    {
      responses := Pushed(responses, i.responseReady, p.response);
      memory := Pushed(memory, i.memoryReady, p.request);
      if p.chosen.Some? && p.chosen.value.CoreOp? { reserved := reserved + 1; }
      if p.events.dequeue { reserved := reserved - 1; }
      if p.events.finalize.Some? && p.events.finalize.value.release { reserved := reserved - 1; }
    }

    /** The forwarding latch and the reset scan. */
    method Latch(p: Plan, storeHead: bool)
      modifies this`forwarding, this`forwarded, this`initNext
      ensures var taken := p.chosen.Some? && p.chosen.value.FillOp?;
              && forwarding == (taken || (old(forwarding) && !storeHead))
              && forwarded == (if taken then p.chosen.value.fill else old(forwarded))
              && initNext == old(initNext) + (if p.chosen.Some? && p.chosen.value.InitOp? then 1 else 0)
    {
      if storeHead {
        forwarding := false;
      }
      if p.chosen.Some? && p.chosen.value.FillOp? {
        forwarded, forwarding := p.chosen.value.fill, true;
      }
      if p.chosen.Some? && p.chosen.value.InitOp? {
        initNext := initNext + 1;
      }
    }

    /** The pipeline registers move; an error when the array refuses s0. */
    method Move(p: Plan, ghost b: Bank) returns (ok: bool)
      requires spec.Valid() && store.spec == spec && ExecuteOk(spec, b) && PlanFits(b, p)
      requires mshr.Model() == Apply(b.mshr, p.events) && store.Model() == b.store && s0 == b.s0
      requires p.chosen.Some? && p.chosen.value.FillOp? ==>
                 p.chosen.value.line == b.mshr.entries[p.chosen.value.fill.handle.slot].line
      modifies this`s0, this`s1, store
      ensures ok == ArrayOk(spec, b)
      ensures ok ==> s0 == p.chosen && (store.Model(), s1) == Executed(spec, b, p.handed)
    {
      var next: Option<Commit>;
      SameExecuted(spec, b, Model(), p.handed);
      ok, next := Execute(p.handed);
      if ok {
        s1, s0 := next, p.chosen;
        if p.chosen.Some? && p.chosen.value.FillOp? {
          FillTargetKept(b.mshr, p.events);
          var f := p.chosen.value.fill;
          s0 := Some(FillOp(mshr.entries[f.handle.slot].line, f));
        }
      }
    }

    /** The updates after the register file has moved. */
    method Advance(i: Input, p: Plan, storeHead: bool, ghost b: Bank) returns (ok: bool)
      requires spec.Valid() && store.spec == spec && ExecuteOk(spec, b) && HeadOk(b) && PlanFits(b, p)
      requires mshr.Model() == Apply(b.mshr, p.events) && Model() == b.(mshr := mshr.Model())
      requires p.chosen.Some? && p.chosen.value.FillOp? ==>
                 p.chosen.value.line == b.mshr.entries[p.chosen.value.fill.handle.slot].line
      requires storeHead == (b.mshr.head.Some? && HeadEntry(b).request.write)
      modifies this, store
      ensures ok == (p.stalled || ArrayOk(spec, b))
      ensures ok ==> Planned(spec, b, i, p, Model())
    {
      hide ArrayOk, Executed, Pushed, NextFlush, EventsOk, Apply, ExecuteOk, PlanFits;
      ok := true;
      var wasEmpty, noMisses := Empty(Model()), reserved == 0;
      Queue(i, p);
      if !p.stalled {
        ok := Move(p, b);
        if !ok { return; }
      }
      Latch(p, storeHead);
      AdvanceFlush(i, p.chosen, wasEmpty, noMisses, b);
    }

    /**
     One edge. A failed check of the offered inputs or of the register file leaves the bank
     untouched; an edge that passes every check leaves it as `Step` says.
     */
    method Step(i: Input) returns (ok: bool, edge: Edge)
      requires Valid()
      modifies this, store, mshr
      ensures !old(InputOk(spec, Model(), i)) ==> !ok && Model() == old(Model())
      ensures old(InputOk(spec, Model(), i) && !EventsOk(mshr.Model(), EventsOf(spec, Model(), i))) ==>
                !ok && Model() == old(Model())
      ensures old(InputOk(spec, Model(), i) && EventsOk(mshr.Model(), EventsOf(spec, Model(), i))) ==>
                && (ok <==> Stalled(spec, old(Model())) || old(ArrayOk(spec, Model())))
                && (ok ==> Model() == CacheBanks.Step(spec, old(Model()), i) && edge == EdgeOf(spec, old(Model()), i))
    {
      hide Runnable, InputOk, EventsOf, EventsOk, Choose, Stalled, ArrayOk, EdgeOf, CacheBanks.Step, ExecuteOk, PlanFits,
           Planned, Apply, CacheMissRegisters.Handed, PushedResponse, PushedMemory;
      ok, edge := false, NO_EDGE;
      ghost var b := Model();
      TableFits(spec, b);
      var pass := CheckInput(i);
      if !pass { return; }
      var p, result := Decide(i);
      var storeHead := mshr.head.Some? && mshr.entries[mshr.head.value.slot].request.write;
      var handed: Option<Allocated>;
      pass, handed := mshr.Step(p.events);
      if !pass { return; }
      p := p.(handed := handed);
      assert p == PlanOf(spec, b, i);
      PlanOfFits(spec, b, i);
      StepFollows(spec, b, i);
      ok := Advance(i, p, storeHead, b);
      edge := result;
      if ok {
        PlannedOnce(spec, b, i, p, Model(), CacheBanks.Step(spec, b, i));
      }
    }
  }
}
