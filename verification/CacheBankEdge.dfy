/** One whole edge of the bank keeps the invariant, and the register file never refuses it. */
module CacheBankEdge {
  import opened CacheTypes
  import opened CacheGeometry
  import opened CacheArrays
  import opened CacheMissRegisters
  import opened CacheChains
  import opened CacheMemorySide
  import opened CacheBanks
  import opened CacheBankSystem
  import opened CacheBankCommit
  import opened CacheBankExecute
  import opened CacheBankLoad

  /** The registered free slot is the first free one, from the first edge on. */
  ghost predicate FreeOk(c: Spec, b: Bank) {
    && b.mshr.free < c.registers
    && (b.initNext > 0 ==> b.mshr == Registered(b.mshr))
  }

  ghost predicate Inv(c: Spec, initial: Memory, s: Sys, x: Aux)
    requires c.Valid()
  {
    && Structure(c, s.bank, x, Unset)
    && Contents(c, initial, s, x)
    && Boot(c, s.bank, x.view)
    && FlushInv(c, s.bank)
    && FreeOk(c, s.bank)
  }

  /** What the clients may present: valid new requests, and one of the returned lines. */
  predicate Offered(c: Spec, s: Sys, i: Input, which: nat)
    requires c.Valid()
  {
    && (i.request.Some? ==> RequestOk(c, i.request.value) && i.port < c.corePorts && i.request.value.id !in s.issued)
    && (i.flushBegin ==> s.bank.flushing == FlushIdle)
    && (i.fill.Some? ==> which < |s.returned| && s.returned[which].fill == i.fill.value)
  }

  /** The one internal error left: a slot has run through every generation. */
  predicate Exhausted(c: Spec, b: Bank)
    requires |b.mshr.entries| == c.registers && b.mshr.free < c.registers
  {
    !Stalled(c, b) && b.s0.Some? && b.s0.value.CoreOp? && b.mshr.entries[b.mshr.free].generation == LAST_GENERATION
  }

  lemma InvRunnable(c: Spec, initial: Memory, s: Sys, x: Aux, i: Input, which: nat)
    requires c.Valid() && Inv(c, initial, s, x) && Offered(c, s, i, which)
    ensures Runnable(c, s.bank) && InputOk(c, s.bank, i)
    ensures i.fill.Some? ==> s.bank.mshr.entries[i.fill.value.handle.slot].line == s.returned[which].line
  {
    var b := s.bank;
    if i.fill.Some? {
      ReturnedWaits(c, initial, s, x, Unset, which);
      var l := s.returned[which].line;
      assert ChainOk(b.mshr, l, x.chains[l]);
    }
  }

  /** The register file accepts every event the bank raises, short of generation exhaustion. */
  lemma EventsAllowed(c: Spec, initial: Memory, s: Sys, x: Aux, i: Input, which: nat)
    requires c.Valid() && Inv(c, initial, s, x) && Offered(c, s, i, which)
    requires Runnable(c, s.bank) && InputOk(c, s.bank, i)
    ensures EventsOk(s.bank.mshr, EventsOf(c, s.bank, i)) <==> !Exhausted(c, s.bank)
  {
    hide CommitRead, Contents, CountOk, FinalizationOf, FlushInv, HeadEntry, HeadServed, LatchOk, LineOf, Linked,
         MemoryAlmostFull, Offered, OpenSlot, Placed, Registered, RequestOk, ResponseSpace, Runnable, S0Ok, S1Ok, Shaped,
         Stalled, Views;
    var b := s.bank;
    var ev := EventsOf(c, b, i);
    CommitAllowed(c, b, x);
    if ev.dequeue {
      var h := b.mshr.head.value;
      var l := b.mshr.entries[h.slot].line;
      assert ChainOk(b.mshr, l, x.chains[l]);
      assert b.mshr.entries[x.chains[l][0]].finalized;
    }
    if ev.allocate.Some? {
      AllocateAllowed(c, b);
    }
  }

  lemma AllocateAllowed(c: Spec, b: Bank)
    requires c.Valid() && |b.mshr.entries| == c.registers && CountOk(c, b) && FreeOk(c, b) && b.initNext > 0
    requires b.s0.Some? && b.s0.value.CoreOp?
    ensures b.mshr.ready && !b.mshr.entries[b.mshr.free].valid
  {
    NotFull(b.mshr.entries);
  }

  function Chosen(c: Spec, s: Sys, i: Input): Option<Op>
    requires c.Valid() && Runnable(c, s.bank) && InputOk(c, s.bank, i)
  {
    Choose(c, s.bank, i)
  }

  /** The system after one edge of the bank. */
  function SysEdge(c: Spec, s: Sys, i: Input, which: nat): Sys
    requires c.Valid() && Runnable(c, s.bank) && InputOk(c, s.bank, i) && EventsOk(s.bank.mshr, EventsOf(c, s.bank, i))
  {
    var b := s.bank;
    var ev := EventsOf(c, b, i);
    var chosen := Choose(c, b, i);
    var stalled := Stalled(c, b);
    var s0 := SysPop(s, i);
    var s1 := if stalled then s0 else SysCommit(s0);
    var s2 := if ev.dequeue then SysRelease(s1, Answer(c, b)) else s1;
    var s3 := if stalled then s2 else SysExecute(c, s2, Handed(b.mshr, ev));
    var s4 := if stalled then s3 else SysLoad(s3, chosen, which);
    SysSettle(c, b, s4, i, chosen)
  }

  lemma SysEdgeIsStep(c: Spec, s: Sys, i: Input, which: nat)
    requires c.Valid() && Runnable(c, s.bank) && InputOk(c, s.bank, i) && EventsOk(s.bank.mshr, EventsOf(c, s.bank, i))
    ensures SysEdge(c, s, i, which).bank == Step(c, s.bank, i)
  {
  }

  ghost predicate Ready(c: Spec, initial: Memory, s: Sys, x: Aux, i: Input, which: nat)
    requires c.Valid()
  {
    && Inv(c, initial, s, x) && Offered(c, s, i, which)
    && Runnable(c, s.bank) && InputOk(c, s.bank, i) && EventsOk(s.bank.mshr, EventsOf(c, s.bank, i))
  }

  /** The system once s1 and the replay head have left. */
  function Departed(c: Spec, s: Sys, i: Input): Sys
    requires c.Valid() && Runnable(c, s.bank) && InputOk(c, s.bank, i) && EventsOk(s.bank.mshr, EventsOf(c, s.bank, i))
    requires !Stalled(c, s.bank)
  {
    var s1 := SysCommit(SysPop(s, i));
    if EventsOf(c, s.bank, i).dequeue then SysRelease(s1, Answer(c, s.bank)) else s1
  }

  ghost function AfterDeparture(c: Spec, s: Sys, x: Aux, i: Input): Aux
    requires c.Valid() && Runnable(c, s.bank) && InputOk(c, s.bank, i) && EventsOk(s.bank.mshr, EventsOf(c, s.bank, i))
    requires !Stalled(c, s.bank)
  {
    var y := AfterCommit(Pop(s.bank, i), x);
    if EventsOf(c, s.bank, i).dequeue then AfterRelease(CommitStage(Pop(s.bank, i)), y) else y
  }

  function LatchAfter(c: Spec, s: Sys, i: Input): Latch
    requires c.Valid() && Runnable(c, s.bank) && InputOk(c, s.bank, i)
  {
    var chosen := Choose(c, s.bank, i);
    if chosen.Some? && chosen.value.ReplayOp? then Held(chosen.value) else Clear
  }

  lemma DepartedFields(c: Spec, s: Sys, i: Input)
    requires c.Valid() && Runnable(c, s.bank) && InputOk(c, s.bank, i) && EventsOk(s.bank.mshr, EventsOf(c, s.bank, i))
    requires !Stalled(c, s.bank)
    ensures var t, b := Departed(c, s, i), s.bank;
            && t.bank.s1.None? && t.bank.s0 == b.s0 && t.bank.store == b.store
            && t.bank.mshr == Dequeued(b.mshr, EventsOf(c, b, i))
            && t.bank.reserved <= b.reserved && t.bank.initNext == b.initNext
            && t.bank.flushing == b.flushing && t.bank.forwarded == b.forwarded
            && t.log == s.log && t.returned == s.returned && t.issued == s.issued && t.backing == s.backing
            && (EventsOf(c, b, i).dequeue || t.bank.mshr.head == b.mshr.head)
  {
  }

  lemma ReleaseAtEdge(c: Spec, initial: Memory, s: Sys, x: Aux, i: Input, s1: Sys, y: Aux)
    requires c.Valid() && Runnable(c, s.bank) && InputOk(c, s.bank, i) && EventsOk(s.bank.mshr, EventsOf(c, s.bank, i))
    requires !Stalled(c, s.bank) && EventsOf(c, s.bank, i).dequeue
    requires s1 == SysCommit(SysPop(s, i)) && Structure(c, s1.bank, y, Unset) && Contents(c, initial, s1, y)
    ensures var t := SysRelease(s1, Answer(c, s.bank));
            && Structure(c, t.bank, AfterRelease(s1.bank, y), LatchAfter(c, s, i))
            && Contents(c, initial, t, AfterRelease(s1.bank, y))
  {
    hide Contents, Structure;
    var e, f := HeadEntry(s1.bank), HeadEntry(s.bank);
    assert e.request == f.request && e.port == f.port;
    ReleaseKeeps(c, initial, s1, y, Answer(c, s.bank), LatchAfter(c, s, i));
  }

  lemma NoLatch(c: Spec, b: Bank, y: Aux)
    requires c.Valid() && Structure(c, b, y, Unset)
    ensures Structure(c, b, y, Clear)
  {
  }

  lemma DepartureKeeps(c: Spec, initial: Memory, s: Sys, x: Aux, i: Input, which: nat)
    requires c.Valid() && Ready(c, initial, s, x, i, which) && !Stalled(c, s.bank)
    ensures var t, y := Departed(c, s, i), AfterDeparture(c, s, x, i);
            && Structure(c, t.bank, y, LatchAfter(c, s, i)) && Contents(c, initial, t, y)
            && y.view == x.view
  {
    hide Contents, Structure, CommitStage, Pop, AfterFinalize, AfterDequeue;
    PopKeeps(c, initial, s, x, i);
    var s0 := SysPop(s, i);
    CommitKeeps(c, initial, s0, x);
    var s1 := SysCommit(s0);
    var y := AfterCommit(s0.bank, x);
    if EventsOf(c, s.bank, i).dequeue {
      ReleaseAtEdge(c, initial, s, x, i, s1, y);
    } else {
      NoLatch(c, s1.bank, y);
    }
  }

  lemma HandedAt(m: Mshr, chains: Chains, open: Option<nat>, ev: Events, after: Chains, absent: bool)
    requires ChainInv(m, chains, open) && EventsOk(m, ev) && ev.allocate.Some?
    requires open == if ev.finalize.Some? then Some(ev.finalize.value.handle.slot) else None
    requires ChainInv(Dequeued(m, ev), after, None)
    requires absent && ev.finalize.Some? && ev.finalize.value.release ==>
               m.entries[ev.finalize.value.handle.slot].line != LineOf(ev.allocate.value.request.address)
    ensures var d, h, l := Dequeued(m, ev), Handed(m, ev).value, LineOf(ev.allocate.value.request.address);
            && h.handle.slot < |d.entries| && !d.entries[h.handle.slot].valid
            && h.handle.generation == d.entries[h.handle.slot].generation + 1
            && (absent ==>
                  if h.previous.None? then l !in after
                  else l in after && h.previous.value == TailOf(d, after[l]))
  {
    var d, l := Dequeued(m, ev), LineOf(ev.allocate.value.request.address);
    EdgeKeeps(m, ev, m.free);
    assert EdgeEntry(m, ev, m.free);
    if absent {
      PredecessorIsTail(m, chains, open, ev, after, l);
      if l in after {
        assert ChainOk(d, l, after[l]);
      }
    }
  }

  /** The slot and predecessor handed out fit the table the core operation finds. */
  lemma HandedFits(c: Spec, initial: Memory, s: Sys, x: Aux, i: Input, which: nat)
    requires c.Valid() && Ready(c, initial, s, x, i, which) && !Stalled(c, s.bank)
    requires var y := AfterDeparture(c, s, x, i);
             ChainInv(Dequeued(s.bank.mshr, EventsOf(c, s.bank, i)), y.chains, None)
    ensures var t, y := Departed(c, s, i), AfterDeparture(c, s, x, i);
            HandedOk(t.bank, x.view, y.chains, Handed(s.bank.mshr, EventsOf(c, s.bank, i)))
  {
    var b, y := s.bank, AfterDeparture(c, s, x, i);
    var ev := EventsOf(c, b, i);
    DepartedFields(c, s, i);
    if ev.allocate.Some? {
      HandedAt(b.mshr, x.chains, OpenSlot(b), ev, y.chains, LineOf(b.s0.value.request.address) !in x.view);
    }
  }

  /** The operation chosen from the old registers still fits when it is loaded. */
  lemma ChosenFits(c: Spec, initial: Memory, s: Sys, x: Aux, i: Input, which: nat, t: Sys)
    requires c.Valid() && Ready(c, initial, s, x, i, which) && !Stalled(c, s.bank)
    requires t.bank.s0.None? && t.bank.reserved <= s.bank.reserved && t.bank.reserved >= 0 && t.bank.initNext == s.bank.initNext
    requires t.returned == s.returned
    requires EventsOf(c, s.bank, i).dequeue || t.bank.mshr.head == s.bank.mshr.head
    ensures LoadOk(c, t, LatchAfter(c, s, i), Choose(c, s.bank, i), which)
  {
    var b := s.bank;
    var chosen := Choose(c, b, i);
    InvRunnable(c, initial, s, x, i, which);
    if chosen.Some? && chosen.value.FlushOp? {
      FlushIndexFits(c, b.flushIndex);
    }
  }

  lemma FlushIndexFits(c: Spec, n: nat)
    requires c.Valid() && n < FlushCount(c)
    ensures n % c.sets < c.sets && n / c.sets < c.ways
    ensures !c.writeback ==> n / c.sets == 0 && n % c.sets == n
  {
    var q := n / c.sets;
    assert q >= c.ways ==> c.sets * q >= c.sets * c.ways;
  }

  /** The system once s0 has had its turn. */
  function Turned(c: Spec, s: Sys, i: Input): Sys
    requires c.Valid() && Runnable(c, s.bank) && InputOk(c, s.bank, i) && EventsOk(s.bank.mshr, EventsOf(c, s.bank, i))
    requires !Stalled(c, s.bank)
  {
    SysExecute(c, Departed(c, s, i), Handed(s.bank.mshr, EventsOf(c, s.bank, i)))
  }

  lemma TurnKeeps(c: Spec, initial: Memory, s: Sys, x: Aux, i: Input, which: nat) returns (w: View)
    requires c.Valid() && Ready(c, initial, s, x, i, which) && !Stalled(c, s.bank)
    ensures var t, y := Turned(c, s, i), AfterDeparture(c, s, x, i).(view := w);
            && Structure(c, t.bank, y, LatchAfter(c, s, i)) && Contents(c, initial, t, y)
            && ViewAfter(c, s.bank, x.view, w)
  {
    DepartedFields(c, s, i);
    DepartureKeeps(c, initial, s, x, i, which);
    HandedFits(c, initial, s, x, i, which);
    var t, y := Departed(c, s, i), AfterDeparture(c, s, x, i);
    w := ExecuteKeeps(c, initial, t, y, LatchAfter(c, s, i), Handed(s.bank.mshr, EventsOf(c, s.bank, i)));
  }

  /** What the proof tracks after an edge on which the pipeline moves. */
  ghost function AfterEdge(c: Spec, s: Sys, x: Aux, i: Input, w: View): Aux
    requires c.Valid() && Runnable(c, s.bank) && InputOk(c, s.bank, i) && EventsOk(s.bank.mshr, EventsOf(c, s.bank, i))
  {
    if Stalled(c, s.bank) then x
    else AfterLoad(Turned(c, s, i), AfterDeparture(c, s, x, i).(view := w), Choose(c, s.bank, i))
  }

  lemma StalledEdge(c: Spec, initial: Memory, s: Sys, x: Aux, i: Input, which: nat)
    requires c.Valid() && Ready(c, initial, s, x, i, which) && Stalled(c, s.bank)
    ensures var t, y := SysEdge(c, s, i, which), AfterEdge(c, s, x, i, x.view);
            Structure(c, t.bank, y, Unset) && Contents(c, initial, t, y)
  {
    hide Contents;
    PopKeeps(c, initial, s, x, i);
    SettleKeeps(c, initial, s.bank, SysPop(s, i), x, i, Choose(c, s.bank, i));
  }

  lemma TurnedEdge(c: Spec, initial: Memory, s: Sys, x: Aux, i: Input, which: nat) returns (w: View)
    requires c.Valid() && Ready(c, initial, s, x, i, which) && !Stalled(c, s.bank)
    ensures var t, y := SysEdge(c, s, i, which), AfterEdge(c, s, x, i, w);
            Structure(c, t.bank, y, Unset) && Contents(c, initial, t, y) && ViewAfter(c, s.bank, x.view, w)
  {
    hide Contents;
    var chosen := Choose(c, s.bank, i);
    w := TurnKeeps(c, initial, s, x, i, which);
    var t, y := Turned(c, s, i), AfterDeparture(c, s, x, i).(view := w);
    DepartedFields(c, s, i);
    ChosenFits(c, initial, s, x, i, which, t);
    LoadKeeps(c, initial, t, y, LatchAfter(c, s, i), chosen, which);
    SettleKeeps(c, initial, s.bank, SysLoad(t, chosen, which), AfterLoad(t, y, chosen), i, chosen);
  }

  lemma EdgeStructure(c: Spec, initial: Memory, s: Sys, x: Aux, i: Input, which: nat) returns (w: View)
    requires c.Valid() && Ready(c, initial, s, x, i, which)
    ensures var t, y := SysEdge(c, s, i, which), AfterEdge(c, s, x, i, w);
            && Structure(c, t.bank, y, Unset) && Contents(c, initial, t, y)
            && (Stalled(c, s.bank) ==> w == x.view)
            && (!Stalled(c, s.bank) ==> ViewAfter(c, s.bank, x.view, w))
  {
    hide Contents, Structure, SysEdge, AfterEdge;
    w := x.view;
    if Stalled(c, s.bank) {
      StalledEdge(c, initial, s, x, i, which);
    } else {
      w := TurnedEdge(c, initial, s, x, i, which);
    }
  }
}
