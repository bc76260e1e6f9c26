/** The reset scan and the flush walk, edge by edge. */
module CacheBankFlush {
  import opened CacheTypes
  import opened CacheGeometry
  import opened CacheArrays
  import opened CacheMissRegisters
  import opened CacheChains
  import opened CacheMemorySide
  import opened CacheBanks
  import opened CacheBankSystem
  import opened CacheBankLoad
  import opened CacheBankEdge

  function InitCount(chosen: Option<Op>): nat {
    if chosen.Some? && chosen.value.InitOp? then 1 else 0
  }

  /** The fields of the bank after an edge on which the pipeline moves. */
  lemma MovedFields(c: Spec, s: Sys, i: Input, which: nat)
    requires c.Valid() && Runnable(c, s.bank) && InputOk(c, s.bank, i) && EventsOk(s.bank.mshr, EventsOf(c, s.bank, i))
    requires !Stalled(c, s.bank)
    ensures var t, b, d, chosen := SysEdge(c, s, i, which).bank, s.bank, Departed(c, s, i).bank, Choose(c, s.bank, i);
            && ExecuteOk(c, d) && d.s0 == b.s0 && d.store == b.store
            && t.s0 == chosen && t.initNext == b.initNext + InitCount(chosen)
            && (t.store, t.s1) == Executed(c, d, Handed(b.mshr, EventsOf(c, b, i)))
            && t.reserved == d.reserved + (if chosen.Some? && chosen.value.CoreOp? then 1 else 0)
            && d.reserved <= b.reserved
            && (t.flushing, t.flushIndex) == NextFlush(c, b, i, chosen, t.initNext)
  {
    hide Allocate, Answer, Choose, CommitOk, EventsOf, EventsOk, Executed, Handed, HeadEntry, HeadOk, InputOk, Live,
         NextFlush, Performs, Registered, RequestOk, Shaped, Stalled, Start, SysCommit, SysPop, SysRelease;
    DepartedFields(c, s, i);
  }

  lemma HeldFields(c: Spec, s: Sys, i: Input, which: nat)
    requires c.Valid() && Runnable(c, s.bank) && InputOk(c, s.bank, i) && EventsOk(s.bank.mshr, EventsOf(c, s.bank, i))
    requires Stalled(c, s.bank)
    ensures var t, b := SysEdge(c, s, i, which).bank, s.bank;
            && t.s0 == b.s0 && t.s1 == b.s1 && t.store == b.store && t.initNext == b.initNext && t.reserved == b.reserved
            && (t.flushing, t.flushIndex) == NextFlush(c, b, i, None, b.initNext)
  {
  }

  lemma FreeKeeps(c: Spec, s: Sys, i: Input, which: nat)
    requires c.Valid() && Runnable(c, s.bank) && InputOk(c, s.bank, i) && EventsOk(s.bank.mshr, EventsOf(c, s.bank, i))
    ensures var t := SysEdge(c, s, i, which).bank;
            t.mshr == Registered(t.mshr) && (|t.mshr.entries| == c.registers ==> t.mshr.free < c.registers)
  {
  }

  lemma BootKeeps(c: Spec, initial: Memory, s: Sys, x: Aux, i: Input, which: nat, w: View)
    requires c.Valid() && Ready(c, initial, s, x, i, which)
    requires Structure(c, SysEdge(c, s, i, which).bank, AfterEdge(c, s, x, i, w), Unset)
    requires if Stalled(c, s.bank) then w == x.view else CacheBankExecute.ViewAfter(c, s.bank, x.view, w)
    ensures Boot(c, SysEdge(c, s, i, which).bank, w)
  {
    hide AfterEdge, Answered, ChainOk, CleanLines, Cleared, CountOk, Departed, EventsOk, Finalize, Follows, ForwardHead,
         FreeOk, HeadLine, InFlight, InputOk, LatchOk, LineAddress, LineOf, Logical, MemoryAlmostFull, OpenSlot, Owned,
         Placed, Predecessor, QueueOwned, ReadsOrdered, RequestOk, ResponseSpace, ReturnOk, Runnable, S0Ok, S1Ok, SetOf,
         Stalled, Stored, SysEdge, TagOf, WalkedTo, WordOffset;
    if Stalled(c, s.bank) {
      HeldFields(c, s, i, which);
    } else if Booting(c, s.bank) {
      BootMoves(c, initial, s, x, i, which, w);
    } else {
      MovedFields(c, s, i, which);
      InitializedAfter(c, Departed(c, s, i).bank, Handed(s.bank.mshr, EventsOf(c, s.bank, i)));
    }
  }

  lemma BootMoves(c: Spec, initial: Memory, s: Sys, x: Aux, i: Input, which: nat, w: View)
    requires c.Valid() && Ready(c, initial, s, x, i, which) && Booting(c, s.bank) && !Stalled(c, s.bank)
    requires Shaped(c, SysEdge(c, s, i, which).bank.store)
    requires CacheBankExecute.ViewAfter(c, s.bank, x.view, w)
    ensures Boot(c, SysEdge(c, s, i, which).bank, w)
  {
    hide Contents, Departed, EventsOf, EventsOk, ExecuteOk, FlushInv, FreeOk, Handed, HeadEntry, LineOf, Merge, Offered,
         RequestOk, Shaped, Stalled, Structure, SysEdge;
    MovedFields(c, s, i, which);
    InitializedAfter(c, Departed(c, s, i).bank, Handed(s.bank.mshr, EventsOf(c, s.bank, i)));
    Quiet(c, initial, s, x, i, which);
  }

  /** s0's turn initializes its own set and forgets none. */
  lemma InitializedAfter(c: Spec, d: Bank, handed: Option<Allocated>)
    requires c.Valid() && ExecuteOk(c, d)
    ensures var (a, k) := Executed(c, d, handed);
            && Shaped(c, a)
            && (forall t | 0 <= t < c.sets :: a.initialized[t] == (d.store.initialized[t] || d.s0 == Some(InitOp(t))))
            && (k.Some? <==> d.s0.Some?) && (k.Some? ==> k.value.op == d.s0.value)
  {
    if d.s0.Some? && d.s0.value.FlushOp? && !c.writeback {
      FlushSetInitialized(c, d.store, d.s0.value.set_, c.ways);
    }
  }

  lemma {:induction false} FlushSetInitialized(c: Spec, a: Array, s: nat, n: nat)
    requires c.Valid() && Shaped(c, a) && s < c.sets && n <= c.ways
    ensures FlushSet(c, a, s, n).initialized == a.initialized
  {
    if n > 0 {
      FlushSetInitialized(c, a, s, n - 1);
    }
  }

  lemma FlushWayLines(c: Spec, a: Array, s: nat, w: nat, t: nat, k: nat)
    requires c.Valid() && Shaped(c, a) && s < c.sets && w < c.ways && t < c.sets && k < c.ways
    ensures FlushWay(c, a, s, w).0.lines[t][k].valid == (a.lines[t][k].valid && !(t == s && k == w))
  {
  }

  lemma {:induction false} FlushSetLines(c: Spec, a: Array, s: nat, n: nat, t: nat, w: nat)
    requires c.Valid() && Shaped(c, a) && s < c.sets && n <= c.ways && t < c.sets && w < c.ways
    ensures FlushSet(c, a, s, n).lines[t][w].valid == (a.lines[t][w].valid && !(t == s && w < n))
  {
    if n > 0 {
      FlushSetLines(c, a, s, n - 1, t, w);
      FlushWayLines(c, FlushSet(c, a, s, n - 1), s, n - 1, t, w);
    }
  }

  // --------------------------------------------------------------- the walk

  predicate Sweeping(b: Bank) {
    b.s0.None? || b.s0.value.FlushOp? || b.s0.value.InitOp?
  }

  /** A turn of a flush, of the reset scan or of nothing makes no slot valid. */
  lemma SweepClears(c: Spec, d: Bank, handed: Option<Allocated>)
    requires c.Valid() && ExecuteOk(c, d) && Sweeping(d)
    ensures var a := Executed(c, d, handed).0;
            && (forall t, w | 0 <= t < c.sets && 0 <= w < c.ways && a.lines[t][w].valid :: d.store.lines[t][w].valid)
            && (d.s0.Some? && d.s0.value.FlushOp? ==>
                  forall w | 0 <= w < c.ways && (c.writeback ==> w == d.s0.value.way) :: !a.lines[d.s0.value.set_][w].valid)
  {
    if d.s0.Some? && d.s0.value.FlushOp? && !c.writeback {
      var s := d.s0.value.set_;
      var a := FlushSet(c, d.store, s, c.ways);
      forall t, w | 0 <= t < c.sets && 0 <= w < c.ways
        ensures a.lines[t][w].valid == (d.store.lines[t][w].valid && t != s)
      {
        FlushSetLines(c, d.store, s, c.ways, t, w);
      }
      assert Executed(c, d, handed).0 == a;
    }
  }

  /** What was cleared, or was s0's to clear, is clear after the edge. */
  lemma WalkAdvances(c: Spec, b: Bank, t: Bank, d: Bank, handed: Option<Allocated>, n: nat)
    requires c.Valid() && ExecuteOk(c, d) && Sweeping(d) && d.s0 == b.s0 && d.store == b.store
    requires t.store == Executed(c, d, handed).0 && n <= FlushCount(c) && WalkedTo(c, b, n)
    ensures Shaped(c, t.store) && forall k | 0 <= k < n :: Walked(c, t.store, k)
  {
    SweepClears(c, d, handed);
    InitializedAfter(c, d, handed);
    forall k | 0 <= k < n ensures Walked(c, t.store, k) {
      assert Walked(c, b.store, k) || b.s0 == Some(FlushOp(k % c.sets, k / c.sets));
      FlushIndexFits(c, k);
    }
  }

  /** With nothing reserved no fill can be presented and no replay is pending. */
  lemma Quiet(c: Spec, initial: Memory, s: Sys, x: Aux, i: Input, which: nat)
    requires c.Valid() && Ready(c, initial, s, x, i, which) && s.bank.reserved == 0
    ensures i.fill.None? && s.bank.mshr.head.None? && (s.bank.s0.Some? ==> !s.bank.s0.value.CoreOp?)
    ensures !EventsOf(c, s.bank, i).dequeue && OpenSlot(s.bank).None?
    ensures !Stalled(c, s.bank) ==> Departed(c, s, i).bank.reserved == 0
  {
    NoneLive(s.bank.mshr.entries);
  }

  /** A cleared bank stays cleared while no request enters it. */
  lemma ClearedKeeps(c: Spec, initial: Memory, s: Sys, x: Aux, i: Input, which: nat)
    requires c.Valid() && Ready(c, initial, s, x, i, which) && Cleared(c, s.bank)
    requires i.request.None? || s.bank.flushing != FlushIdle || i.flushBegin
    requires s.bank.flushing != FlushWalk
    ensures Shaped(c, SysEdge(c, s, i, which).bank.store) && Cleared(c, SysEdge(c, s, i, which).bank)
    ensures !Stalled(c, s.bank) ==> SysEdge(c, s, i, which).bank.s0.None?
  {
    hide Structure, Contents, Boot, SysEdge, Departed, EventsOk, EventsOf, InputOk;
    var t, b := SysEdge(c, s, i, which).bank, s.bank;
    Quiet(c, initial, s, x, i, which);
    if Stalled(c, b) {
      HeldFields(c, s, i, which);
    } else {
      MovedFields(c, s, i, which);
      WalkAdvances(c, b, t, Departed(c, s, i).bank, Handed(b.mshr, EventsOf(c, b, i)), FlushCount(c));
    }
  }

  /** One step of the walk: either the index moves and its slot is s0's to clear, or nothing changes. */
  lemma WalkKeeps(c: Spec, initial: Memory, s: Sys, x: Aux, i: Input, which: nat)
    requires c.Valid() && Ready(c, initial, s, x, i, which) && s.bank.flushing == FlushWalk
    ensures Shaped(c, SysEdge(c, s, i, which).bank.store) && FlushInv(c, SysEdge(c, s, i, which).bank)
  {
    hide Boot, Contents, Departed, EventsOf, EventsOk, FlushCount, FreeOk, Handed, HeadEntry, InputOk, Live, Offered,
         RequestOk, Shaped, Stalled, Structure, SysEdge, Walked;
    var t, b := SysEdge(c, s, i, which).bank, s.bank;
    Quiet(c, initial, s, x, i, which);
    if Stalled(c, b) {
      HeldFields(c, s, i, which);
    } else {
      MovedFields(c, s, i, which);
      WalkAdvances(c, b, t, Departed(c, s, i).bank, Handed(b.mshr, EventsOf(c, b, i)), b.flushIndex);
    }
  }

  /** The scan itself acknowledges a flush that arrives during it. */
  lemma BootCleared(c: Spec, t: Bank, w: View)
    requires c.Valid() && Views(c, t.store, w) && Boot(c, t, w)
    requires t.s0.Some? && t.s0.value.InitOp? && t.initNext == c.sets
    ensures Cleared(c, t)
  {
    forall k | 0 <= k < FlushCount(c) ensures Walked(c, t.store, k) {
      FlushIndexFits(c, k);
      EmptyView(c, t.store, w);
    }
  }

  lemma FlushKeeps(c: Spec, initial: Memory, s: Sys, x: Aux, i: Input, which: nat, w: View)
    requires c.Valid() && Ready(c, initial, s, x, i, which)
    requires Views(c, SysEdge(c, s, i, which).bank.store, w) && Boot(c, SysEdge(c, s, i, which).bank, w)
    ensures FlushInv(c, SysEdge(c, s, i, which).bank)
  {
    var t, b := SysEdge(c, s, i, which).bank, s.bank;
    match b.flushing
    case FlushWalk => WalkKeeps(c, initial, s, x, i, which);
    case FlushDrain => ClearedKeeps(c, initial, s, x, i, which);
    case FlushDone => FlushLeaves(c, initial, s, x, i, which, w);
    case FlushIdle => FlushLeaves(c, initial, s, x, i, which, w);
    case FlushWait => FlushLeaves(c, initial, s, x, i, which, w);
  }

  /** From rest a flush can only wait, start walking from index zero, or be acknowledged by the scan. */
  lemma NextFlushFromRest(c: Spec, b: Bank, i: Input, chosen: Option<Op>, initNext: nat)
    requires b.flushing.FlushIdle? || b.flushing.FlushWait? || b.flushing.FlushDone?
    ensures var (state, index) := NextFlush(c, b, i, chosen, initNext);
            && state != FlushDrain
            && (state == FlushWalk ==> b.flushing.FlushWait? && initNext == c.sets && b.reserved == 0 && Empty(b) && index == 0)
            && (state == FlushDone ==> chosen.Some? && chosen.value.InitOp? && initNext == c.sets)
  {
  }

  lemma FlushLeaves(c: Spec, initial: Memory, s: Sys, x: Aux, i: Input, which: nat, w: View)
    requires c.Valid() && Ready(c, initial, s, x, i, which)
    requires s.bank.flushing.FlushIdle? || s.bank.flushing.FlushWait? || s.bank.flushing.FlushDone?
    requires Views(c, SysEdge(c, s, i, which).bank.store, w) && Boot(c, SysEdge(c, s, i, which).bank, w)
    ensures FlushInv(c, SysEdge(c, s, i, which).bank)
  {
    hide Access, Backed, ChainInv, Cleared, Contents, CountOk, EntriesOk, EventsOf, EventsOk, ExecuteOk, Expects,
         FinalizationOf, FlushCount, ForwardHead, FreeOk, HeadEntry, HeadServed, LatchOk, LineOf, MemoryAlmostFull,
         MemorySpace, Offered, OpenSlot, RequestOk, ResponseSpace, S0Ok, Shaped, Shown, SysEdge, WalkedTo;
    var t, b, chosen := SysEdge(c, s, i, which).bank, s.bank, Choose(c, s.bank, i);
    if Stalled(c, b) {
      HeldFields(c, s, i, which);
      NextFlushFromRest(c, b, i, None, b.initNext);
    } else {
      MovedFields(c, s, i, which);
      NextFlushFromRest(c, b, i, chosen, t.initNext);
      if t.flushing.FlushDone? {
        BootCleared(c, t, w);
      } else if t.flushing.FlushWalk? {
        WalkStarts(c, initial, s, x, i, which);
      }
    }
  }

  lemma WalkStarts(c: Spec, initial: Memory, s: Sys, x: Aux, i: Input, which: nat)
    requires c.Valid() && Ready(c, initial, s, x, i, which) && !Stalled(c, s.bank)
    requires s.bank.flushing.FlushWait? && s.bank.reserved == 0 && Empty(s.bank)
    requires SysEdge(c, s, i, which).bank.flushing == FlushWalk && SysEdge(c, s, i, which).bank.flushIndex == 0
    requires SysEdge(c, s, i, which).bank.initNext == c.sets && Shaped(c, SysEdge(c, s, i, which).bank.store)
    ensures FlushInv(c, SysEdge(c, s, i, which).bank)
  {
    MovedFields(c, s, i, which);
    Quiet(c, initial, s, x, i, which);
    assert FlushCount(c) > 0;
  }

  // -------------------------------------------------------------- whole edge

  /** One edge of the bank keeps everything. */
  lemma EdgeKeeps(c: Spec, initial: Memory, s: Sys, x: Aux, i: Input, which: nat) returns (w: View)
    requires c.Valid() && Ready(c, initial, s, x, i, which)
    ensures Inv(c, initial, SysEdge(c, s, i, which), AfterEdge(c, s, x, i, w))
    ensures if Stalled(c, s.bank) then w == x.view else CacheBankExecute.ViewAfter(c, s.bank, x.view, w)
  {
    hide AfterDeparture, Boot, ChainInv, Choose, Contents, CountOk, EventsOf, EventsOk, FlushInv, HeadOk, HeadServed,
         InputOk, LatchOk, LineOf, Merge, Offered, OpenSlot, Registered, RequestOk, Runnable, S0Ok, S1Ok, Shaped, Stalled,
         SysEdge, Turned, Views;
    w := EdgeStructure(c, initial, s, x, i, which);
    BootKeeps(c, initial, s, x, i, which, w);
    FlushKeeps(c, initial, s, x, i, which, w);
    FreeKeeps(c, s, i, which);
  }
}
