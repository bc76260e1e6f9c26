/** The stages that take queue heads, the second register and the replay head away keep the bank's invariant. */
module CacheBankCommit {
  import opened CacheTypes
  import opened CacheGeometry
  import opened CacheArrays
  import opened CacheMissRegisters
  import opened CacheChains
  import opened CacheMemorySide
  import opened CacheBanks
  import opened CacheBankSystem

  /** Taking queue heads moves a line request from the bank to the port and changes nothing else. */
  lemma PopKeeps(c: Spec, initial: Memory, s: Sys, x: Aux, i: Input)
    requires c.Valid() && Structure(c, s.bank, x, Unset) && Contents(c, initial, s, x)
    ensures HeadOk(s.bank)
    ensures Structure(c, SysPop(s, i).bank, x, Unset) && Contents(c, initial, SysPop(s, i), x)
  {
    assert InFlight(SysPop(s, i)) == InFlight(s);
  }

  /** The memory side depends only on what is in flight, what is resident and what waits. */
  lemma ContentsSame(c: Spec, initial: Memory, s: Sys, x: Aux, t: Sys, y: Aux)
    requires c.Valid() && Contents(c, initial, s, x)
    requires InFlight(t) == InFlight(s) && t.returned == s.returned && t.backing == s.backing && t.log == s.log
    requires t.bank.s0 == s.bank.s0 && y.view == x.view
    requires Want(t.bank.mshr, y.chains) == Want(s.bank.mshr, x.chains)
    ensures Contents(c, initial, t, y)
  {
  }

  lemma CommitOtherKeeps(c: Spec, b: Bank, x: Aux)
    requires c.Valid() && Structure(c, b, x, Unset) && CommitOk(b)
    requires b.s1.Some? && !b.s1.value.op.CoreOp?
    ensures Structure(c, CommitStage(b), x, Unset)
  {
  }

  ghost function AfterCommit(b: Bank, x: Aux): Aux
    requires CommitOk(b)
  {
    if b.s1.Some? && b.s1.value.op.CoreOp? then
      x.(chains := AfterFinalize(b.mshr, x.chains, FinalizationOf(b.s1.value)))
    else x
  }

  /** The checks of the register file never fail on the entry that leaves s1. */
  lemma CommitAllowed(c: Spec, b: Bank, x: Aux)
    requires c.Valid() && Structure(c, b, x, Unset)
    ensures CommitOk(b)
  {
    if b.s1.Some? && b.s1.value.op.CoreOp? {
      var f := FinalizationOf(b.s1.value);
      if !f.release && f.previous.Some? {
        var l := b.mshr.entries[f.handle.slot].line;
        var ch := x.chains[l];
        assert ChainOk(b.mshr, l, ch);
        assert Linked(b.mshr, ch, |ch| - 1);
      }
    }
  }

  lemma CommitHitKeeps(c: Spec, b: Bank, x: Aux)
    requires c.Valid() && Structure(c, b, x, Unset) && CommitOk(b)
    requires b.s1.Some? && b.s1.value.op.CoreOp? && b.s1.value.hit
    ensures Structure(c, CommitStage(b), x, Unset)
    ensures Want(CommitStage(b).mshr, x.chains) == Want(b.mshr, x.chains)
  {
    var f := FinalizationOf(b.s1.value);
    FinalizeRelease(b.mshr, x.chains, f);
    OccupancyUpdate(b.mshr.entries, f.handle.slot, Finalize(b.mshr, f).entries[f.handle.slot]);
    assert Finalize(b.mshr, f).entries == b.mshr.entries[f.handle.slot := Finalize(b.mshr, f).entries[f.handle.slot]];
  }

  lemma FinalizeOccupancy(m: Mshr, f: Finalization)
    requires FinalizeOk(m, f) && !f.release
    ensures Occupancy(Finalize(m, f).entries) == Occupancy(m.entries)
  {
    var h := f.handle.slot;
    var e := m.entries[h].(finalized := true);
    OccupancyUpdate(m.entries, h, e);
    if f.previous.Some? {
      var p := f.previous.value.slot;
      OccupancyUpdate(m.entries[h := e], p, m.entries[h := e][p].(next := Some(f.handle)));
    }
    assert m.entries[h].(finalized := true, valid := true) == e;
  }

  lemma CommitMissKeeps(c: Spec, b: Bank, x: Aux)
    requires c.Valid() && Structure(c, b, x, Unset) && CommitOk(b)
    requires b.s1.Some? && b.s1.value.op.CoreOp? && !b.s1.value.hit
    ensures var y := AfterCommit(b, x);
            && Structure(c, CommitStage(b), y, Unset)
            && Want(CommitStage(b).mshr, y.chains) ==
               if RootMiss(b.s1.value) then Want(b.mshr, x.chains)[LineOf(b.s1.value.op.request.address) := b.s1.value.allocation.value.handle]
               else Want(b.mshr, x.chains)
  {
    var f := FinalizationOf(b.s1.value);
    FinalizeMiss(b.mshr, x.chains, f);
    FinalizeWant(b.mshr, x.chains, f);
    FinalizeOccupancy(b.mshr, f);
    FinalizeEntries(c, b.mshr, f);
  }

  lemma FinalizeEntries(c: Spec, m: Mshr, f: Finalization)
    requires c.Valid() && FinalizeOk(m, f) && EntriesOk(c, m)
    ensures EntriesOk(c, Finalize(m, f))
  {
  }

  lemma CommitKeeps(c: Spec, initial: Memory, s: Sys, x: Aux)
    requires c.Valid() && Structure(c, s.bank, x, Unset) && Contents(c, initial, s, x)
    ensures CommitOk(s.bank)
    ensures var y := AfterCommit(s.bank, x);
            Structure(c, SysCommit(s).bank, y, Unset) && Contents(c, initial, SysCommit(s), y)
  {
    hide Contents, Finalize, ChainInv;
    var b := s.bank;
    CommitAllowed(c, b, x);
    var t := SysCommit(s);
    var y := AfterCommit(b, x);
    if b.s1.Some? {
      var k := b.s1.value;
      if k.op.CoreOp? && k.hit {
        CommitHitKeeps(c, b, x);
        assert InFlight(t) == InFlight(s);
        ContentsSame(c, initial, s, x, t, y);
      } else if k.op.CoreOp? {
        CommitMissKeeps(c, b, x);
        CommitMissContents(c, initial, s, x);
      } else {
        CommitOtherKeeps(c, b, x);
        assert InFlight(t) == InFlight(s);
        ContentsSame(c, initial, s, x, t, y);
      }
    }
  }

  lemma CommitMissContents(c: Spec, initial: Memory, s: Sys, x: Aux)
    requires c.Valid() && CommitOk(s.bank) && Contents(c, initial, s, x)
    requires EntriesOk(c, s.bank.mshr) && ChainInv(s.bank.mshr, x.chains, OpenSlot(s.bank)) && S1Ok(c, s.bank, x.view, x.chains)
    requires S0Ok(c, s.bank, x.view, Unset)
    requires s.bank.s1.Some? && s.bank.s1.value.op.CoreOp? && !s.bank.s1.value.hit
    requires var k := s.bank.s1.value;
             Want(CommitStage(s.bank).mshr, AfterCommit(s.bank, x).chains) ==
               if RootMiss(k) then Want(s.bank.mshr, x.chains)[LineOf(k.op.request.address) := k.allocation.value.handle]
               else Want(s.bank.mshr, x.chains)
    ensures Contents(c, initial, SysCommit(s), AfterCommit(s.bank, x))
  {
    hide AfterFinalize, BankOf, ChainsOk, CommitOk, CommittedResponse, CompletedBy, Finalize, FinalizeOk, Get, Live,
         Logical, MemoryInv, Placed, RootOf, Stored, TailOf;
    var k := s.bank.s1.value;
    var t := SysCommit(s);
    var q := InFlight(s);
    if !RootMiss(k) {
      assert InFlight(t) == q;
    } else {
      var l, h := LineOf(k.op.request.address), k.allocation.value.handle;
      var want := Want(s.bank.mshr, x.chains);
      AskLine(q, s.returned, s.backing, x.view, want, l, h);
      assert InFlight(t) == q + [ReadLine(l, h)];
      assert Owned(c, l) by { SameLine(c, k.op.request.address); }
      if s.bank.s0.Some? && s.bank.s0.value.FillOp? {
        var m := s.bank.s0.value.line;
        assert m in x.chains;
        assert ReturnOk(q, s.backing, x.view, m, s.bank.s0.value.fill);
        assert Untouched(q + [ReadLine(l, h)], -1, m);
      }
    }
  }

  // ------------------------------------------------------------- replay head

  ghost function AfterRelease(b: Bank, x: Aux): Aux
    requires b.mshr.head.Some? && b.mshr.head.value.slot < |b.mshr.entries|
  {
    x.(chains := AfterDequeue(b.mshr, x.chains))
  }

  /** The replay head leaves, either answered at once or latched for s0. */
  lemma ReleaseKeeps(c: Spec, initial: Memory, s: Sys, x: Aux, answer: seq<PortResponse>, latch: Latch)
    requires c.Valid() && Structure(c, s.bank, x, Unset) && Contents(c, initial, s, x)
    requires s.bank.mshr.head.Some? && s.bank.s1.None?
    requires HeadOk(s.bank)
    requires s.bank.mshr.head.value.slot < |s.bank.mshr.entries|
    requires latch == Clear || latch == Held(ReplayOp(HeadEntry(s.bank).request, HeadEntry(s.bank).port, s.bank.forwarded))
    ensures var y := AfterRelease(s.bank, x);
            Structure(c, SysRelease(s, answer).bank, y, latch) && Contents(c, initial, SysRelease(s, answer), y)
  {
    var m := s.bank.mshr;
    DequeueHead(m, x.chains);
    NoneLive(m.entries);
    OccupancyUpdate(m.entries, m.head.value.slot, Dequeue(m).entries[m.head.value.slot]);
    assert InFlight(SysRelease(s, answer)) == InFlight(s);
  }
}
