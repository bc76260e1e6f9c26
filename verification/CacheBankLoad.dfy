/** The stage that loads s0, and the whole edge. */
module CacheBankLoad {
  import opened CacheTypes
  import opened CacheGeometry
  import opened CacheArrays
  import opened CacheMissRegisters
  import opened CacheChains
  import opened CacheMemorySide
  import opened CacheBanks
  import opened CacheBankSystem
  import opened CacheBankCommit
  import opened CacheBankExecute

  /** The chosen operation fits the state after s0's turn. */
  ghost predicate LoadOk(c: Spec, s: Sys, latch: Latch, chosen: Option<Op>, which: nat)
    requires c.Valid()
  {
    && s.bank.s0.None? && !latch.Unset?
    && (latch.Held? ==> chosen == Some(latch.op))
    && (chosen.Some? ==>
          match chosen.value
          case CoreOp(r, p) => RequestOk(c, r) && p < c.corePorts && s.bank.reserved < c.registers
          case ReplayOp(_, _, _) => latch.Held? && chosen.value == latch.op
          case FillOp(l, f) => which < |s.returned| && s.returned[which] == Return(l, f) && s.bank.mshr.head.None?
          case InitOp(t) => t < c.sets && t == s.bank.initNext
          case FlushOp(t, w) => t < c.sets && w < c.ways && s.bank.reserved == 0)
  }

  ghost function AfterLoad(s: Sys, x: Aux, chosen: Option<Op>): Aux {
    if chosen.Some? && chosen.value.FillOp? then x.(takenAt := |s.log|) else x
  }

  /** A returned line belongs to a waiting chain of this bank. */
  lemma ReturnedWaits(c: Spec, initial: Memory, s: Sys, x: Aux, latch: Latch, which: nat)
    requires c.Valid() && Structure(c, s.bank, x, latch) && Contents(c, initial, s, x) && which < |s.returned|
    ensures var l := s.returned[which].line;
            && l in x.chains && Owned(c, l)
            && s.returned[which].fill.handle == RootOf(s.bank.mshr, x.chains[l])
  {
    var m, l := s.bank.mshr, s.returned[which].line;
    assert l in Want(m, x.chains);
    assert ChainOk(m, l, x.chains[l]);
    var e := m.entries[x.chains[l][0]];
    SameLine(c, e.request.address);
  }

  lemma FillLoadStructure(c: Spec, b: Bank, x: Aux, latch: Latch, l: nat, f: Fill)
    requires c.Valid() && Structure(c, b, x, latch) && b.s0.None? && !latch.Held? && b.mshr.head.None?
    requires l in x.chains && Owned(c, l) && f.handle == RootOf(b.mshr, x.chains[l])
    ensures var d := LoadStage(b, Some(FillOp(l, f)));
            Structure(c, d, x, Unset) && Want(d.mshr, x.chains) == Want(b.mshr, x.chains) - {l}
  {
    hide ChainInv, FinalizationOf, HeadLine, LineOf, Occupancy, Owned, RequestOk, RootOf, Views, Want;
    StartChain(b.mshr, x.chains, OpenSlot(b), l);
  }

  lemma FillLoadKeeps(c: Spec, initial: Memory, s: Sys, x: Aux, latch: Latch, chosen: Option<Op>, which: nat)
    requires c.Valid() && Structure(c, s.bank, x, latch) && Contents(c, initial, s, x)
    requires LoadOk(c, s, latch, chosen, which) && chosen.Some? && chosen.value.FillOp?
    ensures var t, y := SysLoad(s, chosen, which), AfterLoad(s, x, chosen);
            Structure(c, t.bank, y, Unset) && Contents(c, initial, t, y)
  {
    var FillOp(l, f) := chosen.value;
    ReturnedWaits(c, initial, s, x, latch, which);
    FillLoadStructure(c, s.bank, x, latch, l, f);
    TakeReturn(InFlight(s), s.returned, s.backing, x.view, Want(s.bank.mshr, x.chains), which);
    var t := SysLoad(s, chosen, which);
    assert InFlight(t) == InFlight(s);
  }

  lemma OtherLoadKeeps(c: Spec, initial: Memory, s: Sys, x: Aux, latch: Latch, chosen: Option<Op>, which: nat)
    requires c.Valid() && Structure(c, s.bank, x, latch) && Contents(c, initial, s, x)
    requires LoadOk(c, s, latch, chosen, which) && (chosen.None? || !chosen.value.FillOp?)
    ensures var t := SysLoad(s, chosen, which);
            Structure(c, t.bank, x, Unset) && Contents(c, initial, t, x)
  {
    assert InFlight(SysLoad(s, chosen, which)) == InFlight(s);
  }

  lemma LoadKeeps(c: Spec, initial: Memory, s: Sys, x: Aux, latch: Latch, chosen: Option<Op>, which: nat)
    requires c.Valid() && Structure(c, s.bank, x, latch) && Contents(c, initial, s, x)
    requires LoadOk(c, s, latch, chosen, which)
    ensures var t, y := SysLoad(s, chosen, which), AfterLoad(s, x, chosen);
            Structure(c, t.bank, y, Unset) && Contents(c, initial, t, y)
  {
    if chosen.Some? && chosen.value.FillOp? {
      FillLoadKeeps(c, initial, s, x, latch, chosen, which);
    } else {
      OtherLoadKeeps(c, initial, s, x, latch, chosen, which);
    }
  }

  lemma SettleKeeps(c: Spec, initial: Memory, was: Bank, s: Sys, x: Aux, i: Input, chosen: Option<Op>)
    requires c.Valid() && Structure(c, s.bank, x, Unset) && Contents(c, initial, s, x)
    ensures var t := SysSettle(c, was, s, i, chosen);
            Structure(c, t.bank, x, Unset) && Contents(c, initial, t, x)
  {
    RegisterFree(s.bank.mshr, x.chains, OpenSlot(s.bank));
    var t := SysSettle(c, was, s, i, chosen);
    assert InFlight(t) == InFlight(s);
    ContentsSame(c, initial, s, x, t, x);
  }
}
