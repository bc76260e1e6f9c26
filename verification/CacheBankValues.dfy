/** Each stage keeps the values of loads justified. */
module CacheBankValues {
  import opened CacheTypes
  import opened CacheGeometry
  import opened CacheArrays
  import opened CacheMissRegisters
  import opened CacheChains
  import opened CacheMemorySide
  import opened CacheBanks
  import opened CacheBankSystem
  import opened CacheBankExecute
  import opened CacheBankLoad
  import opened CacheBankLedger

  lemma CommitValues(c: Spec, initial: Memory, s: Sys, x: Aux, places: map<nat, Place>, y: Aux)
    requires c.Valid() && Structure(c, s.bank, x, Unset) && Ledger(s, places, Unset) && Values(c, initial, s, x)
    requires CommitOk(s.bank) && y.takenAt == x.takenAt
    ensures Values(c, initial, SysCommit(s), y)
  {
    hide Live, EntriesOk, Justified, ChainInv, S0Ok, Boot;
    var t := SysCommit(s);
    if s.bank.s1.Some? {
      var k := s.bank.s1.value;
      assert t.log + [] == t.log;
      forall j | 0 <= j < |t.done| && t.done[j].load && t.done[j].status.Ok?
        ensures t.done[j].id in t.issued && Justified(c, initial, t.log, t.issued[t.done[j].id], t.done[j].data, t.done[j].at)
      {
        if j < |s.done| {
          assert t.done[j] == s.done[j];
        }
      }
      if k.op.CoreOp? {
        FinalizeRequests(s.bank.mshr, FinalizationOf(k));
        CommitForward(c, initial, s, x, t);
      }
    }
  }

  lemma CommitForward(c: Spec, initial: Memory, s: Sys, x: Aux, t: Sys)
    requires c.Valid() && CommitOk(s.bank) && t == SysCommit(s) && ForwardOk(c, initial, s, x)
    requires EntriesOk(c, s.bank.mshr) && s.bank.s1.Some? && s.bank.s1.value.op.CoreOp? && OwnSlot(s.bank)
    ensures ForwardOk(c, initial, t, x)
  {
    var m, n := s.bank.mshr, t.bank.mshr;
    var f := FinalizationOf(s.bank.s1.value);
    FinalizeRequests(m, f);
    assert HeadLine(n) == HeadLine(m);
    forall i | 0 <= i < |n.entries|
      ensures n.entries[i].line == m.entries[i].line
      ensures n.entries[i].finalized == (m.entries[i].finalized || i == f.handle.slot)
    {
    }
  }

  lemma ReleaseValues(c: Spec, initial: Memory, s: Sys, x: Aux, answer: seq<PortResponse>, y: Aux)
    requires c.Valid() && Structure(c, s.bank, x, Unset) && Values(c, initial, s, x) && s.bank.s1.None?
    requires s.bank.mshr.head.Some? && HeadOk(s.bank) && y.takenAt == x.takenAt
    requires s.bank.mshr.head.value.slot < |s.bank.mshr.entries| && RequestOk(c, HeadEntry(s.bank).request)
    requires answer == [] || answer == [ForwardedResponse(c, HeadEntry(s.bank), s.bank.forwarded)]
    requires HeadEntry(s.bank).request.id in s.issued && s.issued[HeadEntry(s.bank).request.id].request == HeadEntry(s.bank).request
    ensures Values(c, initial, SysRelease(s, answer), y)
  {
    var t := SysRelease(s, answer);
    var e, l := HeadEntry(s.bank), HeadEntry(s.bank).line;
    assert ChainOk(s.bank.mshr, l, x.chains[l]);
    forall j | 0 <= j < |t.done| && t.done[j].load && t.done[j].status.Ok?
      ensures t.done[j].id in t.issued && Justified(c, initial, t.log, t.issued[t.done[j].id], t.done[j].data, t.done[j].at)
    {
      if j < |s.done| {
        assert t.done[j] == s.done[j];
      } else {
        AlignedOffset(c, e.request.address);
        var n := x.takenAt;
        assert t.done[j].data == ReadWord(c, Stored(c, initial, s.log[..n], LineOf(e.request.address)), e.request.address);
      }
    }
    DequeueForward(c, initial, s, x, t);
  }

  lemma DequeueForward(c: Spec, initial: Memory, s: Sys, x: Aux, t: Sys)
    requires c.Valid() && ForwardOk(c, initial, s, x) && ChainInv(s.bank.mshr, x.chains, None) && s.bank.s1.None?
    requires s.bank.mshr.head.Some? && s.bank.mshr.head.value.slot < |s.bank.mshr.entries|
    requires t.bank == s.bank.(mshr := Dequeue(s.bank.mshr), responses := t.bank.responses, reserved := t.bank.reserved)
    requires t.log == s.log && t.issued == s.issued
    ensures ForwardOk(c, initial, t, x)
  {
    DequeueHead(s.bank.mshr, x.chains);
  }

  /** s0's turn: a load that hits reads the memory of this very moment. */
  lemma ExecuteValues(c: Spec, initial: Memory, s: Sys, x: Aux, places: map<nat, Place>, latch: Latch, handed: Option<Allocated>, y: Aux)
    requires c.Valid() && Turn(c, s.bank, x, latch, handed) && Contents(c, initial, s, x)
    requires Ledger(s, places, latch) && Values(c, initial, s, x) && y.takenAt == x.takenAt
    requires ExecuteOk(c, s.bank)
    requires handed.Some? ==> handed.value.handle.slot < |s.bank.mshr.entries| && s.bank.s0.Some? && s.bank.s0.value.CoreOp?
    ensures Values(c, initial, SysExecute(c, s, handed), y)
  {
    var t := SysExecute(c, s, handed);
    forall j | 0 <= j < |t.done| && t.done[j].load && t.done[j].status.Ok?
      ensures t.done[j].id in t.issued && Justified(c, initial, t.log, t.issued[t.done[j].id], t.done[j].data, t.done[j].at)
    {
      JustifiedGrows(c, initial, s.log, Performs(c, s.bank), s.issued[s.done[j].id], s.done[j].data, s.done[j].at, s.done[j].at);
    }
    ExecuteReply(c, initial, s, x, places, latch, handed);
    ExecuteForward(c, initial, s, x, latch, handed);
  }

  lemma ExecuteReply(c: Spec, initial: Memory, s: Sys, x: Aux, places: map<nat, Place>, latch: Latch, handed: Option<Allocated>)
    requires c.Valid() && Turn(c, s.bank, x, latch, handed) && Contents(c, initial, s, x)
    requires Ledger(s, places, latch) && ExecuteOk(c, s.bank)
    requires handed.Some? ==> handed.value.handle.slot < |s.bank.mshr.entries| && s.bank.s0.Some? && s.bank.s0.value.CoreOp?
    ensures ReplyOk(c, initial, SysExecute(c, s, handed))
  {
    var t := SysExecute(c, s, handed);
    if CommitRead(t.bank) && t.bank.s1.value.reply.status.Ok? {
      var op := s.bank.s0.value;
      var l := LineOf(op.request.address);
      var w := AccessTurn(c, s.bank.store, x.view, op, handed);
      SameLine(c, op.request.address);
      assert IsIssue(s, op.request, op.port);
      assert Logical(x.view, InFlight(s), s.backing, l) == Stored(c, initial, s.log, l);
      assert t.log == s.log && s.log[..|s.log|] == s.log;
      assert t.bank.s1.value.reply.data == ReadWord(c, Stored(c, initial, s.log[..|s.log|], l), op.request.address);
    }
  }

  lemma ExecuteForward(c: Spec, initial: Memory, s: Sys, x: Aux, latch: Latch, handed: Option<Allocated>)
    requires c.Valid() && Turn(c, s.bank, x, latch, handed) && ForwardOk(c, initial, s, x) && ExecuteOk(c, s.bank)
    requires handed.Some? ==> handed.value.handle.slot < |s.bank.mshr.entries| && s.bank.s0.Some? && s.bank.s0.value.CoreOp?
    ensures ForwardOk(c, initial, SysExecute(c, s, handed), x)
  {
    hide Access, ChainsOk, CountOk, EntriesOk, ExecuteOk, FillLine, FlushSet, FlushWay, InitSet, LatchOk, LineOf, OpenSlot,
         Owned, Performs, Placed, Read, RequestOk, S1Ok, Shaped, Stored, TailOf, Views, Write;
    var t := SysExecute(c, s, handed);
    assert HeadLine(t.bank.mshr) == HeadLine(s.bank.mshr);
    if HeadLine(s.bank.mshr).Some? && s.bank.forwarded.status.Ok? {
      assert t.log[..x.takenAt] == s.log[..x.takenAt];
      if s.bank.s0.Some? && s.bank.s0.value.CoreOp? {
        var w := AccessTurn(c, s.bank.store, x.view, s.bank.s0.value, handed);
      }
    }
  }

  /** A good line taken now holds the memory of this moment, and every request of its chain is older. */
  lemma TakenForward(c: Spec, initial: Memory, s: Sys, x: Aux, places: map<nat, Place>, latch: Latch, l: nat, f: Fill, which: nat)
    requires c.Valid() && Structure(c, s.bank, x, latch) && Contents(c, initial, s, x) && Ledger(s, places, latch)
    requires which < |s.returned| && s.returned[which] == Return(l, f) && l in x.chains && Owned(c, l)
    requires f.handle == RootOf(s.bank.mshr, x.chains[l])
    ensures ForwardOk(c, initial, SysLoad(s, Some(FillOp(l, f)), which), x.(takenAt := |s.log|))
  {
    hide Access, Answered, Answers, At, CleanLines, CountOk, EntriesOk, Get, HeadChained, HeadServed, InFlight, IsIssue,
         LatchOk, LineOf, Linked, Lower, OpenSlot, Owned, Placed, QueueOwned, ReadsOrdered, S0Ok, S1Ok, Stored, Untouched,
         Views, Want;
    assert ChainOk(s.bank.mshr, l, x.chains[l]);
    if f.status.Ok? {
      assert ReturnOk(InFlight(s), s.backing, x.view, l, f);
      LowerUntouched(InFlight(s), s.backing, l);
      assert Logical(x.view, InFlight(s), s.backing, l) == Stored(c, initial, s.log, l);
      assert s.log[..|s.log|] == s.log;
    }
    OpenIssued(c, s, x, places, latch);
  }

  lemma LoadValues(c: Spec, initial: Memory, s: Sys, x: Aux, places: map<nat, Place>, latch: Latch, chosen: Option<Op>, which: nat)
    requires c.Valid() && Structure(c, s.bank, x, latch) && Contents(c, initial, s, x)
    requires Ledger(s, places, latch) && Values(c, initial, s, x)
    requires chosen.Some? && chosen.value.CoreOp? ==> chosen.value.request.id !in s.issued
    requires chosen.Some? && chosen.value.FillOp? ==>
               && which < |s.returned| && s.returned[which] == Return(chosen.value.line, chosen.value.fill)
               && chosen.value.line in x.chains && Owned(c, chosen.value.line)
               && chosen.value.fill.handle == RootOf(s.bank.mshr, x.chains[chosen.value.line])
    ensures Values(c, initial, SysLoad(s, chosen, which), AfterLoad(s, x, chosen))
  {
    var t := SysLoad(s, chosen, which);
    KeptReplies(c, initial, s, t);
    if chosen.Some? && chosen.value.FillOp? {
      TakenForward(c, initial, s, x, places, latch, chosen.value.line, chosen.value.fill, which);
    } else {
      KeptForward(c, initial, s, x, t);
    }
  }

  predicate IssuedGrows(s: Sys, t: Sys) {
    s.issued.Keys <= t.issued.Keys && forall id | id in s.issued :: t.issued[id] == s.issued[id]
  }

  lemma KeptReplies(c: Spec, initial: Memory, s: Sys, t: Sys)
    requires c.Valid() && ReplyOk(c, initial, s) && DoneOk(c, initial, s) && IssuedGrows(s, t)
    requires t.bank.s1 == s.bank.s1 && t.log == s.log && t.done == s.done
    ensures ReplyOk(c, initial, t) && DoneOk(c, initial, t)
  {
  }

  lemma KeptForward(c: Spec, initial: Memory, s: Sys, x: Aux, t: Sys)
    requires c.Valid() && ForwardOk(c, initial, s, x) && IssuedGrows(s, t)
    requires t.bank.mshr == s.bank.mshr && t.bank.s1 == s.bank.s1 && t.bank.forwarded == s.bank.forwarded && t.log == s.log
    ensures ForwardOk(c, initial, t, x)
  {
  }

  lemma OpenIssued(c: Spec, s: Sys, x: Aux, places: map<nat, Place>, latch: Latch)
    requires c.Valid() && Structure(c, s.bank, x, latch) && Ledger(s, places, latch)
    ensures s.bank.s1.Some? && s.bank.s1.value.op.CoreOp? ==>
              s.bank.s1.value.op.request.id in s.issued && s.issued[s.bank.s1.value.op.request.id].at <= |s.log|
  {
  }

  lemma SameValues(c: Spec, initial: Memory, s: Sys, x: Aux, t: Sys)
    requires c.Valid() && Values(c, initial, s, x)
    requires t.bank.mshr.entries == s.bank.mshr.entries && t.bank.mshr.head == s.bank.mshr.head
    requires t.bank.s1 == s.bank.s1 && t.bank.forwarded == s.bank.forwarded
    requires t.log == s.log && t.issued == s.issued && t.done == s.done
    ensures Values(c, initial, t, x)
  {
  }
}
