/**
 Whole runs of one bank on its memory port. The theorems are about every state
 that edges with any inputs, services in any rhythm and the traffic of the other
 banks can reach.
 */
module CacheBankRuns {
  import opened CacheTypes
  import opened CacheGeometry
  import opened CacheArrays
  import opened CacheMissRegisters
  import opened CacheChains
  import opened CacheMemorySide
  import opened CacheBanks
  import opened CacheBankSystem
  import opened CacheBankCommit
  import opened CacheBankExecute
  import opened CacheBankLoad
  import opened CacheBankEdge
  import opened CacheBankFlush
  import opened CacheBankLedger
  import opened CacheBankValues

  ghost predicate FullInv(c: Spec, initial: Memory, s: Sys, x: Aux)
    requires c.Valid()
  {
    Inv(c, initial, s, x) && Ledger(s, x.places, Unset) && Values(c, initial, s, x)
  }

  // ------------------------------------------------------ ledger over an edge

  lemma CommitRecords(c: Spec, initial: Memory, s: Sys, x: Aux, i: Input) returns (places: map<nat, Place>)
    requires c.Valid() && Structure(c, s.bank, x, Unset) && Ledger(s, x.places, Unset) && Values(c, initial, s, x)
    requires HeadOk(s.bank) && Structure(c, SysPop(s, i).bank, x, Unset) && CommitOk(SysPop(s, i).bank)
    ensures var s1, y := SysCommit(SysPop(s, i)), AfterCommit(Pop(s.bank, i), x);
            Ledger(s1, places, Unset) && Values(c, initial, s1, y)
  {
    var s0 := SysPop(s, i);
    SameLedger(s, s0, x.places, Unset);
    SameValues(c, initial, s, x, s0);
    CommitLedger(s0, x.places);
    CommitValues(c, initial, s0, x, x.places, AfterCommit(s0.bank, x));
    places := PlacesAfterCommit(s0, x.places);
  }

  /** A replay head that leaves is either answered from the fill or latched, never both. */
  lemma ReleaseShape(c: Spec, s: Sys, i: Input)
    requires c.Valid() && Runnable(c, s.bank) && InputOk(c, s.bank, i) && EventsOf(c, s.bank, i).dequeue
    ensures s.bank.mshr.head.Some?
    ensures var e, latch, answer := HeadEntry(s.bank), LatchAfter(c, s, i), Answer(c, s.bank);
            if latch.Held? then answer == [] && latch == Held(ReplayOp(e.request, e.port, s.bank.forwarded))
            else latch == Clear && !e.request.write && answer == [ForwardedResponse(c, e, s.bank.forwarded)]
  {
  }

  /** Finalizing the entry that leaves s1 keeps the replay head and what it asks for. */
  lemma HeadThroughCommit(c: Spec, s: Sys, i: Input)
    requires c.Valid() && Runnable(c, s.bank) && s.bank.mshr.head.Some? && CommitOk(Pop(s.bank, i))
    ensures var b := CommitStage(Pop(s.bank, i));
            && b.mshr.head == s.bank.mshr.head && HeadOk(b) && b.forwarded == s.bank.forwarded && b.s1.None?
            && HeadEntry(b).request == HeadEntry(s.bank).request && HeadEntry(b).port == HeadEntry(s.bank).port
  {
  }

  lemma ReleaseRecords(c: Spec, initial: Memory, s: Sys, i: Input, s1: Sys, y: Aux, was: map<nat, Place>) returns (places: map<nat, Place>)
    requires c.Valid() && Runnable(c, s.bank) && InputOk(c, s.bank, i) && EventsOf(c, s.bank, i).dequeue
    requires CommitOk(Pop(s.bank, i)) && s1 == SysCommit(SysPop(s, i)) && Structure(c, s1.bank, y, Unset)
    requires Ledger(s1, was, Unset) && Values(c, initial, s1, y)
    ensures s1.bank.mshr.head.Some? && s1.bank.mshr.head.value.slot < |s1.bank.mshr.entries|
    ensures var t := SysRelease(s1, Answer(c, s.bank));
            Ledger(t, places, LatchAfter(c, s, i)) && Values(c, initial, t, AfterRelease(s1.bank, y))
  {
    ReleaseShape(c, s, i);
    HeadThroughCommit(c, s, i);
    var e := HeadEntry(s1.bank);
    assert e.valid && RequestOk(c, e.request) && IsIssue(s1, e.request, e.port);
    places := PlacesAfterRelease(s1, was, LatchAfter(c, s, i));
    ReleaseLedger(s1, was, Answer(c, s.bank), LatchAfter(c, s, i));
    ReleaseValues(c, initial, s1, y, Answer(c, s.bank), AfterRelease(s1.bank, y));
  }

  lemma DepartureRecords(c: Spec, initial: Memory, s: Sys, x: Aux, i: Input, which: nat) returns (places: map<nat, Place>)
    requires c.Valid() && FullInv(c, initial, s, x) && Ready(c, initial, s, x, i, which) && !Stalled(c, s.bank)
    ensures var t, y := Departed(c, s, i), AfterDeparture(c, s, x, i);
            Ledger(t, places, LatchAfter(c, s, i)) && Values(c, initial, t, y)
  {
    PopKeeps(c, initial, s, x, i);
    var s0 := SysPop(s, i);
    CommitKeeps(c, initial, s0, x);
    var s1, y := SysCommit(s0), AfterCommit(s0.bank, x);
    places := CommitRecords(c, initial, s, x, i);
    if EventsOf(c, s.bank, i).dequeue {
      places := ReleaseRecords(c, initial, s, i, s1, y, places);
    } else {
      ClearLedger(s1, places);
    }
  }

  lemma TurnRecords(c: Spec, initial: Memory, s: Sys, x: Aux, i: Input, which: nat, w: View) returns (places: map<nat, Place>)
    requires c.Valid() && FullInv(c, initial, s, x) && Ready(c, initial, s, x, i, which) && !Stalled(c, s.bank)
    ensures var t, y := Turned(c, s, i), AfterDeparture(c, s, x, i).(view := w);
            Ledger(t, places, LatchAfter(c, s, i)) && Values(c, initial, t, y)
  {
    hide Ledger, Values, Contents, SysExecute, PlacesAfterExecute;
    var was := DepartureRecords(c, initial, s, x, i, which);
    DepartedFields(c, s, i);
    DepartureKeeps(c, initial, s, x, i, which);
    HandedFits(c, initial, s, x, i, which);
    var t, y := Departed(c, s, i), AfterDeparture(c, s, x, i);
    var handed := Handed(s.bank.mshr, EventsOf(c, s.bank, i));
    ExecuteLedger(c, t, was, LatchAfter(c, s, i), handed);
    ExecuteValues(c, initial, t, y, was, LatchAfter(c, s, i), handed, y.(view := w));
    places := PlacesAfterExecute(t, was, handed);
  }

  lemma TurnedFields(c: Spec, s: Sys, i: Input)
    requires c.Valid() && Runnable(c, s.bank) && InputOk(c, s.bank, i) && EventsOk(s.bank.mshr, EventsOf(c, s.bank, i))
    requires !Stalled(c, s.bank)
    ensures var t := Turned(c, s, i);
            t.bank.s0.None? && t.issued == s.issued && t.returned == s.returned
  {
    DepartedFields(c, s, i);
  }

  lemma MovedRecords(c: Spec, initial: Memory, s: Sys, x: Aux, i: Input, which: nat, w: View) returns (places: map<nat, Place>)
    requires c.Valid() && FullInv(c, initial, s, x) && Ready(c, initial, s, x, i, which) && !Stalled(c, s.bank)
    requires var t, y := Turned(c, s, i), AfterDeparture(c, s, x, i).(view := w);
             Structure(c, t.bank, y, LatchAfter(c, s, i)) && Contents(c, initial, t, y)
    ensures Ledger(SysEdge(c, s, i, which), places, Unset)
    ensures Values(c, initial, SysEdge(c, s, i, which), AfterEdge(c, s, x, i, w))
  {
    var was := TurnRecords(c, initial, s, x, i, which, w);
    var t, y := Turned(c, s, i), AfterDeparture(c, s, x, i).(view := w);
    TurnedFields(c, s, i);
    InvRunnable(c, initial, s, x, i, which);
    places := LoadRecords(c, initial, s, i, which, t, y, was);
  }

  /** Where the chosen operation comes from. */
  lemma ChosenShape(c: Spec, s: Sys, i: Input, which: nat)
    requires c.Valid() && Runnable(c, s.bank) && InputOk(c, s.bank, i) && Offered(c, s, i, which) && !Stalled(c, s.bank)
    requires i.fill.Some? ==> s.bank.mshr.entries[i.fill.value.handle.slot].line == s.returned[which].line
    ensures var chosen, latch := Choose(c, s.bank, i), LatchAfter(c, s, i);
            && (latch.Held? ==> chosen == Some(latch.op))
            && (chosen.Some? && chosen.value.ReplayOp? ==> latch.Held?)
            && (chosen.Some? && chosen.value.CoreOp? ==> chosen.value.request.id !in s.issued)
            && (chosen.Some? && chosen.value.FillOp? ==>
                  which < |s.returned| && s.returned[which] == Return(chosen.value.line, chosen.value.fill))
  {
  }

  lemma SettleRecords(c: Spec, initial: Memory, was: Bank, s: Sys, x: Aux, places: map<nat, Place>, i: Input, chosen: Option<Op>)
    requires c.Valid() && Ledger(s, places, Unset) && Values(c, initial, s, x)
    ensures var t := SysSettle(c, was, s, i, chosen);
            Ledger(t, places, Unset) && Values(c, initial, t, x)
  {
    var t := SysSettle(c, was, s, i, chosen);
    SameLedger(s, t, places, Unset);
    SameValues(c, initial, s, x, t);
  }

  lemma LoadRecords(c: Spec, initial: Memory, s: Sys, i: Input, which: nat, t: Sys, y: Aux, was: map<nat, Place>) returns (places: map<nat, Place>)
    requires c.Valid() && Runnable(c, s.bank) && InputOk(c, s.bank, i) && Offered(c, s, i, which) && !Stalled(c, s.bank)
    requires Structure(c, t.bank, y, LatchAfter(c, s, i)) && Contents(c, initial, t, y)
    requires Ledger(t, was, LatchAfter(c, s, i)) && Values(c, initial, t, y)
    requires t.bank.s0.None? && t.issued == s.issued && t.returned == s.returned
    requires i.fill.Some? ==> s.bank.mshr.entries[i.fill.value.handle.slot].line == s.returned[which].line
    ensures var chosen := Choose(c, s.bank, i);
            var u := SysSettle(c, s.bank, SysLoad(t, chosen, which), i, chosen);
            Ledger(u, places, Unset) && Values(c, initial, u, AfterLoad(t, y, chosen))
  {
    ChosenShape(c, s, i, which);
    places := LoadChosen(c, initial, t, y, LatchAfter(c, s, i), Choose(c, s.bank, i), which, was);
    SettleRecords(c, initial, s.bank, SysLoad(t, Choose(c, s.bank, i), which), AfterLoad(t, y, Choose(c, s.bank, i)), places, i, Choose(c, s.bank, i));
  }

  lemma LoadChosen(c: Spec, initial: Memory, t: Sys, y: Aux, latch: Latch, chosen: Option<Op>, which: nat, was: map<nat, Place>) returns (places: map<nat, Place>)
    requires c.Valid() && Structure(c, t.bank, y, latch) && Contents(c, initial, t, y)
    requires Ledger(t, was, latch) && Values(c, initial, t, y) && t.bank.s0.None?
    requires latch.Held? ==> chosen == Some(latch.op)
    requires chosen.Some? && chosen.value.ReplayOp? ==> latch.Held?
    requires chosen.Some? && chosen.value.CoreOp? ==> chosen.value.request.id !in t.issued
    requires chosen.Some? && chosen.value.FillOp? ==>
               which < |t.returned| && t.returned[which] == Return(chosen.value.line, chosen.value.fill)
    ensures Ledger(SysLoad(t, chosen, which), places, Unset)
    ensures Values(c, initial, SysLoad(t, chosen, which), AfterLoad(t, y, chosen))
  {
    LoadLedger(t, was, latch, chosen, which);
    if chosen.Some? && chosen.value.FillOp? {
      ReturnedWaits(c, initial, t, y, latch, which);
    }
    LoadValues(c, initial, t, y, was, latch, chosen, which);
    places := PlacesAfterLoad(was, chosen);
  }

  /** Only the view, the chains and the time of the last fill matter to the other invariants. */
  lemma SameAux(c: Spec, initial: Memory, s: Sys, x: Aux, y: Aux, places: map<nat, Place>)
    requires c.Valid() && Inv(c, initial, s, x) && Values(c, initial, s, y) && x.takenAt == y.takenAt
    ensures Inv(c, initial, s, x.(places := places)) && Values(c, initial, s, x.(places := places))
  {
  }

  lemma EdgeFull(c: Spec, initial: Memory, s: Sys, x: Aux, i: Input, which: nat) returns (y: Aux)
    requires c.Valid() && FullInv(c, initial, s, x) && Ready(c, initial, s, x, i, which)
    ensures FullInv(c, initial, SysEdge(c, s, i, which), y)
  {
    var t := SysEdge(c, s, i, which);
    if Stalled(c, s.bank) {
      var w := CacheBankFlush.EdgeKeeps(c, initial, s, x, i, which);
      SameLedger(s, t, x.places, Unset);
      SameValues(c, initial, s, x, t);
      y := x;
    } else {
      var w := TurnKeeps(c, initial, s, x, i, which);
      y := MovedFull(c, initial, s, x, i, which, w);
    }
  }

  lemma MovedFull(c: Spec, initial: Memory, s: Sys, x: Aux, i: Input, which: nat, v: View) returns (y: Aux)
    requires c.Valid() && FullInv(c, initial, s, x) && Ready(c, initial, s, x, i, which) && !Stalled(c, s.bank)
    requires var t, y := Turned(c, s, i), AfterDeparture(c, s, x, i).(view := v);
             Structure(c, t.bank, y, LatchAfter(c, s, i)) && Contents(c, initial, t, y)
    ensures FullInv(c, initial, SysEdge(c, s, i, which), y)
  {
    var t := SysEdge(c, s, i, which);
    var w := CacheBankFlush.EdgeKeeps(c, initial, s, x, i, which);
    var places := MovedRecords(c, initial, s, x, i, which, v);
    SameAux(c, initial, t, AfterEdge(c, s, x, i, w), AfterEdge(c, s, x, i, v), places);
    y := AfterEdge(c, s, x, i, w).(places := places);
  }

  // -------------------------------------------------------------------- runs

  datatype Action = Clock(i: Input, which: nat) | Serve(status: Status) | Elsewhere(line: nat, data: Sector) | Rest

  /** The oldest request at the port is served. Writes succeed; a failed read returns zeroes and its error. */
  function Served(s: Sys, status: Status): Sys
    requires s.port != []
  {
    match s.port[0]
    case WriteLine(l, d) => s.(port := s.port[1..], backing := s.backing[l := d])
    case ReadLine(l, h) =>
      s.(port := s.port[1..],
         returned := s.returned + [Return(l, Fill(h, if status.Ok? then Get(s.backing, l) else ZERO_SECTOR, status))])
  }

  /**
   An action the system can take: an edge on which the source reports no error, a service,
   another bank's write, or something that does not concern this bank.
   */
  predicate Next(c: Spec, s: Sys, a: Action, t: Sys)
    requires c.Valid()
  {
    match a
    case Clock(i, which) =>
      && Offered(c, s, i, which)
      && Runnable(c, s.bank) && InputOk(c, s.bank, i) && EventsOk(s.bank.mshr, EventsOf(c, s.bank, i))
      && t == SysEdge(c, s, i, which)
    case Serve(status) => s.port != [] && t == Served(s, status)
    case Elsewhere(l, d) => !Owned(c, l) && t == s.(backing := s.backing[l := d])
    case Rest => t == s
  }

  function InitSys(c: Spec, initial: Memory): Sys
    requires c.Valid()
  {
    Sys(NewBank(c), [], [], initial, [], map[], [])
  }

  ghost predicate IsRun(c: Spec, initial: Memory, run: seq<Sys>, acts: seq<Action>)
    requires c.Valid()
  {
    && |run| == |acts| + 1
    && run[0] == InitSys(c, initial)
    && (forall k | 0 <= k < |acts| :: Next(c, run[k], acts[k], run[k + 1]))
  }

  const NO_AUX: Aux := Aux(map[], map[], 0, map[])

  lemma {:induction false} NoEntries(n: nat)
    ensures Occupancy(NewMshr(n).entries) == 0
  {
    NoneLive(NewMshr(n).entries);
  }

  lemma InitHolds(c: Spec, initial: Memory)
    requires c.Valid()
    ensures FullInv(c, initial, InitSys(c, initial), NO_AUX)
  {
    NoEntries(c.registers);
    assert InFlight(InitSys(c, initial)) == [];
  }

  lemma ServeKeeps(c: Spec, initial: Memory, s: Sys, x: Aux, status: Status)
    requires c.Valid() && FullInv(c, initial, s, x) && s.port != []
    ensures FullInv(c, initial, Served(s, status), x)
  {
    hide Boot, Contents, FlushInv, FreeOk, Get, Ledger, Outgoing, Shaped, Structure, Values;
    var t := Served(s, status);
    var q := InFlight(s);
    assert InFlight(t) == q[1..];
    assert q[0] == s.port[0];
    SameLedger(s, t, x.places, Unset);
    SameValues(c, initial, s, x, t);
    ServeContents(c, initial, s, x, status);
  }

  lemma ServeContents(c: Spec, initial: Memory, s: Sys, x: Aux, status: Status)
    requires c.Valid() && Contents(c, initial, s, x) && s.port != []
    ensures Contents(c, initial, Served(s, status), x)
  {
    var t, q, want := Served(s, status), InFlight(s), Want(s.bank.mshr, x.chains);
    assert InFlight(t) == q[1..];
    assert q[0] == s.port[0];
    if q[0].WriteLine? {
      ServiceWrite(q, s.returned, s.backing, x.view, want);
    } else {
      ServiceRead(q, s.returned, s.backing, x.view, want, t.returned[|s.returned|].fill);
    }
    if s.bank.s0.Some? && s.bank.s0.value.FillOp? {
      var l, f := s.bank.s0.value.line, s.bank.s0.value.fill;
      assert ReturnOk(q, s.backing, x.view, l, f);
      assert q[0].line != l;
      assert ReturnOk(q[1..], t.backing, x.view, l, f);
    }
  }

  lemma ElsewhereKeeps(c: Spec, initial: Memory, s: Sys, x: Aux, l: nat, d: Sector)
    requires c.Valid() && FullInv(c, initial, s, x) && !Owned(c, l)
    ensures FullInv(c, initial, s.(backing := s.backing[l := d]), x)
  {
    var t := s.(backing := s.backing[l := d]);
    SameLedger(s, t, x.places, Unset);
    SameValues(c, initial, s, x, t);
    assert l in x.view ==> Backed(c, s.bank.store, x.view, l);
    assert l !in x.chains by {
      if l in x.chains {
        assert ChainOk(s.bank.mshr, l, x.chains[l]);
        SameLine(c, s.bank.mshr.entries[x.chains[l][0]].request.address);
      }
    }
    OtherWrite(InFlight(s), s.returned, s.backing, x.view, Want(s.bank.mshr, x.chains), l, d);
    assert InFlight(t) == InFlight(s);
  }

  lemma NextKeeps(c: Spec, initial: Memory, s: Sys, x: Aux, a: Action, t: Sys) returns (y: Aux)
    requires c.Valid() && FullInv(c, initial, s, x) && Next(c, s, a, t)
    ensures FullInv(c, initial, t, y)
  {
    y := x;
    match a
    case Clock(i, which) => y := EdgeFull(c, initial, s, x, i, which);
    case Serve(status) => ServeKeeps(c, initial, s, x, status);
    case Elsewhere(l, d) => ElsewhereKeeps(c, initial, s, x, l, d);
    case Rest =>
  }

  /** Every state of every run satisfies the invariant. */
  lemma {:induction false} InvariantAt(c: Spec, initial: Memory, run: seq<Sys>, acts: seq<Action>, k: nat) returns (x: Aux)
    requires c.Valid() && IsRun(c, initial, run, acts) && k < |run|
    ensures FullInv(c, initial, run[k], x)
  {
    if k == 0 {
      InitHolds(c, initial);
      x := NO_AUX;
    } else {
      var before := InvariantAt(c, initial, run, acts, k - 1);
      x := NextKeeps(c, initial, run[k - 1], before, acts[k - 1], run[k]);
    }
  }
}
