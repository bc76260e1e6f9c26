/**
 Every accepted request is in exactly one place, and every value on its way to a
 load is what the memory held at some moment since the load was accepted.
 */
module CacheBankLedger {
  import opened CacheTypes
  import opened CacheGeometry
  import opened CacheArrays
  import opened CacheMissRegisters
  import opened CacheChains
  import opened CacheMemorySide
  import opened CacheBanks
  import opened CacheBankSystem

  predicate IsIssue(s: Sys, r: Request, p: nat) {
    r.id in s.issued && s.issued[r.id].request == r && s.issued[r.id].port == p
  }

  predicate At(s: Sys, latch: Latch, place: Place, id: nat) {
    match place
    case InLatch => latch.Held? && Access(latch.op) && latch.op.request.id == id
    case InS0 => s.bank.s0.Some? && Access(s.bank.s0.value) && s.bank.s0.value.request.id == id
    case InSlot(i) => i < |s.bank.mshr.entries| && s.bank.mshr.entries[i].valid && s.bank.mshr.entries[i].request.id == id
    case InS1 => s.bank.s1.Some? && s.bank.s1.value.op.ReplayOp? && s.bank.s1.value.op.request.id == id
    case Finished(k) => k < |s.done| && s.done[k].id == id
  }

  /** A completion answers its own request, on its own port, after it was accepted. */
  predicate Answers(s: Sys, d: Completion) {
    && d.id in s.issued && d.port == s.issued[d.id].port && d.load == !s.issued[d.id].request.write
    && s.issued[d.id].at <= d.at <= |s.log|
  }

  ghost predicate Ledger(s: Sys, places: map<nat, Place>, latch: Latch) {
    && places.Keys == s.issued.Keys
    && (forall id | id in places :: At(s, latch, places[id], id))
    && (forall i | 0 <= i < |s.bank.mshr.entries| && s.bank.mshr.entries[i].valid ::
          var e := s.bank.mshr.entries[i];
          IsIssue(s, e.request, e.port) && e.request.id in places && places[e.request.id] == InSlot(i))
    && (s.bank.s0.Some? && Access(s.bank.s0.value) ==>
          var o := s.bank.s0.value;
          IsIssue(s, o.request, o.port) && o.request.id in places && places[o.request.id] == InS0)
    && (latch.Held? ==>
          && Access(latch.op) && IsIssue(s, latch.op.request, latch.op.port)
          && latch.op.request.id in places && places[latch.op.request.id] == InLatch)
    && (s.bank.s1.Some? && s.bank.s1.value.op.ReplayOp? ==>
          var o := s.bank.s1.value.op;
          IsIssue(s, o.request, o.port) && o.request.id in places && places[o.request.id] == InS1)
    && (forall k | 0 <= k < |s.done| ::
          Answers(s, s.done[k]) && s.done[k].id in places && places[s.done[k].id] == Finished(k))
    && (forall id | id in s.issued :: s.issued[id].at <= |s.log| && s.issued[id].request.id == id)
  }

  // ------------------------------------------------------------------ places

  function PlacesAfterCommit(s: Sys, places: map<nat, Place>): map<nat, Place> {
    if s.bank.s1.Some? && Access(s.bank.s1.value.op) && s.bank.s1.value.hit then
      places[s.bank.s1.value.op.request.id := Finished(|s.done|)]
    else places
  }

  /** The entry that leaves s1 is its own slot's. */
  ghost predicate OwnSlot(b: Bank) {
    b.s1.Some? && b.s1.value.op.CoreOp? ==>
      var k := b.s1.value;
      && k.allocation.Some? && Live(b.mshr, k.allocation.value.handle)
      && var e := b.mshr.entries[k.allocation.value.handle.slot];
         e.request == k.op.request && e.port == k.op.port
  }

  /** Finalizing touches no request, and frees a slot only for a hit. */
  lemma FinalizeRequests(m: Mshr, f: Finalization)
    requires FinalizeOk(m, f)
    ensures var n := Finalize(m, f);
            && |n.entries| == |m.entries|
            && forall i | 0 <= i < |m.entries| ::
                 && n.entries[i].request == m.entries[i].request && n.entries[i].port == m.entries[i].port
                 && n.entries[i].valid == (m.entries[i].valid && !(f.release && i == f.handle.slot))
  {
  }

  lemma CommitLedgerQuiet(s: Sys, places: map<nat, Place>)
    requires CommitOk(s.bank) && Ledger(s, places, Unset) && OwnSlot(s.bank)
    requires s.bank.s1.Some? && !(Access(s.bank.s1.value.op) && s.bank.s1.value.hit) && !s.bank.s1.value.op.ReplayOp?
    ensures Ledger(SysCommit(s), places, Unset)
  {
    var t, k := SysCommit(s), s.bank.s1.value;
    if k.op.CoreOp? {
      FinalizeRequests(s.bank.mshr, FinalizationOf(k));
    }
    assert t.done == s.done;
    forall id | id in places ensures At(t, Unset, places[id], id) {
      assert At(s, Unset, places[id], id);
    }
    forall j | 0 <= j < |t.done| ensures Answers(t, t.done[j]) {
      assert Answers(s, s.done[j]);
    }
  }

  /** The request that completes leaves its place; every other entry stays. */
  lemma DoneMoves(s: Sys, places: map<nat, Place>)
    requires CommitOk(s.bank) && Ledger(s, places, Unset) && OwnSlot(s.bank)
    requires s.bank.s1.Some? && Access(s.bank.s1.value.op) && s.bank.s1.value.hit
    ensures var t, r, n := SysCommit(s), s.bank.s1.value.op.request, |s.done|;
            && t.issued == s.issued && t.log == s.log && t.bank.s0 == s.bank.s0 && t.bank.s1.None? && |t.bank.mshr.entries| == |s.bank.mshr.entries|
            && |t.done| == n + 1 && t.done[..n] == s.done && t.done[n].id == r.id && Answers(t, t.done[n]) && r.id in places
            && forall i | 0 <= i < |t.bank.mshr.entries| ::
                 var e, f := s.bank.mshr.entries[i], t.bank.mshr.entries[i];
                 && (f.valid <==> e.valid && e.request.id != r.id) && f.request == e.request && f.port == e.port
  {
    hide At;
    var k := s.bank.s1.value;
    if k.op.CoreOp? {
      FinalizeRequests(s.bank.mshr, FinalizationOf(k));
    }
    assert IsIssue(s, k.op.request, k.op.port);
  }

  lemma DoneAt(s: Sys, t: Sys, place: Place, id: nat, o: nat)
    requires At(s, Unset, place, o) && o != id
    requires t.bank.s0 == s.bank.s0 && |t.bank.mshr.entries| == |s.bank.mshr.entries| && |t.done| == |s.done| + 1 && t.done[..|s.done|] == s.done
    requires s.bank.s1.Some? && s.bank.s1.value.op.ReplayOp? ==> s.bank.s1.value.op.request.id == id
    requires forall i | 0 <= i < |t.bank.mshr.entries| ::
               var e, f := s.bank.mshr.entries[i], t.bank.mshr.entries[i];
               (f.valid <==> e.valid && e.request.id != id) && f.request == e.request
    ensures At(t, Unset, place, o)
  {
    assert forall j | 0 <= j < |s.done| :: t.done[..|s.done|][j] == t.done[j];
  }

  lemma DoneLedger(s: Sys, t: Sys, places: map<nat, Place>, id: nat)
    requires Ledger(s, places, Unset) && id in places
    requires t.issued == s.issued && t.log == s.log && t.bank.s0 == s.bank.s0 && t.bank.s1.None? && |t.bank.mshr.entries| == |s.bank.mshr.entries|
    requires |t.done| == |s.done| + 1 && t.done[..|s.done|] == s.done && t.done[|s.done|].id == id && Answers(t, t.done[|s.done|])
    requires s.bank.s1.Some? && s.bank.s1.value.op.ReplayOp? ==> s.bank.s1.value.op.request.id == id
    requires places[id] != InS0 && forall j | 0 <= j < |s.done| :: s.done[j].id != id
    requires forall i | 0 <= i < |t.bank.mshr.entries| ::
               var e, f := s.bank.mshr.entries[i], t.bank.mshr.entries[i];
               (f.valid <==> e.valid && e.request.id != id) && f.request == e.request && f.port == e.port
    ensures Ledger(t, places[id := Finished(|s.done|)], Unset)
  {
    hide IsIssue, Answers, At;
    SameIssues(s, t);
    var n := |s.done|;
    var after := places[id := Finished(n)];
    forall j | 0 <= j < |t.done| ensures Answers(t, t.done[j]) && t.done[j].id in after && after[t.done[j].id] == Finished(j) {
      if j < n {
        assert t.done[..n][j] == t.done[j] == s.done[j];
      }
    }
    forall o | o in after ensures At(t, Unset, after[o], o) {
      if o == id {
        FinishedAt(t, n);
      } else {
        DoneAt(s, t, places[o], id, o);
      }
    }
  }

  lemma FinishedAt(t: Sys, n: nat)
    requires n < |t.done|
    ensures At(t, Unset, Finished(n), t.done[n].id)
  {
  }

  lemma CommitLedgerDone(s: Sys, places: map<nat, Place>)
    requires CommitOk(s.bank) && Ledger(s, places, Unset) && OwnSlot(s.bank)
    requires s.bank.s1.Some? && Access(s.bank.s1.value.op) && s.bank.s1.value.hit
    ensures Ledger(SysCommit(s), PlacesAfterCommit(s, places), Unset)
  {
    hide CommitOk, SysCommit, IsIssue, Answers;
    DoneMoves(s, places);
    var id := s.bank.s1.value.op.request.id;
    assert places[id] != InS0 && forall j | 0 <= j < |s.done| :: s.done[j].id != id;
    DoneLedger(s, SysCommit(s), places, id);
  }

  lemma CommitLedger(s: Sys, places: map<nat, Place>)
    requires CommitOk(s.bank) && Ledger(s, places, Unset) && OwnSlot(s.bank)
    requires s.bank.s1.Some? && s.bank.s1.value.op.ReplayOp? ==> s.bank.s1.value.hit
    ensures Ledger(SysCommit(s), PlacesAfterCommit(s, places), Unset)
  {
    if s.bank.s1.Some? {
      if Access(s.bank.s1.value.op) && s.bank.s1.value.hit {
        CommitLedgerDone(s, places);
      } else {
        CommitLedgerQuiet(s, places);
      }
    }
  }

  function PlacesAfterRelease(s: Sys, places: map<nat, Place>, latch: Latch): map<nat, Place>
    requires s.bank.mshr.head.Some? && s.bank.mshr.head.value.slot < |s.bank.mshr.entries|
  {
    var id := s.bank.mshr.entries[s.bank.mshr.head.value.slot].request.id;
    places[id := if latch.Held? then InLatch else Finished(|s.done|)]
  }

  lemma ReleaseLedger(s: Sys, places: map<nat, Place>, answer: seq<PortResponse>, latch: Latch)
    requires Ledger(s, places, Unset) && s.bank.mshr.head.Some? && HeadOk(s.bank) && HeadEntry(s.bank).valid
    requires s.bank.mshr.head.value.slot < |s.bank.mshr.entries|
    requires if latch.Held? then answer == [] && latch == Held(ReplayOp(HeadEntry(s.bank).request, HeadEntry(s.bank).port, s.bank.forwarded))
             else latch == Clear && |answer| == 1 && answer[0].port == HeadEntry(s.bank).port && answer[0].response.id == HeadEntry(s.bank).request.id
                  && !HeadEntry(s.bank).request.write
    ensures Ledger(SysRelease(s, answer), PlacesAfterRelease(s, places, latch), latch)
  {
    hide SysRelease, IsIssue, At, Answers;
    var t, now := SysRelease(s, answer), PlacesAfterRelease(s, places, latch);
    var e, slot := HeadEntry(s.bank), s.bank.mshr.head.value.slot;
    ReleaseFields(s, answer);
    assert places[e.request.id] == InSlot(slot);
    forall id | id in now ensures At(t, latch, now[id], id) {
      assert At(s, Unset, places[id], id);
      ReleaseAt(s, answer, latch, places[id], id);
    }
    forall j | 0 <= j < |t.done| ensures Answers(t, t.done[j]) && t.done[j].id in now && now[t.done[j].id] == Finished(j) {
      if j < |s.done| {
        assert Answers(s, s.done[j]);
        SameAnswer(s, t, s.done[j]);
      } else {
        assert IsIssue(s, e.request, e.port);
        ReleaseAnswers(s, answer);
      }
    }
    forall r, p | IsIssue(s, r, p) ensures IsIssue(t, r, p) { SameIssue(s, t, r, p); }
  }

  lemma ReleaseFields(s: Sys, answer: seq<PortResponse>)
    requires s.bank.mshr.head.Some? && s.bank.mshr.head.value.slot < |s.bank.mshr.entries|
    ensures var t, slot := SysRelease(s, answer), s.bank.mshr.head.value.slot;
            && t.issued == s.issued && t.log == s.log && t.bank.s0 == s.bank.s0 && t.bank.s1 == s.bank.s1
            && t.bank.mshr.entries == s.bank.mshr.entries[slot := s.bank.mshr.entries[slot].(valid := false)]
            && t.done == s.done + AnsweredBy(answer, |s.log|)
  {
  }

  lemma SameAnswer(s: Sys, t: Sys, d: Completion)
    requires Answers(s, d) && t.issued == s.issued && t.log == s.log
    ensures Answers(t, d)
  {
  }

  lemma SameIssue(s: Sys, t: Sys, r: Request, p: nat)
    requires IsIssue(s, r, p) && t.issued == s.issued
    ensures IsIssue(t, r, p)
  {
  }

  /** The head's own answer, when it is given one. */
  lemma ReleaseAnswers(s: Sys, answer: seq<PortResponse>)
    requires s.bank.mshr.head.Some? && HeadOk(s.bank) && |answer| == 1
    requires var e := HeadEntry(s.bank);
             && IsIssue(s, e.request, e.port) && answer[0].port == e.port && answer[0].response.id == e.request.id && !e.request.write
             && s.issued[e.request.id].at <= |s.log|
    ensures var t := SysRelease(s, answer);
            |t.done| == |s.done| + 1 && Answers(t, t.done[|s.done|]) && t.done[|s.done|].id == HeadEntry(s.bank).request.id
  {
  }

  /** Every request stays where it was, except the head. */
  lemma ReleaseAt(s: Sys, answer: seq<PortResponse>, latch: Latch, place: Place, id: nat)
    requires s.bank.mshr.head.Some? && HeadOk(s.bank) && At(s, Unset, place, id)
    requires if latch.Held? then answer == [] && latch == Held(ReplayOp(HeadEntry(s.bank).request, HeadEntry(s.bank).port, s.bank.forwarded))
             else latch == Clear && |answer| == 1 && answer[0].response.id == HeadEntry(s.bank).request.id
    ensures var t := SysRelease(s, answer);
            && (place != InSlot(s.bank.mshr.head.value.slot) ==> At(t, latch, place, id))
            && (place == InSlot(s.bank.mshr.head.value.slot) ==>
                  id == HeadEntry(s.bank).request.id && At(t, latch, if latch.Held? then InLatch else Finished(|s.done|), id))
  {
  }

  lemma ClearLedger(s: Sys, places: map<nat, Place>)
    requires Ledger(s, places, Unset)
    ensures Ledger(s, places, Clear)
  {
    forall id | id in places ensures At(s, Clear, places[id], id) {
      assert At(s, Unset, places[id], id);
    }
  }

  function PlacesAfterExecute(s: Sys, places: map<nat, Place>, handed: Option<Allocated>): map<nat, Place> {
    if s.bank.s0.None? then places
    else
      match s.bank.s0.value
      case CoreOp(r, _) => if handed.Some? then places[r.id := InSlot(handed.value.handle.slot)] else places
      case ReplayOp(r, _, _) => places[r.id := InS1]
      case FillOp(_, _) => places
      case InitOp(_) => places
      case FlushOp(_, _) => places
  }

  /** What leaves s0 enters s1, and an access takes the slot it was handed. */
  lemma ExecuteMoves(c: Spec, s: Sys, handed: Option<Allocated>)
    requires c.Valid() && ExecuteOk(c, s.bank)
    requires handed.Some? ==> handed.value.handle.slot < |s.bank.mshr.entries|
    requires handed.Some? ==> s.bank.s0.Some? && s.bank.s0.value.CoreOp?
    ensures var t := SysExecute(c, s, handed);
            && t.done == s.done && t.issued == s.issued && |s.log| <= |t.log| && t.bank.s0.None?
            && t.bank.s1.Some? == s.bank.s0.Some? && (t.bank.s1.Some? ==> t.bank.s1.value.op == s.bank.s0.value)
            && |t.bank.mshr.entries| == |s.bank.mshr.entries|
            && (handed.None? ==> t.bank.mshr.entries == s.bank.mshr.entries)
            && (handed.Some? ==>
                  var k, e := handed.value.handle.slot, t.bank.mshr.entries[handed.value.handle.slot];
                  && e.valid && e.request == s.bank.s0.value.request && e.port == s.bank.s0.value.port
                  && forall j | 0 <= j < |s.bank.mshr.entries| && j != k :: t.bank.mshr.entries[j] == s.bank.mshr.entries[j])
  {
    hide Performs;
  }

  lemma ExecuteLedger(c: Spec, s: Sys, places: map<nat, Place>, latch: Latch, handed: Option<Allocated>)
    requires c.Valid() && ExecuteOk(c, s.bank) && Ledger(s, places, latch) && s.bank.s1.None?
    requires handed.Some? ==> handed.value.handle.slot < |s.bank.mshr.entries|
    requires handed.Some? <==> s.bank.s0.Some? && s.bank.s0.value.CoreOp?
    requires handed.Some? ==> !s.bank.mshr.entries[handed.value.handle.slot].valid
    ensures Ledger(SysExecute(c, s, handed), PlacesAfterExecute(s, places, handed), latch)
  {
    hide ExecuteOk, SysExecute, Ledger, PlacesAfterExecute;
    ExecuteMoves(c, s, handed);
    if handed.Some? {
      ExecuteLedgerCore(s, places, latch, handed.value.handle.slot, SysExecute(c, s, handed));
      PlacesAfterCore(s, places, handed);
    } else {
      ExecuteLedgerOther(s, places, latch, SysExecute(c, s, handed));
    }
  }

  lemma PlacesAfterCore(s: Sys, places: map<nat, Place>, handed: Option<Allocated>)
    requires handed.Some? && s.bank.s0.Some? && s.bank.s0.value.CoreOp?
    ensures PlacesAfterExecute(s, places, handed) == places[s.bank.s0.value.request.id := InSlot(handed.value.handle.slot)]
  {
  }

  lemma ExecuteLedgerCore(s: Sys, places: map<nat, Place>, latch: Latch, k: nat, t: Sys)
    requires Ledger(s, places, latch) && s.bank.s1.None? && s.bank.s0.Some? && s.bank.s0.value.CoreOp?
    requires k < |s.bank.mshr.entries| == |t.bank.mshr.entries| && !s.bank.mshr.entries[k].valid
    requires t.done == s.done && t.issued == s.issued && |s.log| <= |t.log| && t.bank.s0.None?
    requires t.bank.s1.Some? ==> t.bank.s1.value.op == s.bank.s0.value
    requires var e := t.bank.mshr.entries[k]; e.valid && e.request == s.bank.s0.value.request && e.port == s.bank.s0.value.port
    requires forall j | 0 <= j < |s.bank.mshr.entries| && j != k :: t.bank.mshr.entries[j] == s.bank.mshr.entries[j]
    ensures Ledger(t, places[s.bank.s0.value.request.id := InSlot(k)], latch)
  {
    var after := places[s.bank.s0.value.request.id := InSlot(k)];
    forall j | 0 <= j < |t.done| ensures Answers(t, t.done[j]) {
      assert Answers(s, s.done[j]);
    }
    forall id | id in after ensures At(t, latch, after[id], id) {
      assert At(s, latch, places[id], id);
    }
  }

  lemma ExecuteLedgerOther(s: Sys, places: map<nat, Place>, latch: Latch, t: Sys)
    requires Ledger(s, places, latch) && s.bank.s1.None? && !(s.bank.s0.Some? && s.bank.s0.value.CoreOp?)
    requires t.done == s.done && t.issued == s.issued && |s.log| <= |t.log| && t.bank.s0.None? && t.bank.mshr.entries == s.bank.mshr.entries
    requires t.bank.s1.Some? == s.bank.s0.Some? && (t.bank.s1.Some? ==> t.bank.s1.value.op == s.bank.s0.value)
    ensures Ledger(t, PlacesAfterExecute(s, places, None), latch)
  {
    var after := PlacesAfterExecute(s, places, None);
    forall j | 0 <= j < |t.done| ensures Answers(t, t.done[j]) {
      assert Answers(s, s.done[j]);
    }
    forall id | id in after ensures At(t, latch, after[id], id) {
      assert At(s, latch, places[id], id);
    }
  }

  function PlacesAfterLoad(places: map<nat, Place>, chosen: Option<Op>): map<nat, Place> {
    if chosen.Some? && Access(chosen.value) then places[chosen.value.request.id := InS0] else places
  }

  lemma LoadLedger(s: Sys, places: map<nat, Place>, latch: Latch, chosen: Option<Op>, which: nat)
    requires Ledger(s, places, latch) && s.bank.s0.None?
    requires latch.Held? ==> chosen == Some(latch.op)
    requires chosen.Some? && chosen.value.ReplayOp? ==> latch.Held?
    requires chosen.Some? && chosen.value.CoreOp? ==> chosen.value.request.id !in s.issued
    ensures Ledger(SysLoad(s, chosen, which), PlacesAfterLoad(places, chosen), Unset)
  {
    if chosen.Some? && chosen.value.CoreOp? {
      LoadLedgerCore(s, places, latch, chosen, which);
    } else {
      LoadLedgerOther(s, places, latch, chosen, which);
    }
  }

  lemma LoadLedgerCore(s: Sys, places: map<nat, Place>, latch: Latch, chosen: Option<Op>, which: nat)
    requires Ledger(s, places, latch) && s.bank.s0.None? && !latch.Held?
    requires chosen.Some? && chosen.value.CoreOp? && chosen.value.request.id !in s.issued
    ensures Ledger(SysLoad(s, chosen, which), PlacesAfterLoad(places, chosen), Unset)
  {
    var t, after := SysLoad(s, chosen, which), PlacesAfterLoad(places, chosen);
    assert t.bank.mshr == s.bank.mshr && t.done == s.done;
    forall j | 0 <= j < |t.done| ensures Answers(t, t.done[j]) {
      assert Answers(s, s.done[j]);
    }
    forall id | id in after ensures At(t, Unset, after[id], id) {
      if id in places {
        assert At(s, latch, places[id], id);
      }
    }
  }

  lemma LoadMoves(s: Sys, chosen: Option<Op>, which: nat)
    ensures var t := SysLoad(s, chosen, which);
            t.bank.mshr.entries == s.bank.mshr.entries && t.bank.s0 == chosen && t.bank.s1 == s.bank.s1 && t.done == s.done && t.log == s.log
  {
  }

  lemma SameIssues(s: Sys, t: Sys)
    requires t.issued == s.issued && t.log == s.log
    ensures forall r, p :: IsIssue(s, r, p) <==> IsIssue(t, r, p)
    ensures forall d :: Answers(s, d) <==> Answers(t, d)
  {
  }

  lemma LatchedAt(s: Sys, t: Sys, latch: Latch, place: Place, id: nat)
    requires At(s, latch, place, id) && s.bank.s0.None? && latch.Held? && Access(latch.op)
    requires t.bank.mshr.entries == s.bank.mshr.entries && t.bank.s0 == Some(latch.op) && t.bank.s1 == s.bank.s1 && t.done == s.done
    ensures if id == latch.op.request.id then At(t, Unset, InS0, id) else At(t, Unset, place, id)
  {
  }

  lemma LatchedAccess(s: Sys, places: map<nat, Place>, latch: Latch)
    requires Ledger(s, places, latch) && latch.Held?
    ensures Access(latch.op)
  {
  }

  lemma LatchedLedger(s: Sys, t: Sys, places: map<nat, Place>, latch: Latch)
    requires Ledger(s, places, latch) && s.bank.s0.None? && latch.Held? && Access(latch.op)
    requires t.bank.mshr.entries == s.bank.mshr.entries && t.bank.s0 == Some(latch.op) && t.bank.s1 == s.bank.s1
    requires t.log == s.log && t.issued == s.issued && t.done == s.done
    ensures Ledger(t, places[latch.op.request.id := InS0], Unset)
  {
    hide At, Answers, IsIssue;
    SameIssues(s, t);
    var after := places[latch.op.request.id := InS0];
    forall id | id in after ensures At(t, Unset, after[id], id) {
      assert At(s, latch, places[id], id);
      LatchedAt(s, t, latch, places[id], id);
    }
  }

  lemma QuietLedger(s: Sys, t: Sys, places: map<nat, Place>, latch: Latch)
    requires Ledger(s, places, latch) && s.bank.s0.None? && !latch.Held?
    requires t.bank.mshr.entries == s.bank.mshr.entries && t.bank.s1 == s.bank.s1 && (t.bank.s0.Some? ==> !Access(t.bank.s0.value))
    requires t.log == s.log && t.issued == s.issued && t.done == s.done
    ensures Ledger(t, places, Unset)
  {
    forall j | 0 <= j < |t.done| ensures Answers(t, t.done[j]) {
      assert Answers(s, s.done[j]);
    }
    forall id | id in places ensures At(t, Unset, places[id], id) {
      assert At(s, latch, places[id], id);
    }
  }

  lemma LoadLedgerOther(s: Sys, places: map<nat, Place>, latch: Latch, chosen: Option<Op>, which: nat)
    requires Ledger(s, places, latch) && s.bank.s0.None?
    requires latch.Held? ==> chosen == Some(latch.op)
    requires chosen.Some? && chosen.value.ReplayOp? ==> latch.Held?
    requires chosen.None? || !chosen.value.CoreOp?
    ensures Ledger(SysLoad(s, chosen, which), PlacesAfterLoad(places, chosen), Unset)
  {
    hide Ledger, LoadStage;
    LoadMoves(s, chosen, which);
    var t := SysLoad(s, chosen, which);
    if latch.Held? {
      LatchedAccess(s, places, latch);
      LatchedLedger(s, t, places, latch);
    } else {
      QuietLedger(s, t, places, latch);
    }
  }

  /** Stages that touch neither the requests nor the records keep the ledger. */
  lemma SameLedger(s: Sys, t: Sys, places: map<nat, Place>, latch: Latch)
    requires Ledger(s, places, latch)
    requires t.bank.mshr.entries == s.bank.mshr.entries && t.bank.s0 == s.bank.s0 && t.bank.s1 == s.bank.s1
    requires t.log == s.log && t.issued == s.issued && t.done == s.done
    ensures Ledger(t, places, latch)
  {
    forall j | 0 <= j < |t.done| ensures Answers(t, t.done[j]) {
      assert Answers(s, s.done[j]);
    }
    forall id | id in places ensures At(t, latch, places[id], id) {
      assert At(s, latch, places[id], id);
    }
  }

  // ------------------------------------------------------------------ values

  /** `data` is the requested word of the memory after some number of logged stores between acceptance and `upto`. */
  ghost predicate Justified(c: Spec, initial: Memory, log: seq<Request>, issue: Issue, data: Word, upto: nat)
    requires c.Valid()
  {
    exists n :: issue.at <= n <= upto && n <= |log|
      && data == ReadWord(c, Stored(c, initial, log[..n], LineOf(issue.request.address)), issue.request.address)
  }

  lemma JustifiedGrows(c: Spec, initial: Memory, log: seq<Request>, more: seq<Request>, issue: Issue, data: Word, upto: nat, to: nat)
    requires c.Valid() && Justified(c, initial, log, issue, data, upto) && upto <= to
    ensures Justified(c, initial, log + more, issue, data, to)
  {
    var n :| issue.at <= n <= upto && n <= |log|
      && data == ReadWord(c, Stored(c, initial, log[..n], LineOf(issue.request.address)), issue.request.address);
    assert (log + more)[..n] == log[..n];
  }

  /** The value in s1 for a load is justified. */
  ghost predicate ReplyOk(c: Spec, initial: Memory, s: Sys)
    requires c.Valid()
  {
    CommitRead(s.bank) && s.bank.s1.value.reply.status.Ok? ==>
      && s.bank.s1.value.op.request.id in s.issued
      && s.bank.s1.value.reply.id == s.bank.s1.value.op.request.id
      && Justified(c, initial, s.log, s.issued[s.bank.s1.value.op.request.id], s.bank.s1.value.reply.data, |s.log|)
  }

  ghost predicate DoneOk(c: Spec, initial: Memory, s: Sys)
    requires c.Valid()
  {
    forall k | 0 <= k < |s.done| && s.done[k].load && s.done[k].status.Ok? ::
      s.done[k].id in s.issued && Justified(c, initial, s.log, s.issued[s.done[k].id], s.done[k].data, s.done[k].at)
  }

  /** The fill being forwarded holds the memory at the moment it was taken, after every load of its chain was accepted. */
  ghost predicate ForwardOk(c: Spec, initial: Memory, s: Sys, x: Aux)
    requires c.Valid()
  {
    HeadLine(s.bank.mshr).Some? && s.bank.forwarded.status.Ok? ==>
      var l := HeadLine(s.bank.mshr).value;
      && x.takenAt <= |s.log|
      && s.bank.forwarded.data == Stored(c, initial, s.log[..x.takenAt], l)
      && (forall i | 0 <= i < |s.bank.mshr.entries| && s.bank.mshr.entries[i].valid && s.bank.mshr.entries[i].finalized
                     && s.bank.mshr.entries[i].line == l ::
            s.bank.mshr.entries[i].request.id in s.issued && s.issued[s.bank.mshr.entries[i].request.id].at <= x.takenAt)
      && (s.bank.s1.Some? && s.bank.s1.value.op.CoreOp? && !s.bank.s1.value.hit && LineOf(s.bank.s1.value.op.request.address) == l ==>
            s.bank.s1.value.op.request.id in s.issued && s.issued[s.bank.s1.value.op.request.id].at <= x.takenAt)
  }

  ghost predicate Values(c: Spec, initial: Memory, s: Sys, x: Aux)
    requires c.Valid()
  {
    ReplyOk(c, initial, s) && DoneOk(c, initial, s) && ForwardOk(c, initial, s, x)
  }
}
