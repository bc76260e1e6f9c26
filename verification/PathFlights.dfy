/** The batches in flight between the coalescer and the cache, and what one edge does to each. */
module PathFlights {
  import opened CacheTypes
  import opened Coalescing
  import opened Coalescers
  import opened GlobalAdapters
  import opened GlobalPath
  import CoalescerLedger
  import GlobalAdapterLedger

  /** A wire transaction in flight: recorded by the adapter, or still on offer to it. */
  predicate InFlight(s: Path, id: nat) {
    id in s.a.records || (id == s.a.sequence && s.c.output.Some?)
  }

  function BatchOf(s: Path, id: nat): Offered
    requires InFlight(s, id)
  {
    if id in s.a.records then s.a.records[id].batch else s.c.output.value
  }

  function SentOf(s: Path, id: nat): Channels {
    if id in s.a.records then s.a.records[id].sent else {}
  }

  function DoneOf(s: Path, id: nat): Channels {
    if id in s.a.records then s.a.records[id].done else {}
  }

  /** The ports of a transaction that this edge answers or acknowledges. */
  function DoneNow(s: Path, i: Outside, id: nat): Channels
    requires OutsideShaped(i)
  {
    AnsweredNow(s, i, id) + StoresDone(i.stores, id)
  }

  /** The ports of a transaction that send their word in this edge. */
  function SentNow(s: Path, i: Outside, id: nat): Channels
    requires OutsideShaped(i)
  {
    if id == s.a.sequence then NewlySent(ToAdapter(s, i)) else {}
  }

  ghost predicate Waits(s: Path, id: nat)
    requires InFlight(s, id)
  {
    exists p :: p in ChannelsOf(BatchOf(s, id).batch) && p !in DoneOf(s, id)
  }

  lemma ReadsAnswered(s: Path, i: Outside, id: nat)
    requires OutsideShaped(i) && Fits(s.a, ToAdapter(s, i)) && id in s.a.records
    ensures var rec := Answered(s.a, ToAdapter(s, i), id);
            rec.done == s.a.records[id].done + DoneNow(s, i, id) && rec.batch == s.a.records[id].batch && rec.sent == s.a.records[id].sent
  {
    assert ReadsDone(ToAdapter(s, i), id) == AnsweredNow(s, i, id);
  }

  /** Only recorded transactions are answered. */
  lemma UnknownQuiet(s: Path, i: Outside, id: nat)
    requires OutsideKeeps(s, i) && id !in s.a.records
    ensures DoneNow(s, i, id) == {}
  {
    hide SplitKeeps, CountersLeft, Offers, ReceiptsApart;
    forall p | 0 <= p < 2 && Picks(i, p) ensures i.replies[p].value.transaction != id {
      assert ReadOk(s.a, p, i.replies[p].value);
    }
    forall k | 0 <= k < |i.stores| ensures i.stores[k].transaction != id {
      assert ReceiptOk(s.a, i.stores[k]);
    }
  }

  /** The batch on offer, as the adapter's record of it or as untouched. */
  lemma OnOffer(s: Path, w: GlobalAdapterLedger.Wire)
    requires GlobalAdapterLedger.Kept(s.a, w) && OutputLinked(s.c, s.a) && InFlight(s, s.a.sequence)
    ensures s.c.output == Some(BatchOf(s, s.a.sequence)) && SentOf(s, s.a.sequence) == s.a.delivered
  {
    hide BatchOk, SlotLinked, GlobalAdapterLedger.PastKept;
    if s.a.sequence in s.a.records {
      assert GlobalAdapterLedger.RecordKept(s.a, w, s.a.sequence);
    }
  }

  /** A batch in flight after an edge was so before, with more words sent and answered, or has just been sent. */
  lemma FlightNext(s: Path, t: CoalescerLedger.Trail, w: GlobalAdapterLedger.Wire, i: Outside, id: nat)
    requires Kept(s, t, w) && OutsideKeeps(s, i) && Passes(s, i) && InFlight(PathNext(s, i), id)
    ensures var n := PathNext(s, i);
            && Waits(n, id)
            && (s.c.send && id == s.a.sequence ==>
                  !InFlight(s, id) && BatchOf(n, id) == Sent(s.c) && SentOf(n, id) == {} && DoneOf(n, id) == {})
            && (!(s.c.send && id == s.a.sequence) ==>
                  && InFlight(s, id) && BatchOf(n, id) == BatchOf(s, id)
                  && SentOf(n, id) == SentOf(s, id) + SentNow(s, i, id) && DoneOf(n, id) == DoneOf(s, id) + DoneNow(s, i, id))
  {
    hide LoadsApart, ReplyLinked, CacheKeeps, SplitKeeps, CountersLeft, AdapterFollows, PackedReply, ReplyShaped, RecordLinked,
         CoalescerLedger.Kept, ChannelsOf, AcquireAfter, Finishes, Prepares, OfferOk, ReplyHeld, AcceptedOk, Answered, BatchOk, SlotsAfter,
         RecordsAfter, SlotLinked, NewlySent, BatchLeaves, DoneNow, GlobalAdapterLedger.HeldKept, GlobalAdapterLedger.PastKept,
         GlobalAdapterLedger.RecordKept;
    var n := PathNext(s, i);
    FreeIsFree(s.c, t);
    if id != s.a.sequence && id in n.a.records {
      OlderRecord(s, w, i, id);
      ReadsAnswered(s, i, id);
      SomeWaits(n, id);
    } else if s.c.output.None? {
      QuietAdapter(s, w, i);
      FreshWaits(s, t, w, i, id);
    } else {
      OfferedFlight(s, t, w, i, id);
    }
  }

  lemma SomeWaits(s: Path, id: nat)
    requires id in s.a.records && DoneOf(s, id) <= ChannelsOf(BatchOf(s, id).batch) && DoneOf(s, id) != ChannelsOf(BatchOf(s, id).batch)
    ensures Waits(s, id)
  {
    var channels, done := ChannelsOf(BatchOf(s, id).batch), DoneOf(s, id);
    StillWaits(channels, done, {});
    assert done + {} == done;
    var p :| p in channels - done;
    assert p in channels && p !in done;
  }

  lemma FreshWaits(s: Path, t: CoalescerLedger.Trail, w: GlobalAdapterLedger.Wire, i: Outside, id: nat)
    requires Kept(s, t, w) && OutsideKeeps(s, i) && Passes(s, i) && InFlight(PathNext(s, i), id) && s.c.output.None?
    requires id !in PathNext(s, i).a.records
    ensures id == PathNext(s, i).a.sequence && s.c.send && Waits(PathNext(s, i), id)
  {
    hide LoadsApart, ReplyLinked, CacheKeeps, SplitKeeps, CountersLeft, AdapterFollows, PackedReply, ReplyShaped, RecordLinked,
         CoalescerLedger.Kept, GlobalAdapterLedger.Kept, ChannelsOf, AcquireAfter, Finishes, Prepares, OfferOk, ReplyHeld, AcceptedOk,
         Answered, SlotsAfter, RecordsAfter, SlotLinked, NewlySent, BatchLeaves;
    OutputNext(s, t, w, i);
    var b := PathNext(s, i).c.output.value.batch;
    assert BatchOk(b);
    OfferedWaits(PathNext(s, i), id);
  }

  lemma OfferedFlight(s: Path, t: CoalescerLedger.Trail, w: GlobalAdapterLedger.Wire, i: Outside, id: nat)
    requires Kept(s, t, w) && OutsideKeeps(s, i) && Passes(s, i) && InFlight(PathNext(s, i), id) && s.c.output.Some?
    requires id == s.a.sequence || id !in PathNext(s, i).a.records
    ensures var n := PathNext(s, i);
            && id == s.a.sequence && InFlight(s, id) && BatchOf(n, id) == BatchOf(s, id) && Waits(n, id)
            && SentOf(n, id) == SentOf(s, id) + SentNow(s, i, id) && DoneOf(n, id) == DoneOf(s, id) + DoneNow(s, i, id)
  {
    hide LoadsApart, ReplyLinked, CacheKeeps, SplitKeeps, CountersLeft, AdapterFollows, PackedReply, ReplyShaped, RecordLinked,
         CoalescerLedger.Kept, GlobalAdapterLedger.Kept, ChannelsOf, AcquireAfter, Finishes, Prepares, OfferOk, ReplyHeld, AcceptedOk,
         Answered, BatchOk, SlotsAfter, RecordsAfter, SlotLinked, NewlySent, BatchLeaves, DoneNow;
    var n := PathNext(s, i);
    FreeIsFree(s.c, t);
    OfferedRecord(s, w, i);
    OnOffer(s, w);
    if s.a.sequence in s.a.records {
      ReadsAnswered(s, i, id);
    } else {
      UnknownQuiet(s, i, s.a.sequence);
    }
    if id in n.a.records {
      SomeWaits(n, id);
    } else {
      OfferedWaits(n, id);
    }
  }

  lemma OfferedWaits(s: Path, id: nat)
    requires s.c.output.Some? && id == s.a.sequence && id !in s.a.records && BatchOk(s.c.output.value.batch)
    ensures Waits(s, id)
  {
    assert ChannelsOf(BatchOf(s, id).batch) != {} && DoneOf(s, id) == {};
    var p :| p in ChannelsOf(BatchOf(s, id).batch);
    assert p !in DoneOf(s, id);
  }
}
