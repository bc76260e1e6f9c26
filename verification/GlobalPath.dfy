/**
 The coalescer and the word adapter connected as the memory system connects them
 (timing/memsys/system.go): as long as the cache and the SIMD split keep their own side of
 the protocol, neither component ever refuses what the other hands it.
 */
module GlobalPath {
  import opened CacheTypes
  import opened Coalescing
  import opened Coalescers
  import opened GlobalAdapters
  import CoalescerLedger
  import GlobalAdapterLedger

  datatype Path = Path(c: CoalescerState, a: Adapter)

  /** What the split and the cache bring to one edge. */
  datatype Outside = Outside(request: Option<SimdRequest>, accepted: seq<bool>, replies: seq<Option<WordReply>>,
                             stores: seq<StoreReceipt>, ready: bool)

  predicate OutsideShaped(i: Outside) {
    && |i.accepted| == 2 && |i.replies| == 2
    && (forall p | 0 <= p < 2 && i.replies[p].Some? :: |i.replies[p].value.data| == WORD_BYTES)
    && (i.request.Some? ==> Shaped(i.request.value.simd))
  }

  // -------------------------------------------------------------------------- the wiring

  /** The port's reply belongs to the transaction the packer selects. */
  predicate Picks(i: Outside, p: nat)
    requires |i.replies| == 2 && p < 2
  {
    && i.replies[p].Some?
    && i.replies[p].value.transaction ==
       (if i.replies[0].Some? then i.replies[0].value.transaction else i.replies[1].value.transaction)
  }

  /** The cache hands a reply over exactly when the adapter packs it and the split takes the result. */
  function Marked(i: Outside, p: nat): Option<WordReply>
    requires |i.replies| == 2 && p < 2
  {
    if i.replies[p].Some? then Some(i.replies[p].value.(delivered := Picks(i, p) && i.ready)) else None
  }

  function ToAdapter(s: Path, i: Outside): (r: AdapterInput)
    requires OutsideShaped(i)
    ensures |r.accepted| == 2 && |r.replies| == 2
  {
    AdapterInput(s.c.output, i.accepted, [Marked(i, 0), Marked(i, 1)], i.stores, i.ready)
  }

  function ToCoalescer(s: Path, i: Outside): CoalescerInput
    requires OutsideShaped(i) && Fits(s.a, ToAdapter(s, i))
  {
    var x := ToAdapter(s, i);
    CoalescerInput(NewlySent(x), i.request, BatchLeaves(s.a, x), PackedReply(s.a, x), i.ready)
  }

  /** The checks both components make on this edge. */
  predicate Passes(s: Path, i: Outside)
    requires OutsideShaped(i)
  {
    && Fits(s.a, ToAdapter(s, i)) && AdapterFollows(s.a, ToAdapter(s, i))
    && SlotsFit(s.c) && InputFits(ToCoalescer(s, i)) && Follows(s.c, ToCoalescer(s, i))
  }

  function PathNext(s: Path, i: Outside): Path
    requires OutsideShaped(i) && Passes(s, i)
  {
    Path(Next(s.c, ToCoalescer(s, i)), AdapterNext(s.a, ToAdapter(s, i)))
  }

  // -------------------------------------------------------------------- the other parties

  /** The cache: it takes only words on offer, answers only words it took, once, and holds a stalled answer. */
  predicate CacheKeeps(s: Path, i: Outside)
    requires OutsideShaped(i) && |s.a.heldReads| == 2
  {
    && (forall p | 0 <= p < 2 && i.accepted[p] :: Offers(s.a, ToAdapter(s, i), p))
    && (forall p | 0 <= p < 2 && i.replies[p].Some? :: ReadOk(s.a, p, i.replies[p].value))
    && (forall p | 0 <= p < 2 && s.a.heldReads[p].Some? ::
          i.replies[p].Some? && s.a.heldReads[p].value == i.replies[p].value.(delivered := false))
    && (forall k | 0 <= k < |i.stores| :: ReceiptOk(s.a, i.stores[k])) && ReceiptsApart(i.stores)
  }

  /** The split: it holds its request until it is taken, and never reuses a transaction. */
  predicate SplitKeeps(s: Path, i: Outside)
    requires OutsideShaped(i)
  {
    (s.c.held.Some? ==> i.request == s.c.held) && (i.request.Some? ==> OfferOk(s.c, i.request.value))
  }

  /** No counter has run out. */
  predicate CountersLeft(s: Path) {
    && (s.c.output.Some? ==> s.a.sequence < LAST_SEQUENCE)
    && (Allocates(s.c) && s.c.acquire < |s.c.slots| ==> s.c.slots[s.c.acquire].generation < LAST_GENERATION)
  }

  predicate OutsideKeeps(s: Path, i: Outside) {
    OutsideShaped(i) && |s.a.heldReads| == 2 && CacheKeeps(s, i) && SplitKeeps(s, i) && CountersLeft(s)
  }

  // ------------------------------------------------------------------------ the invariant

  /** A load's slot as the adapter sees the batch: the ports it left by and the ports still to answer. */
  predicate SlotLinked(c: CoalescerState, o: Offered, sent: Channels, done: Channels) {
    && o.id.slot < |c.slots|
    && var s := c.slots[o.id.slot];
       && s.valid && s.generation == o.id.generation && s.lanes == o.batch.lanes
       && s.request.id == o.owner && s.request.tag == o.tag
       && s.sent == sent && s.remaining == ChannelsOf(o.batch) - done
  }

  function DoneSoFar(a: Adapter): Channels {
    if a.sequence in a.records then a.records[a.sequence].done else {}
  }

  predicate OutputLinked(c: CoalescerState, a: Adapter) {
    && (a.held.Some? ==> c.output == a.held)
    && (c.output.Some? ==>
          && |c.output.value.batch.words| == 2 && BatchOk(c.output.value.batch)
          && (!c.output.value.write ==> SlotLinked(c, c.output.value, a.delivered, DoneSoFar(a))))
  }

  predicate RecordLinked(c: CoalescerState, a: Adapter, id: nat)
    requires id in a.records
  {
    var rec := a.records[id];
    !rec.batch.write ==>
      && SlotLinked(c, rec.batch, rec.sent, rec.done)
      && (id != a.sequence && c.output.Some? && !c.output.value.write ==> rec.batch.id.slot != c.output.value.id.slot)
  }

  /** Two loads in flight have different slots. */
  predicate LoadsApart(a: Adapter) {
    forall x, y | x in a.records && y in a.records && !a.records[x].batch.write && !a.records[y].batch.write && x != y ::
      a.records[x].batch.id.slot != a.records[y].batch.id.slot
  }

  /** A stalled batch reply is still shown by the ports it was packed from. */
  predicate Shows(a: Adapter, r: BatchReply, id: nat) {
    && id in a.records && !a.records[id].batch.write && a.records[id].batch.id == r.id && r.mask != {}
    && |r.words| == 2 && |r.failed| == 2 && |a.heldReads| == 2
    && forall g | g in r.mask :: g < 2 && a.heldReads[g] == Some(WordReply(id, r.words[g], r.failed[g], false))
  }

  ghost predicate ReplyLinked(c: CoalescerState, a: Adapter) {
    c.heldReply.Some? ==> exists id :: Shows(a, c.heldReply.value, id)
  }

  ghost predicate Linked(s: Path) {
    && OutputLinked(s.c, s.a) && (forall id | id in s.a.records :: RecordLinked(s.c, s.a, id))
    && LoadsApart(s.a) && ReplyLinked(s.c, s.a)
  }

  /** Both ledgers hold, and the two states agree about the loads in flight. */
  ghost predicate Kept(s: Path, t: CoalescerLedger.Trail, w: GlobalAdapterLedger.Wire) {
    CoalescerLedger.Kept(s.c, t) && GlobalAdapterLedger.Kept(s.a, w) && Linked(s)
  }

  // -------------------------------------------------------------------------- the checks

  lemma MarksPick(s: Path, i: Outside)
    requires OutsideShaped(i)
    ensures var x := ToAdapter(s, i);
            && (forall p | 0 <= p < 2 :: Packed(x, p) == Picks(i, p))
            && (Selected(x).None? <==> i.replies[0].None? && i.replies[1].None?)
  {
  }

  /** The adapter accepts the batch the coalescer offers, and everything the cache brings. */
  lemma AdapterPasses(s: Path, i: Outside)
    requires Linked(s) && OutsideKeeps(s, i)
    ensures Fits(s.a, ToAdapter(s, i)) && AdapterFollows(s.a, ToAdapter(s, i))
  {
    hide BatchOk, ReadOk, ReceiptOk, ReceiptsApart, RecordLinked, LoadsApart, ReplyLinked, SplitKeeps, Offers, SlotLinked;
    MarksPick(s, i);
    var x := ToAdapter(s, i);
    forall p | 0 <= p < 2 ensures HandshakeOk(s.a, x, p) {
      if i.replies[p].Some? {
        SameRead(s.a, p, i.replies[p].value, x.replies[p].value);
      }
    }
  }

  lemma SameRead(a: Adapter, p: nat, r: WordReply, q: WordReply)
    requires ReadOk(a, p, r) && q.transaction == r.transaction
    ensures ReadOk(a, p, q)
  {
  }

  /** The record behind the packed reply: a load in flight, answered by ports it left by. */
  lemma PackedFrom(s: Path, i: Outside) returns (id: nat)
    requires OutsideKeeps(s, i) && (i.replies[0].Some? || i.replies[1].Some?)
    ensures var x := ToAdapter(s, i);
            && Selected(x) == Some(id) && id in s.a.records && !s.a.records[id].batch.write
            && PackedReply(s.a, x).Some?
            && var r := PackedReply(s.a, x).value;
               && r.id == s.a.records[id].batch.id && r.mask != {} && ReplyShaped(r)
               && (forall p | p in r.mask :: p < 2 && p in s.a.records[id].sent && p !in s.a.records[id].done)
               && (forall p | 0 <= p < 2 :: p in r.mask <==> Picks(i, p))
               && (forall p | 0 <= p < 2 && Picks(i, p) ::
                     i.replies[p].value.transaction == id && r.words[p] == i.replies[p].value.data && r.failed[p] == i.replies[p].value.failed)
  {
    hide ReceiptOk, ReceiptsApart, SplitKeeps, Offers, CountersLeft;
    MarksPick(s, i);
    var x := ToAdapter(s, i);
    id := Selected(x).value;
    var p := if i.replies[0].Some? then 0 else 1;
    assert ReadOk(s.a, p, i.replies[p].value);
    var r := PackedReply(s.a, x).value;
    assert Packed(x, p) && p in r.mask;
    forall q | q in r.mask ensures q < 2 && q in s.a.records[id].sent && q !in s.a.records[id].done {
      assert ReadOk(s.a, q, i.replies[q].value);
    }
    forall q | 0 <= q < 2 ensures |r.words[q]| == WORD_BYTES {
      assert r.words[q] == PackedWord(x, q);
    }
  }

  /** The coalescer knows the batch of every packed reply, and still waits for its ports. */
  lemma ReplyPasses(s: Path, i: Outside)
    requires Linked(s) && OutsideKeeps(s, i)
    requires forall id | id in s.a.records :: s.a.records[id].sent <= ChannelsOf(s.a.records[id].batch.batch)
    ensures var r := PackedReply(s.a, ToAdapter(s, i));
            r.Some? ==> ReplyShaped(r.value) && ReplyOk(s.c, r.value)
  {
    hide OutputLinked, LoadsApart, ReplyLinked, ReplyShaped, PackedReply, CacheKeeps, SplitKeeps, CountersLeft, ToAdapter;
    if PackedReply(s.a, ToAdapter(s, i)).Some? {
      NothingPacked(s, i);
      var id := PackedFrom(s, i);
      assert RecordLinked(s.c, s.a, id);
    }
  }

  lemma NothingPacked(s: Path, i: Outside)
    requires OutsideShaped(i)
    ensures i.replies[0].None? && i.replies[1].None? ==> PackedReply(s.a, ToAdapter(s, i)).None?
  {
  }

  /** A stalled batch reply stays, and keeps its words while it is the same batch's. */
  lemma ReplyStays(s: Path, i: Outside)
    requires Linked(s) && OutsideKeeps(s, i)
    ensures ReplyHeld(s.c.heldReply, PackedReply(s.a, ToAdapter(s, i)))
  {
    hide OutputLinked, RecordLinked, PackedReply, SplitKeeps, CountersLeft, ReadOk, ReceiptOk, ReceiptsApart, Offers, ToAdapter;
    if s.c.heldReply.Some? {
      var before := s.c.heldReply.value;
      var was :| Shows(s.a, before, was);
      var g :| g in before.mask;
      assert s.a.heldReads[g].Some? && i.replies[g].Some?;
      var id := PackedFrom(s, i);
      var now := PackedReply(s.a, ToAdapter(s, i)).value;
      if before.id == now.id {
        assert was == id;
        forall p | p in before.mask ensures p in now.mask && before.words[p] == now.words[p] && before.failed[p] == now.failed[p] {
          assert s.a.heldReads[p] == Some(WordReply(id, before.words[p], before.failed[p], false));
          PickedBy(s, i, id, p);
        }
      }
    }
  }

  lemma PickedBy(s: Path, i: Outside, id: nat, p: nat)
    requires OutsideShaped(i) && Selected(ToAdapter(s, i)) == Some(id) && p < 2 && i.replies[p].Some? && i.replies[p].value.transaction == id
    ensures Picks(i, p)
  {
  }

  /** The words accepted are the offered batch's, and none of them left before. */
  lemma AcceptedPasses(s: Path, i: Outside)
    requires Linked(s) && OutsideKeeps(s, i) && SlotsFit(s.c)
    ensures AcceptedOk(s.c, NewlySent(ToAdapter(s, i)))
  {
    hide BatchOk, ReadOk, ReceiptOk, ReceiptsApart, RecordLinked, LoadsApart, ReplyLinked, SplitKeeps, ChannelsOf;
    assert i.accepted[0] ==> Offers(s.a, ToAdapter(s, i), 0);
    assert i.accepted[1] ==> Offers(s.a, ToAdapter(s, i), 1);
  }

  lemma SendPasses(s: Path, t: CoalescerLedger.Trail)
    requires CoalescerLedger.Kept(s.c, t) && CountersLeft(s)
    ensures SlotsFit(s.c) && SendOk(s.c)
  {
    hide CoalescerLedger.SlotsKept, CoalescerLedger.GrantsKept, CoalescerLedger.OutputKept;
  }

  lemma SentWithin(a: Adapter, w: GlobalAdapterLedger.Wire)
    requires GlobalAdapterLedger.Kept(a, w)
    ensures |a.heldReads| == 2 && forall id | id in a.records :: a.records[id].sent <= ChannelsOf(a.records[id].batch.batch)
  {
    forall id | id in a.records ensures a.records[id].sent <= ChannelsOf(a.records[id].batch.batch) {
      assert GlobalAdapterLedger.RecordKept(a, w, id);
    }
  }

  /** Neither component refuses what the other hands it. */
  lemma PathPasses(s: Path, t: CoalescerLedger.Trail, w: GlobalAdapterLedger.Wire, i: Outside)
    requires Kept(s, t, w) && OutsideKeeps(s, i)
    ensures Passes(s, i)
  {
    hide Linked, AdapterFollows, CoalescerLedger.Kept, GlobalAdapterLedger.Kept, CacheKeeps, CountersLeft, PackedReply, NewlySent, ReplyHeld,
         ReplyOk, AcceptedOk, SendOk, BatchLeaves, OfferOk, ReplyShaped;
    AdapterPasses(s, i);
    SentWithin(s.a, w);
    SendPasses(s, t);
    ReplyPasses(s, i);
    ReplyStays(s, i);
    AcceptedPasses(s, i);
  }

  // --------------------------------------------------------------------------- the edge

  /** A slot that is not granted in this edge: credited by its reply, then sent further. */
  lemma SlotAfter(c: CoalescerState, y: CoalescerInput, k: nat)
    requires SlotsFit(c) && InputFits(y) && Follows(c, y) && k < |c.slots| && !(Allocates(c) && k == c.acquire)
    ensures var s := if Credits(c, y) && y.reply.value.id.slot == k then Credited(c.slots[k], y.reply.value.mask) else c.slots[k];
            SlotsAfter(c, y)[k] ==
            if c.output.Some? && !c.output.value.write && c.output.value.id.slot == k then
              s.(sent := if y.outputReady then ChannelsOf(c.output.value.batch) else s.sent + y.accepted)
            else s
  {
    hide OfferOk, ReplyHeld, AcceptedOk, ChannelsOf, ReplyOk;
  }

  /** The ports of a transaction that this edge's reply answers. */
  function AnsweredNow(s: Path, i: Outside, id: nat): Channels
    requires OutsideShaped(i)
  {
    set p | 0 <= p < 2 && i.ready && Picks(i, p) && i.replies[p].value.transaction == id
  }

  /** A load's record is answered exactly by the packed reply. */
  lemma DoneAfter(s: Path, i: Outside, id: nat)
    requires OutsideKeeps(s, i) && Fits(s.a, ToAdapter(s, i)) && id in s.a.records && !s.a.records[id].batch.write
    ensures Answered(s.a, ToAdapter(s, i), id).done == s.a.records[id].done + AnsweredNow(s, i, id)
  {
    hide ReadOk, ReceiptsApart, SplitKeeps, CountersLeft, Offers;
    var x := ToAdapter(s, i);
    assert StoresDone(x.stores, id) == {} by {
      forall k | 0 <= k < |i.stores| ensures i.stores[k].transaction != id {
        assert ReceiptOk(s.a, i.stores[k]);
      }
    }
    assert ReadsDone(x, id) == AnsweredNow(s, i, id);
  }

  /** The coalescer credits a load's slot with exactly the ports the adapter marks done. */
  lemma CreditedNow(s: Path, i: Outside, id: nat)
    requires Linked(s) && OutsideKeeps(s, i) && Passes(s, i) && id in s.a.records && !s.a.records[id].batch.write
    ensures var y := ToCoalescer(s, i);
            AnsweredNow(s, i, id) ==
            if Credits(s.c, y) && y.reply.value.id.slot == s.a.records[id].batch.id.slot then y.reply.value.mask else {}
  {
    hide OutputLinked, RecordLinked, ReplyLinked, CacheKeeps, SplitKeeps, CountersLeft, AdapterFollows, Follows, PackedReply, ReplyShaped, ToAdapter;
    var y := ToCoalescer(s, i);
    NothingPacked(s, i);
    if i.replies[0].Some? || i.replies[1].Some? {
      var now := PackedFrom(s, i);
      forall p | 0 <= p < 2 && Picks(i, p) ensures i.replies[p].value.transaction == now {
      }
      if now == id {
        assert forall p | p in y.reply.value.mask :: p < 2 && Picks(i, p);
        assert i.ready ==> AnsweredNow(s, i, id) == y.reply.value.mask;
      } else {
        assert s.a.records[now].batch.id.slot != s.a.records[id].batch.id.slot;
        assert AnsweredNow(s, i, id) == {};
      }
    } else {
      assert AnsweredNow(s, i, id) == {};
    }
  }

  /** A load that is all sent keeps its slot until its last answer. */
  lemma OlderLinked(s: Path, t: CoalescerLedger.Trail, w: GlobalAdapterLedger.Wire, i: Outside, id: nat)
    requires Kept(s, t, w) && OutsideKeeps(s, i) && Passes(s, i)
    requires id in PathNext(s, i).a.records && id != s.a.sequence
    ensures RecordLinked(PathNext(s, i).c, PathNext(s, i).a, id)
    ensures id in s.a.records && PathNext(s, i).a.records[id].batch == s.a.records[id].batch
  {
    hide BatchOk, LoadsApart, ReplyLinked, CacheKeeps, SplitKeeps, CountersLeft, AdapterFollows, PackedReply, ReplyShaped, ToAdapter,
         CoalescerLedger.SlotsKept, CoalescerLedger.GrantsKept, CoalescerLedger.OutputKept, CoalescerLedger.HeldKept, ChannelsOf,
         AnsweredNow, AcquireAfter, SlotsAfter, Finishes, Prepares, OfferOk, ReplyHeld, AcceptedOk;
    var x, y, n := ToAdapter(s, i), ToCoalescer(s, i), PathNext(s, i);
    OlderRecord(s, w, i, id);
    var rec := s.a.records[id];
    if !rec.batch.write {
      assert RecordLinked(s.c, s.a, id);
      var k := rec.batch.id.slot;
      FreeIsFree(s.c, t);
      SlotAfter(s.c, y, k);
      DoneAfter(s, i, id);
      CreditedNow(s, i, id);
      StillWaits(ChannelsOf(rec.batch.batch), rec.done, AnsweredNow(s, i, id));
    }
  }

  lemma StillWaits(channels: Channels, done: Channels, more: Channels)
    ensures channels - done - more == channels - (done + more)
    ensures done + more <= channels && done + more != channels ==> channels - (done + more) != {}
  {
    assert channels - (done + more) == {} ==> channels <= done + more by {
      assert forall p | p in channels :: p in channels - (done + more) || p in done + more;
    }
  }

  lemma FreeIsFree(c: CoalescerState, t: CoalescerLedger.Trail)
    requires CoalescerLedger.Kept(c, t)
    ensures SlotsFit(c) && (c.send ==> !c.slots[c.acquire].valid && c.output.None? && c.held.Some?)
  {
    hide CoalescerLedger.SlotsKept, CoalescerLedger.GrantsKept, CoalescerLedger.OutputKept;
  }

  lemma OlderRecord(s: Path, w: GlobalAdapterLedger.Wire, i: Outside, id: nat)
    requires GlobalAdapterLedger.Kept(s.a, w) && OutsideShaped(i) && Fits(s.a, ToAdapter(s, i)) && AdapterFollows(s.a, ToAdapter(s, i))
    requires id in AdapterNext(s.a, ToAdapter(s, i)).records && id != s.a.sequence
    ensures id in s.a.records && s.a.records[id].sent == ChannelsOf(s.a.records[id].batch.batch)
    ensures var rec := AdapterNext(s.a, ToAdapter(s, i)).records[id];
            && rec == Answered(s.a, ToAdapter(s, i), id) && rec.done != ChannelsOf(rec.batch.batch) && rec.done <= ChannelsOf(rec.batch.batch)
  {
    hide AdapterFollows, GlobalAdapterLedger.HeldKept, GlobalAdapterLedger.PastKept, ToAdapter, ChannelsOf;
    GlobalAdapterLedger.OlderRecord(s.a, w, ToAdapter(s, i), id);
    assert GlobalAdapterLedger.RecordKept(s.a, w, id);
  }

  // ----------------------------------------------------------------- the batch on offer

  /** The batch on offer has no answer yet unless some of its words have left. */
  lemma NotCredited(s: Path, i: Outside)
    requires Linked(s) && OutsideKeeps(s, i) && Passes(s, i)
    requires s.c.output.Some? && !s.c.output.value.write && s.a.sequence !in s.a.records
    ensures var y := ToCoalescer(s, i);
            Credits(s.c, y) ==> y.reply.value.id.slot != s.c.output.value.id.slot
  {
    hide OutputLinked, LoadsApart, ReplyLinked, CacheKeeps, SplitKeeps, CountersLeft, AdapterFollows, Follows, PackedReply, ReplyShaped, ToAdapter, SlotLinked;
    NothingPacked(s, i);
    if i.replies[0].Some? || i.replies[1].Some? {
      var now := PackedFrom(s, i);
      assert RecordLinked(s.c, s.a, now);
    }
  }

  /** The offered batch's record after the edge. */
  lemma OfferedRecord(s: Path, w: GlobalAdapterLedger.Wire, i: Outside)
    requires GlobalAdapterLedger.Kept(s.a, w) && Linked(s) && OutsideShaped(i) && s.c.output.Some?
    requires Fits(s.a, ToAdapter(s, i)) && AdapterFollows(s.a, ToAdapter(s, i))
    ensures var x, n, channels := ToAdapter(s, i), AdapterNext(s.a, ToAdapter(s, i)), ChannelsOf(s.c.output.value.batch);
            && s.a.delivered + NewlySent(x) <= channels
            && (BatchLeaves(s.a, x) <==> s.a.delivered + NewlySent(x) == channels)
            && (s.a.sequence in s.a.records ==> s.a.records[s.a.sequence].batch == s.c.output.value)
            && (s.a.sequence in n.records ==>
                  && n.records[s.a.sequence].batch == s.c.output.value && n.records[s.a.sequence].sent == s.a.delivered + NewlySent(x)
                  && n.records[s.a.sequence].done <= s.a.delivered + NewlySent(x) && n.records[s.a.sequence].done != channels
                  && n.records[s.a.sequence].done ==
                     if s.a.sequence in s.a.records then Answered(s.a, x, s.a.sequence).done else {})
            && (s.a.sequence !in n.records && !BatchLeaves(s.a, x) ==>
                  s.a.sequence !in s.a.records && s.a.delivered + NewlySent(x) == {})
  {
    hide AdapterFollows, GlobalAdapterLedger.PastKept, ChannelsOf, BatchOk, OutputLinked, RecordLinked, LoadsApart, ReplyLinked, NewlySent,
         GlobalAdapterLedger.RecordKept, GlobalAdapterLedger.HeldKept, Answered;
    var x := ToAdapter(s, i);
    GlobalAdapterLedger.SentNow(s.a, w, x);
    if s.a.sequence in RecordsAfter(s.a, x) {
      GlobalAdapterLedger.OfferedRecord(s.a, w, x);
    }
  }

  /** What the coalescer keeps of the offered load agrees with what the adapter keeps of it. */
  lemma OfferedLinked(s: Path, t: CoalescerLedger.Trail, w: GlobalAdapterLedger.Wire, i: Outside)
    requires Kept(s, t, w) && OutsideKeeps(s, i) && Passes(s, i) && s.c.output.Some? && !s.c.output.value.write
    ensures var x, n, o := ToAdapter(s, i), PathNext(s, i), s.c.output.value;
            && (s.a.sequence in n.a.records ==> SlotLinked(n.c, o, s.a.delivered + NewlySent(x), n.a.records[s.a.sequence].done))
            && (!BatchLeaves(s.a, x) && s.a.sequence !in n.a.records ==> SlotLinked(n.c, o, s.a.delivered + NewlySent(x), {}))
  {
    hide BatchOk, LoadsApart, ReplyLinked, CacheKeeps, SplitKeeps, CountersLeft, AdapterFollows, PackedReply, ReplyShaped, ToAdapter,
         CoalescerLedger.SlotsKept, CoalescerLedger.GrantsKept, CoalescerLedger.OutputKept, CoalescerLedger.HeldKept, ChannelsOf,
         AnsweredNow, AcquireAfter, SlotsAfter, Finishes, Prepares, OfferOk, ReplyHeld, AcceptedOk, AdapterNext, Answered, NewlySent,
         BatchLeaves, GlobalAdapterLedger.Kept;
    var y, o := ToCoalescer(s, i), s.c.output.value;
    FreeIsFree(s.c, t);
    SlotAfter(s.c, y, o.id.slot);
    OfferedRecord(s, w, i);
    if s.a.sequence in s.a.records {
      assert RecordLinked(s.c, s.a, s.a.sequence);
      DoneAfter(s, i, s.a.sequence);
      CreditedNow(s, i, s.a.sequence);
      StillWaits(ChannelsOf(o.batch), s.a.records[s.a.sequence].done, AnsweredNow(s, i, s.a.sequence));
    } else {
      NotCredited(s, i);
    }
  }

  lemma BatchFits(r: Simd, remaining: Lanes)
    requires Shaped(r) && Aligned(r) && r.mask * remaining != {}
    ensures |MakeBatch(r, remaining).words| == 2 && BatchOk(MakeBatch(r, remaining))
  {
    CoalescerLedger.BatchUses(r, remaining);
    var b := MakeBatch(r, remaining);
    forall p | 0 <= p < 2 ensures b.words[p].Some? == (PortLanes(b, p) != {}) {
      if b.words[p].Some? {
        var seed := Seed(r, remaining, p).value;
        assert seed in GroupLanes(r, remaining, p) && seed in PortLanes(b, p);
      } else {
        assert GroupLanes(r, remaining, p) == {};
        assert PortLanes(b, p) == {};
      }
    }
    var g :| g in ChannelsOf(b);
    assert PortLanes(b, g) != {};
  }

  /** A batch just sent has its slot to itself. */
  lemma SentLinked(s: Path, t: CoalescerLedger.Trail, w: GlobalAdapterLedger.Wire, i: Outside)
    requires Kept(s, t, w) && OutsideKeeps(s, i) && Passes(s, i) && s.c.send
    ensures OutputLinked(PathNext(s, i).c, PathNext(s, i).a)
  {
    hide LoadsApart, ReplyLinked, CacheKeeps, SplitKeeps, CountersLeft, AdapterFollows, PackedReply, ReplyShaped,
         CoalescerLedger.SlotsKept, CoalescerLedger.GrantsKept, CoalescerLedger.OutputKept, ChannelsOf,
         AcquireAfter, Finishes, Prepares, OfferOk, ReplyHeld, AcceptedOk, Answered, BatchOk, MakeBatch, Batches;
    FreeIsFree(s.c, t);
    BatchFits(s.c.held.value.simd, s.c.remaining);
    QuietAdapter(s, w, i);
  }

  lemma QuietAdapter(s: Path, w: GlobalAdapterLedger.Wire, i: Outside)
    requires GlobalAdapterLedger.Kept(s.a, w) && OutputLinked(s.c, s.a) && s.c.output.None? && OutsideShaped(i)
    requires Fits(s.a, ToAdapter(s, i)) && AdapterFollows(s.a, ToAdapter(s, i))
    ensures var n := AdapterNext(s.a, ToAdapter(s, i));
            n.held.None? && n.delivered == {} && n.sequence == s.a.sequence && n.sequence !in n.records && s.a.sequence !in s.a.records
  {
    hide AdapterFollows, GlobalAdapterLedger.PastKept, GlobalAdapterLedger.RecordKept;
  }

  lemma OutputNext(s: Path, t: CoalescerLedger.Trail, w: GlobalAdapterLedger.Wire, i: Outside)
    requires Kept(s, t, w) && OutsideKeeps(s, i) && Passes(s, i)
    ensures OutputLinked(PathNext(s, i).c, PathNext(s, i).a)
  {
    hide LoadsApart, ReplyLinked, CacheKeeps, SplitKeeps, CountersLeft, AdapterFollows, PackedReply, ReplyShaped, RecordLinked,
         CoalescerLedger.SlotsKept, CoalescerLedger.GrantsKept, CoalescerLedger.OutputKept, CoalescerLedger.HeldKept, ChannelsOf,
         AcquireAfter, Finishes, Prepares, OfferOk, ReplyHeld, AcceptedOk, Answered, BatchOk, SlotsAfter, RecordsAfter, SlotLinked, NewlySent,
         BatchLeaves;
    FreeIsFree(s.c, t);
    if s.c.send {
      SentLinked(s, t, w, i);
    } else if s.c.output.None? {
      QuietAdapter(s, w, i);
    } else if !BatchLeaves(s.a, ToAdapter(s, i)) && !s.c.output.value.write {
      OfferedLinked(s, t, w, i);
    }
  }

  // ------------------------------------------------------------------------- the theorem

  lemma RecordNext(s: Path, t: CoalescerLedger.Trail, w: GlobalAdapterLedger.Wire, i: Outside, id: nat)
    requires Kept(s, t, w) && OutsideKeeps(s, i) && Passes(s, i) && id in PathNext(s, i).a.records
    ensures RecordLinked(PathNext(s, i).c, PathNext(s, i).a, id)
    ensures id != s.a.sequence ==> id in s.a.records && PathNext(s, i).a.records[id].batch == s.a.records[id].batch
    ensures id == s.a.sequence ==> Some(PathNext(s, i).a.records[id].batch) == s.c.output
  {
    hide LoadsApart, ReplyLinked, CacheKeeps, SplitKeeps, CountersLeft, AdapterFollows, PackedReply, ReplyShaped,
         CoalescerLedger.SlotsKept, CoalescerLedger.GrantsKept, CoalescerLedger.OutputKept, CoalescerLedger.HeldKept, ChannelsOf,
         AcquireAfter, Finishes, Prepares, OfferOk, ReplyHeld, AcceptedOk, Answered, BatchOk, SlotsAfter, RecordsAfter, SlotLinked, NewlySent,
         BatchLeaves;
    FreeIsFree(s.c, t);
    if id != s.a.sequence {
      OlderLinked(s, t, w, i, id);
    } else if s.c.output.None? {
      QuietAdapter(s, w, i);
    } else {
      OfferedRecord(s, w, i);
      if !s.c.output.value.write {
        OfferedLinked(s, t, w, i);
      }
    }
  }

  lemma ApartNext(s: Path, t: CoalescerLedger.Trail, w: GlobalAdapterLedger.Wire, i: Outside)
    requires Kept(s, t, w) && OutsideKeeps(s, i) && Passes(s, i)
    ensures LoadsApart(PathNext(s, i).a)
  {
    hide Passes, CacheKeeps, SplitKeeps, CountersLeft, PathNext, OutputLinked, ReplyLinked, SlotLinked, CoalescerLedger.Kept, GlobalAdapterLedger.Kept;
    var r := PathNext(s, i).a.records;
    forall x, y | x in r && y in r && !r[x].batch.write && !r[y].batch.write && x != y ensures r[x].batch.id.slot != r[y].batch.id.slot {
      RecordNext(s, t, w, i, x);
      RecordNext(s, t, w, i, y);
      assert x != s.a.sequence ==> RecordLinked(s.c, s.a, x);
      assert y != s.a.sequence ==> RecordLinked(s.c, s.a, y);
    }
  }

  lemma ReplyNext(s: Path, t: CoalescerLedger.Trail, w: GlobalAdapterLedger.Wire, i: Outside)
    requires Kept(s, t, w) && OutsideKeeps(s, i) && Passes(s, i)
    ensures ReplyLinked(PathNext(s, i).c, PathNext(s, i).a)
  {
    hide LoadsApart, CacheKeeps, SplitKeeps, CountersLeft, AdapterFollows, PackedReply, OutputLinked, RecordLinked,
         CoalescerLedger.Kept, GlobalAdapterLedger.Kept, ChannelsOf, AcquireAfter, Finishes, Prepares, OfferOk, ReplyHeld, AcceptedOk,
         Answered, BatchOk, SlotsAfter, RecordsAfter, NewlySent, BatchLeaves;
    var n := PathNext(s, i);
    NothingPacked(s, i);
    if n.c.heldReply.Some? {
      var id := PackedFrom(s, i);
      StallKeeps(s, w, i, id);
      assert Shows(n.a, n.c.heldReply.value, id);
    }
  }

  /** The record of a stalled reply stays. */
  lemma StallKeeps(s: Path, w: GlobalAdapterLedger.Wire, i: Outside, id: nat)
    requires GlobalAdapterLedger.Kept(s.a, w) && OutsideKeeps(s, i) && Fits(s.a, ToAdapter(s, i)) && !i.ready
    requires id in s.a.records && !s.a.records[id].batch.write
    requires exists p :: p in s.a.records[id].sent && p !in s.a.records[id].done
    ensures var n := AdapterNext(s.a, ToAdapter(s, i)); id in n.records && n.records[id].batch == s.a.records[id].batch
  {
    hide GlobalAdapterLedger.PastKept, CacheKeeps, SplitKeeps, CountersLeft, BatchOk, NewlySent, BatchLeaves, ReadsDone, StoresDone, Picks;
    DoneAfter(s, i, id);
    assert AnsweredNow(s, i, id) == {};
    assert GlobalAdapterLedger.RecordKept(s.a, w, id);
    var p :| p in s.a.records[id].sent && p !in s.a.records[id].done;
    assert p in ChannelsOf(s.a.records[id].batch.batch);
  }

  /** An edge of the connected pair: every check passes, both ledgers and the agreement are kept. */
  lemma PathKeeps(s: Path, t: CoalescerLedger.Trail, w: GlobalAdapterLedger.Wire, i: Outside)
    requires Kept(s, t, w) && OutsideKeeps(s, i)
    ensures Passes(s, i)
    ensures Kept(PathNext(s, i), CoalescerLedger.Trailed(s.c, t, ToCoalescer(s, i)), GlobalAdapterLedger.Wired(s.a, w, ToAdapter(s, i)))
  {
    hide OutputLinked, RecordLinked, LoadsApart, ReplyLinked, CoalescerLedger.Kept, GlobalAdapterLedger.Kept, AdapterFollows, Follows,
         CoalescerLedger.Trailed, GlobalAdapterLedger.Wired, CacheKeeps, SplitKeeps, CountersLeft, ToCoalescer, Next, AdapterNext;
    PathPasses(s, t, w, i);
    CoalescerLedger.StepKeeps(s.c, t, ToCoalescer(s, i));
    GlobalAdapterLedger.StepKeeps(s.a, w, ToAdapter(s, i));
    OutputNext(s, t, w, i);
    ApartNext(s, t, w, i);
    ReplyNext(s, t, w, i);
    forall id | id in PathNext(s, i).a.records ensures RecordLinked(PathNext(s, i).c, PathNext(s, i).a, id) {
      RecordNext(s, t, w, i, id);
    }
  }

  // -------------------------------------------------------------------------------- runs

  /** A run of the connected pair; after a refused edge anything may follow. */
  ghost predicate IsRun(states: seq<Path>, outside: seq<Outside>) {
    && |states| == |outside| + 1
    && CoalescerLedger.IsIdle(states[0].c) && states[0].c.heldReply.None? && states[0].a == IDLE
    && forall k | 0 <= k < |outside| ::
         OutsideKeeps(states[k], outside[k]) && (Passes(states[k], outside[k]) ==> states[k + 1] == PathNext(states[k], outside[k]))
  }

  lemma PathStarts(s: Path)
    requires CoalescerLedger.IsIdle(s.c) && s.c.heldReply.None? && s.a == IDLE
    ensures Kept(s, CoalescerLedger.Trail(map[], [], []), GlobalAdapterLedger.Wire(map[], {}))
  {
    CoalescerLedger.Starts(s.c);
    GlobalAdapterLedger.Starts();
  }

  /** What both components have kept and recorded after `k` edges. */
  lemma {:induction false} RunKept(states: seq<Path>, outside: seq<Outside>, k: nat)
    returns (t: CoalescerLedger.Trail, w: GlobalAdapterLedger.Wire)
    requires IsRun(states, outside) && k <= |outside|
    ensures Kept(states[k], t, w) && forall j | 0 <= j < k :: Passes(states[j], outside[j])
  {
    hide Kept, PathNext, CacheKeeps, SplitKeeps, CountersLeft, AdapterFollows, Follows, CoalescerLedger.IsIdle, ToAdapter, ToCoalescer;
    if k == 0 {
      PathStarts(states[0]);
      t, w := CoalescerLedger.Trail(map[], [], []), GlobalAdapterLedger.Wire(map[], {});
    } else {
      t, w := RunKept(states, outside, k - 1);
      var s, i := states[k - 1], outside[k - 1];
      PathKeeps(s, t, w, i);
      t, w := CoalescerLedger.Trailed(s.c, t, ToCoalescer(s, i)), GlobalAdapterLedger.Wired(s.a, w, ToAdapter(s, i));
    }
  }

  /**
   In every run no check of either component fails, so a run of the pair is a run of the
   adapter and a run of the coalescer, and everything proved of their runs holds of it.
   */
  lemma PairRuns(states: seq<Path>, outside: seq<Outside>)
    returns (adapters: seq<Adapter>, words: seq<AdapterInput>, coalescers: seq<CoalescerState>, batches: seq<CoalescerInput>)
    requires IsRun(states, outside)
    ensures |adapters| == |states| && |words| == |outside| && |coalescers| == |states| && |batches| == |outside|
    ensures forall k | 0 <= k < |states| :: adapters[k] == states[k].a && coalescers[k] == states[k].c
    ensures forall k | 0 <= k < |outside| ::
              Passes(states[k], outside[k]) && words[k] == ToAdapter(states[k], outside[k]) && batches[k] == ToCoalescer(states[k], outside[k])
    ensures GlobalAdapterLedger.IsRun(adapters, words) && CoalescerLedger.IsRun(coalescers, batches)
  {
    hide AdapterFollows, Follows, Next, AdapterNext, CoalescerLedger.IsIdle, CacheKeeps, SplitKeeps, CountersLeft, Linked, ToAdapter, ToCoalescer;
    var t, w := RunKept(states, outside, |outside|);
    assert forall k | 0 <= k < |outside| :: Passes(states[k], outside[k]) && OutsideKeeps(states[k], outside[k]);
    adapters := seq(|states|, k requires 0 <= k < |states| => states[k].a);
    coalescers := seq(|states|, k requires 0 <= k < |states| => states[k].c);
    words := seq(|outside|, k requires 0 <= k < |outside| => ToAdapter(states[k], outside[k]));
    batches := seq(|outside|, k requires 0 <= k < |outside| => ToCoalescer(states[k], outside[k]));
  }

  /**
   A reply reaches the lanes its words left with: the lanes the coalescer answers are those that
   the answered ports of the selected wire transaction's own batch carry, under that batch's name.
   */
  lemma AnswersReachTheirLanes(states: seq<Path>, outside: seq<Outside>, k: nat)
    requires IsRun(states, outside) && k < |outside|
    ensures Passes(states[k], outside[k])
    ensures var s, x := states[k], ToAdapter(states[k], outside[k]);
            PackedReply(s.a, x).Some? ==>
              && Selected(x).Some? && Selected(x).value in s.a.records
              && var r, o := PackedReply(s.a, x).value, s.a.records[Selected(x).value].batch;
                 && o.id.slot < |s.c.slots| && r.id == o.id
                 && AnsweredBy(s.c.slots[o.id.slot], r) == set l | l in o.batch.lanes && exists p :: p in r.mask && l in PortLanes(o.batch, p)
  {
    hide AdapterFollows, Follows, Next, AdapterNext, CoalescerLedger.Kept, GlobalAdapterLedger.Kept, OutputLinked, LoadsApart, ReplyLinked,
         CacheKeeps, SplitKeeps, CountersLeft, ToAdapter, CoalescerLedger.IsIdle, PackedReply, PathNext;
    var t, w := RunKept(states, outside, k);
    var s, i := states[k], outside[k];
    PathKeeps(s, t, w, i);
    NothingPacked(s, i);
    if PackedReply(s.a, ToAdapter(s, i)).Some? {
      var id := PackedFrom(s, i);
      assert RecordLinked(s.c, s.a, id);
      var r, o := PackedReply(s.a, ToAdapter(s, i)).value, s.a.records[id].batch;
      forall l | l in o.batch.lanes ensures l / 2 in r.mask <==> exists p :: p in r.mask && l in PortLanes(o.batch, p) {
        assert l in PortLanes(o.batch, l / 2);
      }
    }
  }
}
