/** What the coalescer and the adapter hand to the split passes the split's checks, and the split's request passes theirs. */
module SplitPathChecks {
  import opened CacheTypes
  import opened Coalescing
  import opened Coalescers
  import opened GlobalAdapters
  import opened GlobalPath
  import opened PathFlights
  import opened SimdSplits
  import opened SplitPath
  import CoalescingOrder
  import CoalescerLedger
  import GlobalAdapterLedger
  import SimdSplitLedger

  /** The request the split offers is one the coalescer can take. */
  lemma InnerKeeps(s: System, i: Around)
    requires Joined(s) && AroundKeeps(s, i)
    ensures OutsideKeeps(s.path, Inner(s, i))
  {
    hide CacheKeeps, CountersLeft, LocalKeeps, UnitKeeps, FlightOk, FlightsApart, TablesOk, LastOk, StalledOk, CoalescingOrder.Accepts, InFlight;
  }

  lemma PathFits(s: System, t: CoalescerLedger.Trail, w: GlobalAdapterLedger.Wire, g: SimdSplitLedger.Log, i: Around)
    requires SplitPath.Kept(s, t, w, g) && AroundKeeps(s, i)
    ensures OutsideKeeps(s.path, Inner(s, i)) && Passes(s.path, Inner(s, i))
  {
    hide Joined, GlobalPath.Kept, AroundKeeps, OutsideKeeps, Passes, SimdSplitLedger.Kept;
    assert AroundShaped(i) && StateShaped(s.split) by { AroundFits(s, i); }
    InnerKeeps(s, i);
    PathKeeps(s.path, t, w, Inner(s, i));
  }

  lemma AroundFits(s: System, i: Around)
    requires AroundKeeps(s, i)
    ensures AroundShaped(i) && StateShaped(s.split)
  {
  }

  // -------------------------------------------------------------------------- progress

  /** The words sent in this edge, as progress of their request. */
  function Moved(s: System, i: Around): seq<LaneEvent>
    requires AroundShaped(i)
  {
    if s.path.c.output.None? || s.path.c.output.value.owner in s.released then []
    else
      (if i.accepted[0] then [WordEvent(s.path.c.output.value, 0)] else []) +
      (if i.accepted[1] then [WordEvent(s.path.c.output.value, 1)] else [])
  }

  /** A word leaving now: its lanes are of the offered batch, and new to the split's record. */
  lemma WordLeaves(s: System, w: GlobalAdapterLedger.Wire, i: Around, p: nat)
    requires Joined(s) && GlobalAdapterLedger.Kept(s.path.a, w) && OutputLinked(s.path.c, s.path.a) && AroundKeeps(s, i) && p < 2 && i.accepted[p]
    ensures InFlight(s.path, s.path.a.sequence) && s.path.c.output == Some(BatchOf(s.path, s.path.a.sequence))
    ensures var o := s.path.c.output.value;
            && FlightOk(s, s.path.a.sequence) && PortLanes(o.batch, p) != {}
            && (o.owner !in s.released ==> PortLanes(o.batch, p) !! s.split.records[o.owner].sent)
  {
    hide CountersLeft, LocalKeeps, UnitKeeps, FlightsApart, ChildOk, TablesOk, LastOk, StalledOk, ReadOk, ReceiptOk, ReceiptsApart,
         GlobalAdapterLedger.Kept;
    var id := s.path.a.sequence;
    assert Offers(s.path.a, ToAdapter(s.path, Inner(s, i)), p);
    OnOffer(s.path, w);
    assert FlightOk(s, id);
    var o := BatchOf(s.path, id);
    assert WordOk(s.split.records[o.owner], o.owner in s.released, PortLanes(o.batch, p), p in SentOf(s.path, id), p in DoneOf(s.path, id));
  }

  lemma PortsApart(b: Batch)
    ensures PortLanes(b, 0) !! PortLanes(b, 1) && forall p :: PortLanes(b, p) <= b.lanes
  {
  }

  /** The filter of progress events never removes a lane. */
  lemma FilterIdle(s: System, w: GlobalAdapterLedger.Wire, i: Around)
    requires Joined(s) && GlobalAdapterLedger.Kept(s.path.a, w) && OutputLinked(s.path.c, s.path.a) && AroundKeeps(s, i)
    ensures ProgressOf(s, i) == Moved(s, i)
  {
    hide FlightOk, FlightsApart, ChildOk, LastOk, StalledOk, CacheKeeps, CountersLeft, LocalKeeps, UnitKeeps, GlobalAdapterLedger.Kept, OutputLinked,
         InFlight, PortLanes;
    if i.accepted[0] { WordLeaves(s, w, i, 0); }
    if i.accepted[1] { WordLeaves(s, w, i, 1); }
    if s.path.c.output.Some? && s.path.c.output.value.owner !in s.released && (i.accepted[0] || i.accepted[1]) {
      var o := s.path.c.output.value;
      PortsApart(o.batch);
      var known := Noted(s.progress, o.owner);
      assert i.accepted[0] ==> PortLanes(o.batch, 0) - known == PortLanes(o.batch, 0);
      assert i.accepted[1] ==> PortLanes(o.batch, 1) - known == PortLanes(o.batch, 1)
                               && PortLanes(o.batch, 1) - (known + PortLanes(o.batch, 0)) == PortLanes(o.batch, 1);
    }
  }

  lemma ProgressPasses(s: System, w: GlobalAdapterLedger.Wire, i: Around)
    requires Joined(s) && GlobalAdapterLedger.Kept(s.path.a, w) && OutputLinked(s.path.c, s.path.a) && AroundKeeps(s, i)
    ensures forall k | 0 <= k < |ProgressOf(s, i)| :: ProgressOk(s.split, 0, ProgressOf(s, i)[k])
    ensures Apart(ProgressOf(s, i) + i.localProgress)
  {
    hide FlightsApart, ChildOk, LastOk, StalledOk, CacheKeeps, CountersLeft, UnitKeeps, GlobalAdapterLedger.Kept, OutputLinked, InFlight, PortLanes,
         ProgressOf, TablesOk, WordOk;
    FilterIdle(s, w, i);
    if i.accepted[0] { WordLeaves(s, w, i, 0); }
    if i.accepted[1] { WordLeaves(s, w, i, 1); }
    if s.path.c.output.Some? { PortsApart(s.path.c.output.value.batch); }
    var mine := Moved(s, i);
    forall j, k | 0 <= j < |mine| && 0 <= k < |i.localProgress| && mine[j].id == i.localProgress[k].id
      ensures mine[j].mask !! i.localProgress[k].mask
    {
      assert ProgressOk(s.split, 1, i.localProgress[k]) && ProgressOk(s.split, 0, mine[j]);
      PathsPartition(s.split.records[mine[j].id].request.simd);
    }
    SimdSplitLedger.ApartAppend(mine, i.localProgress);
  }

  // ------------------------------------------------------------------------ completions

  /** A word sent and not answered: its lanes are its request's global ones, sent and not arrived. */
  lemma WordWaits(s: System, id: nat, p: nat)
    requires Joined(s) && InFlight(s.path, id) && p < 2 && p in SentOf(s.path, id) && p !in DoneOf(s.path, id)
    requires p in ChannelsOf(BatchOf(s.path, id).batch)
    ensures var o := BatchOf(s.path, id);
            && o.owner in s.split.records
            && var rec := s.split.records[o.owner];
               && o.tag == rec.request.tag && o.write == rec.request.simd.write && PortLanes(o.batch, p) != {}
               && PortLanes(o.batch, p) <= PathMask(rec.request.simd, 0) && PortLanes(o.batch, p) <= rec.sent
               && PortLanes(o.batch, p) !! rec.arrived
  {
    hide FlightsApart, ChildOk, TablesOk, LastOk, StalledOk, InFlight;
    assert FlightOk(s, id);
    var o := BatchOf(s.path, id);
    PortsApart(o.batch);
    assert WordOk(s.split.records[o.owner], o.owner in s.released, PortLanes(o.batch, p), true, false);
  }

  lemma StorePasses(s: System, w: GlobalAdapterLedger.Wire, i: Around, k: nat)
    requires Joined(s) && GlobalAdapterLedger.Kept(s.path.a, w) && AroundKeeps(s, i) && Passes(s.path, Inner(s, i)) && k < |i.stores|
    requires InputShaped(ToSplit(s, i))
    ensures CompletionOk(s.split, ToSplit(s, i), 0, ToSplit(s, i).stores[0][k], true)
  {
    hide FlightsApart, ChildOk, TablesOk, LastOk, StalledOk, FlightOk, CountersLeft, LocalKeeps, UnitKeeps, Passes, PathMask, PortLanes, ProgressOf,
         GlobalAdapterLedger.PastKept, GlobalAdapterLedger.HeldKept;
    var r := i.stores[k];
    assert ReceiptOk(s.path.a, r);
    assert GlobalAdapterLedger.RecordKept(s.path.a, w, r.transaction);
    WordWaits(s, r.transaction, r.port);
  }

  /** The lanes of a packed reply: those of the ports it answers. */
  lemma ReadLanes(s: System, i: Around, id: nat)
    requires Joined(s) && Linked(s.path) && AroundKeeps(s, i) && OutsideKeeps(s.path, Inner(s, i))
    requires i.replies[0].Some? || i.replies[1].Some?
    requires Selected(ToAdapter(s.path, Inner(s, i))) == Some(id)
    ensures id in s.path.a.records
    ensures var o, e := s.path.a.records[id].batch, ReadEvent(s.path.c, PackedReply(s.path.a, ToAdapter(s.path, Inner(s, i))));
            && e.Some? && e.value.id == o.owner && e.value.tag == o.tag && !o.write && e.value.batch == o.id && |e.value.data| == LANES
            && forall l :: l in e.value.mask <==> l in o.batch.lanes && l / 2 < 2 && Picks(Inner(s, i), l / 2)
  {
    hide FlightsApart, ChildOk, TablesOk, LastOk, StalledOk, FlightOk, CountersLeft, LocalKeeps, UnitKeeps, CacheKeeps, OutputLinked, LoadsApart,
         ReplyLinked, PackedReply, ToAdapter, InFlight, Payload;
    var now := PackedFrom(s.path, Inner(s, i));
    assert RecordLinked(s.path.c, s.path.a, id);
  }

  lemma ReadPasses(s: System, w: GlobalAdapterLedger.Wire, i: Around)
    requires Joined(s) && Linked(s.path) && GlobalAdapterLedger.Kept(s.path.a, w) && AroundKeeps(s, i)
    requires OutsideKeeps(s.path, Inner(s, i)) && Passes(s.path, Inner(s, i))
    requires ToSplit(s, i).returned[0].Some? && InputShaped(ToSplit(s, i))
    ensures CompletionOk(s.split, ToSplit(s, i), 0, ToSplit(s, i).returned[0].value, false)
  {
    hide FlightsApart, ChildOk, TablesOk, LastOk, StalledOk, FlightOk, CountersLeft, LocalKeeps, UnitKeeps, Passes, PathMask, ProgressOf,
         GlobalAdapterLedger.PastKept, GlobalAdapterLedger.HeldKept, CacheKeeps, ReadEvent, PackedReply, OutputLinked, RecordLinked, LoadsApart,
         ReplyLinked, StoreEvents, ChannelsOf, ToAdapter;
    NothingPacked(s.path, Inner(s, i));
    NoReadEvent(s.path.c);
    var id := PackedFrom(s.path, Inner(s, i));
    ReadLanes(s, i, id);
    var o, e := s.path.a.records[id].batch, ToSplit(s, i).returned[0].value;
    var r := PackedReply(s.path.a, ToAdapter(s.path, Inner(s, i))).value;
    assert GlobalAdapterLedger.RecordKept(s.path.a, w, id);
    var p :| p in r.mask;
    WordWaits(s, id, p);
    var m :| m in PortLanes(o.batch, p);
    assert m in e.mask;
    var rec := s.split.records[o.owner];
    forall l | l in e.mask ensures l in PathMask(rec.request.simd, 0) && l in rec.sent && l !in rec.arrived {
      WordWaits(s, id, l / 2);
      assert l in PortLanes(o.batch, l / 2);
    }
  }

  lemma NoReadEvent(c: CoalescerState)
    ensures ReadEvent(c, None).None?
  {
  }

  lemma EventsFit(s: System, w: GlobalAdapterLedger.Wire, i: Around)
    requires Joined(s) && Linked(s.path) && GlobalAdapterLedger.Kept(s.path.a, w) && AroundKeeps(s, i)
    requires OutsideKeeps(s.path, Inner(s, i)) && Passes(s.path, Inner(s, i))
    ensures InputShaped(ToSplit(s, i))
  {
    hide FlightsApart, ChildOk, TablesOk, LastOk, StalledOk, CountersLeft, LocalKeeps, UnitKeeps, Passes, PathMask, ProgressOf,
         GlobalAdapterLedger.Kept, ReadEvent, PackedReply, OutputLinked, RecordLinked, LoadsApart, ReplyLinked, ToAdapter, WordOk;
    NothingPacked(s.path, Inner(s, i));
    NoReadEvent(s.path.c);
    var x := ToSplit(s, i);
    if x.returned[0].Some? {
      var id := PackedFrom(s.path, Inner(s, i));
      ReadLanes(s, i, id);
      assert FlightOk(s, id);
    }
    forall k | 0 <= k < |x.stores[0]| ensures EventShaped(x.stores[0][k]) {
      assert ReceiptOk(s.path.a, i.stores[k]);
      assert FlightOk(s, i.stores[k].transaction);
    }
  }

  /** A reply that the split stalled is still there, with the same lanes and bytes while it is the same batch's. */
  lemma StallPasses(s: System, i: Around)
    requires Joined(s) && AroundShaped(i) && Passes(s.path, Inner(s, i))
    ensures StallOk(s.split.heldReads[0], ToSplit(s, i).returned[0])
  {
    hide FlightsApart, ChildOk, TablesOk, LastOk, FlightOk, AdapterFollows, OfferOk, AcceptedOk, SendOk, PackedReply, ToAdapter, ProgressOf,
         StoreEvents, Payload, InFlight;
    var c := s.path.c;
    var was, now := c.heldReply, PackedReply(s.path.a, ToAdapter(s.path, Inner(s, i)));
    if s.split.heldReads[0].Some? {
      assert now.Some? && ReplyOk(c, now.value);
      if was.value.id == now.value.id {
        var slot := c.slots[now.value.id.slot];
        forall l | l in AnsweredBy(slot, was.value) && l < LANES ensures Payload(slot, was.value, l) == Payload(slot, now.value, l) {
          SamePayload(slot, was.value, now.value, l);
        }
      }
    }
  }

  lemma SamePayload(s: Slot, a: BatchReply, b: BatchReply, l: nat)
    requires ReplyShaped(a) && ReplyShaped(b) && l / 2 < 2 && a.words[l / 2] == b.words[l / 2] && a.failed[l / 2] == b.failed[l / 2]
    ensures Payload(s, a, l) == Payload(s, b, l)
  {
  }

  lemma LocalPasses(s: System, i: Around, e: LaneEvent, write: bool)
    requires AroundKeeps(s, i) && Passes(s.path, Inner(s, i)) && InputShaped(ToSplit(s, i)) && LocalDone(s, i, e, write)
    ensures CompletionOk(s.split, ToSplit(s, i), 1, e, write)
  {
    hide CacheKeeps, CountersLeft, LocalKeeps, UnitKeeps, Passes, PathMask, ProgressOf, LanesOf, ReadEvent, StoreEvents;
    SimdSplitLedger.LanesAppend(ProgressOf(s, i), i.localProgress, e.id);
  }

  /** Two stores acknowledged in one edge concern different lanes. */
  lemma ReceiptsDiffer(s: System, i: Around, j: nat, k: nat)
    requires Joined(s) && AroundKeeps(s, i) && Passes(s.path, Inner(s, i)) && j < k < |i.stores|
    requires ToSplit(s, i).stores[0][j].id == ToSplit(s, i).stores[0][k].id
    ensures ToSplit(s, i).stores[0][j].mask !! ToSplit(s, i).stores[0][k].mask
  {
    hide ChildOk, TablesOk, LastOk, StalledOk, FlightOk, CountersLeft, LocalKeeps, UnitKeeps, Passes, ProgressOf, ReadEvent, PackedReply;
    var a, b := i.stores[j], i.stores[k];
    assert ReceiptOk(s.path.a, a) && ReceiptOk(s.path.a, b) && a != b;
    assert InFlight(s.path, a.transaction) && InFlight(s.path, b.transaction);
    PortsApart(s.path.a.records[a.transaction].batch.batch);
    PortsApart(s.path.a.records[b.transaction].batch.batch);
  }

  lemma CompletionsApart(s: System, i: Around)
    requires Joined(s) && AroundKeeps(s, i) && Passes(s.path, Inner(s, i)) && InputShaped(ToSplit(s, i))
    requires ToSplit(s, i).returned[0].Some? ==> CompletionOk(s.split, ToSplit(s, i), 0, ToSplit(s, i).returned[0].value, false)
    requires forall k | 0 <= k < |i.stores| :: CompletionOk(s.split, ToSplit(s, i), 0, ToSplit(s, i).stores[0][k], true)
    ensures Apart(Completions(ToSplit(s, i)))
  {
    hide FlightsApart, ChildOk, TablesOk, LastOk, StalledOk, FlightOk, CountersLeft, UnitKeeps, CacheKeeps, Passes, ProgressOf, ReadEvent, PathMask,
         SentBy, StoreEvents, InFlight;
    var x := ToSplit(s, i);
    var mine, other := Singly(x.returned[0]) + x.stores[0], Singly(i.localReply) + i.localStores;
    assert |x.stores[0]| == |i.stores| by { StoreCount(s, i); }
    forall j, k | 0 <= j < k < |x.stores[0]| && x.stores[0][j].id == x.stores[0][k].id ensures x.stores[0][j].mask !! x.stores[0][k].mask {
      ReceiptsDiffer(s, i, j, k);
    }
    SimdSplitLedger.ApartAppend(Singly(x.returned[0]), x.stores[0]);
    forall j, k | 0 <= j < |mine| && 0 <= k < |other| && mine[j].id == other[k].id ensures mine[j].mask !! other[k].mask {
      MineGlobal(s, i, j);
      TheirsLocal(s, i, k);
      PathsPartition(s.split.records[mine[j].id].request.simd);
    }
    SimdSplitLedger.ApartAppend(mine, other);
    assert Completions(x) == mine + other;
  }

  lemma StoreCount(s: System, i: Around)
    requires AroundShaped(i) && StateShaped(s.split) && Passes(s.path, Inner(s, i))
    ensures |ToSplit(s, i).stores[0]| == |i.stores|
  {
    hide Passes, ProgressOf, ReadEvent;
  }

  lemma MineGlobal(s: System, i: Around, j: nat)
    requires AroundShaped(i) && StateShaped(s.split) && Passes(s.path, Inner(s, i)) && InputShaped(ToSplit(s, i))
    requires ToSplit(s, i).returned[0].Some? ==> CompletionOk(s.split, ToSplit(s, i), 0, ToSplit(s, i).returned[0].value, false)
    requires forall k | 0 <= k < |ToSplit(s, i).stores[0]| :: CompletionOk(s.split, ToSplit(s, i), 0, ToSplit(s, i).stores[0][k], true)
    requires j < |Singly(ToSplit(s, i).returned[0]) + ToSplit(s, i).stores[0]|
    ensures var e := (Singly(ToSplit(s, i).returned[0]) + ToSplit(s, i).stores[0])[j];
            e.id in s.split.records && e.mask <= PathMask(s.split.records[e.id].request.simd, 0)
  {
    hide Passes, ProgressOf, ReadEvent, PathMask, SentBy, StoreEvents, ToSplit;
    var x := ToSplit(s, i);
    if j >= |Singly(x.returned[0])| {
      assert CompletionOk(s.split, x, 0, x.stores[0][j - |Singly(x.returned[0])|], true);
    }
  }

  lemma TheirsLocal(s: System, i: Around, k: nat)
    requires AroundKeeps(s, i) && k < |Singly(i.localReply) + i.localStores|
    ensures var e := (Singly(i.localReply) + i.localStores)[k];
            e.id in s.split.records && e.mask <= PathMask(s.split.records[e.id].request.simd, 1)
  {
    hide CountersLeft, UnitKeeps, CacheKeeps, PathMask, LanesOf;
    if k >= |Singly(i.localReply)| {
      assert LocalDone(s, i, i.localStores[k - |Singly(i.localReply)|], true);
    }
  }

  // -------------------------------------------------------------------------- the checks

  /** No check of the three components fails. */
  lemma SystemFits(s: System, t: CoalescerLedger.Trail, w: GlobalAdapterLedger.Wire, g: SimdSplitLedger.Log, i: Around)
    requires SplitPath.Kept(s, t, w, g) && AroundKeeps(s, i)
    ensures SystemPasses(s, i)
  {
    hide FlightsApart, ChildOk, TablesOk, LastOk, StalledOk, FlightOk, CountersLeft, CacheKeeps, Passes, ProgressOf, ReadEvent, PathMask, SentBy,
         StoreEvents, InFlight, CompletionOk, ProgressOk, RequestOk, LocalDone, StallOk, Apart, OutsideKeeps, CoalescerLedger.Kept,
         GlobalAdapterLedger.Kept, SimdSplitLedger.Kept, OutputLinked, RecordLinked, LoadsApart, ReplyLinked, Completions;
    PathFits(s, t, w, g, i);
    EventsFit(s, w, i);
    ProgressPasses(s, w, i);
    StallPasses(s, i);
    var x := ToSplit(s, i);
    if x.returned[0].Some? {
      ReadPasses(s, w, i);
    }
    StoreCount(s, i);
    forall k | 0 <= k < |x.stores[0]| ensures CompletionOk(s.split, x, 0, x.stores[0][k], true) {
      StorePasses(s, w, i, k);
    }
    if i.localReply.Some? {
      LocalPasses(s, i, i.localReply.value, false);
    }
    forall k | 0 <= k < |i.localStores| ensures CompletionOk(s.split, x, 1, i.localStores[k], true) {
      LocalPasses(s, i, i.localStores[k], true);
    }
    CompletionsApart(s, i);
  }
}
