/** Every run of the connected split, coalescer and adapter: no component ever refuses what another hands it. */
module SplitPathRuns {
  import opened CacheTypes
  import opened Coalescing
  import opened Coalescers
  import opened GlobalAdapters
  import opened GlobalPath
  import opened PathFlights
  import opened SimdSplits
  import opened SplitPath
  import opened SplitPathChecks
  import CoalescingOrder
  import CoalescerLedger
  import GlobalAdapterLedger
  import SimdSplitLedger

  /** Everything known before an edge. */
  ghost predicate Before(s: System, t: CoalescerLedger.Trail, w: GlobalAdapterLedger.Wire, g: SimdSplitLedger.Log, i: Around) {
    && SplitPath.Kept(s, t, w, g) && AroundKeeps(s, i) && SystemPasses(s, i) && OutsideKeeps(s.path, Inner(s, i))
  }

  // ---------------------------------------------------------------------- lanes of events

  lemma {:induction false} LanesFrom(es: seq<LaneEvent>, id: Identity, l: nat) returns (k: nat)
    requires l in LanesOf(es, id)
    ensures k < |es| && es[k].id == id && l in es[k].mask
    decreases |es|
  {
    var n := |es| - 1;
    if es[n].id == id && l in es[n].mask {
      k := n;
    } else {
      k := LanesFrom(es[..n], id, l);
    }
  }

  /** A record across the edge: its request stays, its lane sets grow as the split's edge says. */
  lemma LedgerAt(s: Split, x: SplitInput, id: Identity)
    requires StateShaped(s) && InputShaped(x) && id in s.records
    ensures id in Ledgered(s, x)
    ensures var rec := Ledgered(s, x)[id];
            && rec.request == s.records[id].request && s.records[id].queued <= rec.queued
            && rec.sent == Advanced(s, x, id).sent && rec.arrived == Advanced(s, x, id).arrived && rec.completed == Advanced(s, x, id).completed
            && s.records[id].sent <= rec.sent && s.records[id].arrived <= rec.arrived
  {
    hide LanesOf, LeavingLanes, TakenLanes, StoredLanes, AnsweredLanes, EnteringLanes, Takes;
  }

  /** A global lane recorded as sent in this edge left with its request's child, or with a word of the batch on offer. */
  lemma NewlySentLane(s: System, t: CoalescerLedger.Trail, w: GlobalAdapterLedger.Wire, g: SimdSplitLedger.Log, i: Around, id: Identity, l: nat)
    requires Before(s, t, w, g, i) && id in s.split.records && l in PathMask(s.split.records[id].request.simd, 0)
    requires l in Advanced(s.split, ToSplit(s, i), id).sent && l !in s.split.records[id].sent
    ensures || (Leaves(s.split, ToSplit(s, i), 0) && s.split.children[0].value.id == id)
            || (&& InFlight(s.path, s.path.a.sequence) && BatchOf(s.path, s.path.a.sequence).owner == id && id !in s.released
                && exists p :: p in SentNow(s.path, Inner(s, i), s.path.a.sequence) && l in PortLanes(BatchOf(s.path, s.path.a.sequence).batch, p))
  {
    hide CacheKeeps, CountersLeft, UnitKeeps, Passes, ReadEvent, StoreEvents, SentBy, TakenLanes, StoredLanes, AnsweredLanes, SplitPath.ChildOk,
         FlightOk, FlightsApart, TablesOk, LastOk, StalledOk, PortLanes, LanesOf, OutsideKeeps, CoalescerLedger.Kept, RecordLinked, LoadsApart,
         ReplyLinked, ProgressOf, GlobalAdapterLedger.Kept, InFlight, SimdSplits.Follows;
    var x := ToSplit(s, i);
    PathsPartition(s.split.records[id].request.simd);
    if l !in LeavingLanes(s.split, x, id) {
      ProgressSplits(s, i, id, l);
      forall j | 0 <= j < |i.localProgress| && i.localProgress[j].id == id
        ensures i.localProgress[j].mask <= PathMask(s.split.records[id].request.simd, 1)
      {
        LocalEvent(s, i, j);
      }
      var k := LanesFrom(x.progress[0] + x.progress[1], id, l);
      if k >= |x.progress[0]| {
        assert false;
      }
      FilterIdle(s, w, i);
      var p := if k == 0 && i.accepted[0] then 0 else 1;
      assert x.progress[0][k] == WordEvent(s.path.c.output.value, p) && i.accepted[p];
      WordLeaves(s, w, i, p);
      assert p in SentNow(s.path, Inner(s, i), s.path.a.sequence);
    } else {
      LeavingLane(s, g, x, id, l);
    }
  }

  lemma ProgressSplits(s: System, i: Around, id: Identity, l: nat)
    requires AroundShaped(i) && SystemPasses(s, i) && id in s.split.records
    requires l in Advanced(s.split, ToSplit(s, i), id).sent && l !in s.split.records[id].sent && l !in LeavingLanes(s.split, ToSplit(s, i), id)
    ensures l in LanesOf(ToSplit(s, i).progress[0] + ToSplit(s, i).progress[1], id)
  {
    hide LanesOf, LeavingLanes, TakenLanes, StoredLanes, AnsweredLanes, ToSplit, SimdSplits.Follows, Passes;
  }

  lemma LocalEvent(s: System, i: Around, k: nat)
    requires AroundKeeps(s, i) && k < |i.localProgress|
    ensures var e := i.localProgress[k]; e.id in s.split.records && e.mask <= PathMask(s.split.records[e.id].request.simd, 1)
  {
    hide CacheKeeps, CountersLeft, UnitKeeps, PathMask;
    assert ProgressOk(s.split, 1, i.localProgress[k]);
  }

  lemma LeavingLane(s: System, g: SimdSplitLedger.Log, x: SplitInput, id: Identity, l: nat)
    requires SimdSplitLedger.Kept(s.split, g) && InputShaped(x) && id in s.split.records && l in LeavingLanes(s.split, x, id)
    requires l in PathMask(s.split.records[id].request.simd, 0)
    ensures Leaves(s.split, x, 0) && s.split.children[0].value.id == id
  {
    hide SimdSplitLedger.RecordOk, SimdSplitLedger.LogOk, SimdSplitLedger.HeldOk, SimdSplitLedger.ResponseOk;
    PathsPartition(s.split.records[id].request.simd);
  }

  /** A global lane that arrives in this edge came with a word that is answered or acknowledged in it. */
  lemma NewlyArrivedLane(s: System, t: CoalescerLedger.Trail, w: GlobalAdapterLedger.Wire, g: SimdSplitLedger.Log, i: Around, id: Identity, l: nat)
    returns (f: nat, p: nat)
    requires Before(s, t, w, g, i) && id in s.split.records && l in PathMask(s.split.records[id].request.simd, 0)
    requires l in Advanced(s.split, ToSplit(s, i), id).arrived && l !in s.split.records[id].arrived
    ensures InFlight(s.path, f) && BatchOf(s.path, f).owner == id && p in DoneNow(s.path, Inner(s, i), f) && l in PortLanes(BatchOf(s.path, f).batch, p)
  {
    hide CacheKeeps, CountersLeft, UnitKeeps, Passes, SentBy, LeavingLanes, AnsweredLanes, SplitPath.ChildOk, OutputLinked, RecordLinked,
         FlightOk, FlightsApart, TablesOk, LastOk, StalledOk, LanesOf, CoalescerLedger.Kept, LoadsApart, PathMask, StoreEvents, ReadEvent,
         ReplyLinked, ProgressOf, GlobalAdapterLedger.Kept, SimdSplits.Follows, SimdSplitLedger.Kept, TakenLanes, StoredLanes, PortLanes, DoneNow;
    var x := ToSplit(s, i);
    PathsPartition(s.split.records[id].request.simd);
    if l in TakenLanes(s.split, x, id) {
      f, p := TakenLane(s, i, id, l);
    } else {
      f, p := StoredLane(s, i, id, l);
    }
  }

  lemma TakenLane(s: System, i: Around, id: Identity, l: nat) returns (f: nat, p: nat)
    requires Joined(s) && Linked(s.path) && AroundKeeps(s, i) && SystemPasses(s, i) && OutsideKeeps(s.path, Inner(s, i))
    requires id in s.split.records && l in PathMask(s.split.records[id].request.simd, 0) && l in TakenLanes(s.split, ToSplit(s, i), id)
    ensures InFlight(s.path, f) && BatchOf(s.path, f).owner == id && p in DoneNow(s.path, Inner(s, i), f) && l in PortLanes(BatchOf(s.path, f).batch, p)
  {
    hide CacheKeeps, CountersLeft, UnitKeeps, Passes, SentBy, SplitPath.ChildOk, OutputLinked, RecordLinked, FlightOk, FlightsApart, TablesOk, LastOk,
         StalledOk, LoadsApart, PathMask, StoreEvents, ReadEvent, ReplyLinked, ProgressOf, PackedReply, StoresDone, ToAdapter;
    var x := ToSplit(s, i);
    PathsPartition(s.split.records[id].request.simd);
    var k := LanesFrom(Singly(Taken(s.split, x)), id, l);
    NothingPacked(s.path, Inner(s, i));
    NoReadEvent(s.path.c);
    if x.returned[0].None? {
      assert false;
    }
    f := PackedFrom(s.path, Inner(s, i));
    ReadLanes(s, i, f);
    p := l / 2;
    PickedFrom(s.path, Inner(s, i), f, p);
  }

  lemma PickedFrom(s: Path, i: Outside, id: nat, p: nat)
    requires OutsideShaped(i) && Selected(ToAdapter(s, i)) == Some(id) && p < 2 && Picks(i, p)
    ensures i.replies[p].value.transaction == id
  {
  }

  lemma StoredLane(s: System, i: Around, id: Identity, l: nat) returns (f: nat, p: nat)
    requires AroundKeeps(s, i) && SystemPasses(s, i) && OutsideKeeps(s.path, Inner(s, i))
    requires id in s.split.records && l in PathMask(s.split.records[id].request.simd, 0) && l in StoredLanes(ToSplit(s, i), id)
    ensures InFlight(s.path, f) && BatchOf(s.path, f).owner == id && p in DoneNow(s.path, Inner(s, i), f) && l in PortLanes(BatchOf(s.path, f).batch, p)
  {
    hide CountersLeft, UnitKeeps, Passes, SentBy, PathMask, ReadEvent, ProgressOf, PackedReply, PortLanes, AnsweredNow;
    var x := ToSplit(s, i);
    PathsPartition(s.split.records[id].request.simd);
    var k := LanesFrom(x.stores[0] + x.stores[1], id, l);
    if k >= |x.stores[0]| {
      assert false;
    }
    assert ReceiptOk(s.path.a, i.stores[k]);
    f, p := i.stores[k].transaction, i.stores[k].port;
    assert p in StoresDone(i.stores, f);
  }

  // ------------------------------------------------------------------- a batch in flight

  /** A request with a lane still to arrive stays in the split's ledger. */
  lemma StaysRecorded(s: System, g: SimdSplitLedger.Log, i: Around, id: Identity, l: nat)
    requires SimdSplitLedger.Kept(s.split, g) && AroundShaped(i) && SystemPasses(s, i) && id in s.split.records
    requires l in s.split.records[id].request.simd.mask && l !in Advanced(s.split, ToSplit(s, i), id).arrived
    ensures id in SystemNext(s, i).split.records && SystemNext(s, i).split.records[id] == Ledgered(s.split, ToSplit(s, i))[id]
    ensures id !in Announced(s.split, ToSplit(s, i))
  {
    hide SimdSplits.Follows, Passes, ToSplit, Ledgered, Advanced, SimdSplitLedger.ChildOk, SimdSplitLedger.HeldOk, SimdSplitLedger.ResponseOk,
         SimdSplitLedger.LogOk, Takes, Enters, Taken, PathNext;
    LedgerAt(s.split, ToSplit(s, i), id);
    SimdSplitLedger.AdvancedNested(s.split, g, ToSplit(s, i), id);
  }

  /** Unless its child leaves, a request is released after the edge exactly when it was before. */
  lemma ReleasedNext(s: System, i: Around, id: Identity)
    requires AroundShaped(i) && SystemPasses(s, i) && id !in Announced(s.split, ToSplit(s, i))
    ensures id in SystemNext(s, i).released <==>
            id in s.released || (Leaves(s.split, ToSplit(s, i), 0) && s.split.children[0].value.id == id)
  {
    hide SimdSplits.Follows, Passes, ToSplit, Announced, PathNext, SimdSplits.Next;
  }

  lemma ChildStays(s: System, i: Around)
    requires AroundShaped(i) && SystemPasses(s, i) && s.split.children[0].Some? && !Leaves(s.split, ToSplit(s, i), 0)
    ensures SystemNext(s, i).split.children[0] == s.split.children[0]
  {
    hide SimdSplits.Follows, Passes, ToSplit, Announced, PathNext, Ledgered, Takes, Submitted, Taken;
  }

  /** The lanes of an unanswered word do not arrive. */
  lemma UnarrivedStays(s: System, t: CoalescerLedger.Trail, w: GlobalAdapterLedger.Wire, g: SimdSplitLedger.Log, i: Around, id: nat, p: nat)
    requires Before(s, t, w, g, i) && InFlight(s.path, id) && p < 2 && p !in DoneOf(s.path, id) && p !in DoneNow(s.path, Inner(s, i), id)
    ensures BatchOf(s.path, id).owner in s.split.records
    ensures PortLanes(BatchOf(s.path, id).batch, p) !! Advanced(s.split, ToSplit(s, i), BatchOf(s.path, id).owner).arrived
  {
    hide AroundKeeps, SystemPasses, OutsideKeeps, GlobalPath.Kept, SimdSplitLedger.Kept, SplitPath.ChildOk, TablesOk, LastOk, StalledOk, Advanced,
         ToSplit, DoneNow, DoneOf, SentOf, InFlight, BatchOf, BatchOk;
    BeforeFits(s, t, w, g, i);
    assert FlightOk(s, id);
    var o := BatchOf(s.path, id);
    PortsApart(o.batch);
    assert WordOk(s.split.records[o.owner], o.owner in s.released, PortLanes(o.batch, p), p in SentOf(s.path, id), false);
    forall l | l in PortLanes(o.batch, p) ensures l !in Advanced(s.split, ToSplit(s, i), o.owner).arrived {
      if l in Advanced(s.split, ToSplit(s, i), o.owner).arrived {
        var f, q := NewlyArrivedLane(s, t, w, g, i, o.owner, l);
        assert false;
      }
    }
  }

  lemma BeforeFits(s: System, t: CoalescerLedger.Trail, w: GlobalAdapterLedger.Wire, g: SimdSplitLedger.Log, i: Around)
    requires Before(s, t, w, g, i)
    ensures AroundShaped(i) && StateShaped(s.split) && Passes(s.path, Inner(s, i)) && InputShaped(ToSplit(s, i))
  {
    hide SimdSplits.Follows, Passes, ToSplit, GlobalPath.Kept, SimdSplitLedger.Kept, Joined, CacheKeeps, CountersLeft, LocalKeeps, UnitKeeps;
  }

  /** The lanes of an unsent word are not recorded as sent while the child is still there. */
  lemma UnsentStays(s: System, t: CoalescerLedger.Trail, w: GlobalAdapterLedger.Wire, g: SimdSplitLedger.Log, i: Around, id: nat, p: nat)
    requires Before(s, t, w, g, i) && InFlight(s.path, id) && p < 2 && p !in SentOf(s.path, id) && p !in SentNow(s.path, Inner(s, i), id)
    requires BatchOf(s.path, id).owner !in s.released
    requires !(Leaves(s.split, ToSplit(s, i), 0) && s.split.children[0].value.id == BatchOf(s.path, id).owner)
    ensures BatchOf(s.path, id).owner in s.split.records
    ensures PortLanes(BatchOf(s.path, id).batch, p) !! Advanced(s.split, ToSplit(s, i), BatchOf(s.path, id).owner).sent
  {
    hide AroundKeeps, SystemPasses, OutsideKeeps, GlobalPath.Kept, SimdSplitLedger.Kept, SplitPath.ChildOk, TablesOk, LastOk, StalledOk, Advanced,
         ToSplit, DoneOf, SentOf, InFlight, BatchOf, BatchOk, SentNow, Leaves;
    BeforeFits(s, t, w, g, i);
    assert FlightOk(s, id);
    var o := BatchOf(s.path, id);
    PortsApart(o.batch);
    assert WordOk(s.split.records[o.owner], false, PortLanes(o.batch, p), false, p in DoneOf(s.path, id));
    forall l | l in PortLanes(o.batch, p) ensures l !in Advanced(s.split, ToSplit(s, i), o.owner).sent {
      if l in Advanced(s.split, ToSplit(s, i), o.owner).sent {
        NewlySentLane(s, t, w, g, i, o.owner, l);
        assert false;
      }
    }
  }

  /** The lanes of a word sent now are recorded as sent. */
  lemma SentShows(s: System, t: CoalescerLedger.Trail, w: GlobalAdapterLedger.Wire, g: SimdSplitLedger.Log, i: Around, id: nat, p: nat)
    requires Before(s, t, w, g, i) && InFlight(s.path, id) && p in SentNow(s.path, Inner(s, i), id)
    ensures p < 2 && BatchOf(s.path, id).owner in s.split.records
    ensures PortLanes(BatchOf(s.path, id).batch, p) <= Advanced(s.split, ToSplit(s, i), BatchOf(s.path, id).owner).sent
  {
    hide CacheKeeps, CountersLeft, UnitKeeps, LocalKeeps, Passes, ReadEvent, StoreEvents, TakenLanes, StoredLanes, AnsweredLanes, SplitPath.ChildOk,
         FlightsApart, LastOk, StalledOk, LanesOf, OutsideKeeps, CoalescerLedger.Kept, RecordLinked, LoadsApart, LeavingLanes, BatchOk,
         ReplyLinked, ProgressOf, GlobalAdapterLedger.Kept, InFlight, SimdSplits.Follows, SimdSplitLedger.Kept, PathMask, WordOk;
    assert i.accepted[p];
    WordLeaves(s, w, i, p);
    FilterIdle(s, w, i);
    var o := BatchOf(s.path, id);
    PortsApart(o.batch);
    if o.owner !in s.released {
      var x := ToSplit(s, i);
      var es := x.progress[0] + x.progress[1];
      var k := if p == 0 || !i.accepted[0] then 0 else 1;
      assert Moved(s, i)[k] == WordEvent(o, p) && es[k] == WordEvent(o, p);
      SimdSplitLedger.LanesHold(es, k);
    }
  }

  /** The request of a batch that still waits stays in the ledger. */
  lemma OwnerStays(s: System, t: CoalescerLedger.Trail, w: GlobalAdapterLedger.Wire, g: SimdSplitLedger.Log, i: Around, id: nat)
    requires Before(s, t, w, g, i) && InFlight(s.path, id)
    requires exists q :: q in ChannelsOf(BatchOf(s.path, id).batch) && q !in DoneOf(s.path, id) && q !in DoneNow(s.path, Inner(s, i), id)
    ensures var o := BatchOf(s.path, id).owner;
            && o in s.split.records && o in SystemNext(s, i).split.records && o !in Announced(s.split, ToSplit(s, i))
            && o in Ledgered(s.split, ToSplit(s, i)) && SystemNext(s, i).split.records[o] == Ledgered(s.split, ToSplit(s, i))[o]
  {
    hide AroundKeeps, SystemPasses, OutsideKeeps, GlobalPath.Kept, SimdSplitLedger.Kept, SplitPath.ChildOk, LastOk, StalledOk, Advanced,
         ToSplit, DoneOf, SentOf, InFlight, BatchOf, DoneNow, SystemNext, FlightsApart, Ledgered, Announced, TablesOk, WordOk;
    BeforeFits(s, t, w, g, i);
    assert FlightOk(s, id);
    var o := BatchOf(s.path, id);
    PortsApart(o.batch);
    var q :| q in ChannelsOf(o.batch) && q !in DoneOf(s.path, id) && q !in DoneNow(s.path, Inner(s, i), id);
    var m :| m in PortLanes(o.batch, q);
    UnarrivedStays(s, t, w, g, i, id, q);
    StaysRecorded(s, g, i, o.owner, m);
    LedgerAt(s.split, ToSplit(s, i), o.owner);
  }

  lemma FlightStays(s: System, t: CoalescerLedger.Trail, w: GlobalAdapterLedger.Wire, g: SimdSplitLedger.Log, i: Around, id: nat)
    requires Before(s, t, w, g, i) && InFlight(s.path, id) && InFlight(SystemNext(s, i).path, id) && Waits(SystemNext(s, i).path, id)
    requires BatchOf(SystemNext(s, i).path, id) == BatchOf(s.path, id)
    requires SentOf(SystemNext(s, i).path, id) == SentOf(s.path, id) + SentNow(s.path, Inner(s, i), id)
    requires DoneOf(SystemNext(s, i).path, id) == DoneOf(s.path, id) + DoneNow(s.path, Inner(s, i), id)
    requires StateShaped(SystemNext(s, i).split)
    ensures FlightOk(SystemNext(s, i), id)
  {
    hide AroundKeeps, SystemPasses, OutsideKeeps, GlobalPath.Kept, SimdSplitLedger.Kept, SplitPath.ChildOk, LastOk, StalledOk, Advanced,
         ToSplit, DoneOf, SentOf, InFlight, BatchOf, SentNow, DoneNow, Leaves, SystemNext, FlightsApart, Ledgered, Announced, TablesOk,
         WordOk, PortLanes, ChannelsOf, BatchOk, PathMask;
    BeforeFits(s, t, w, g, i);
    assert FlightOk(s, id);
    var o, n, x := BatchOf(s.path, id), SystemNext(s, i), ToSplit(s, i);
    OwnerStays(s, t, w, g, i, id);
    LedgerAt(s.split, x, o.owner);
    ReleasedNext(s, i, o.owner);
    forall p | 0 <= p < 2
      ensures WordOk(n.split.records[o.owner], o.owner in n.released, PortLanes(o.batch, p), p in SentOf(n.path, id), p in DoneOf(n.path, id))
    {
      WordStays(s, t, w, g, i, x, SentOf(n.path, id), DoneOf(n.path, id), id, p);
    }
    if o.owner !in n.released {
      ChildStays(s, i);
    }
  }

  lemma WordStays(s: System, t: CoalescerLedger.Trail, w: GlobalAdapterLedger.Wire, g: SimdSplitLedger.Log, i: Around, x: SplitInput,
                  sent: Channels, done: Channels, id: nat, p: nat)
    requires Before(s, t, w, g, i) && x == ToSplit(s, i) && InFlight(s.path, id) && p < 2 && BatchOf(s.path, id).owner in s.split.records
    requires sent == SentOf(s.path, id) + SentNow(s.path, Inner(s, i), id) && done == DoneOf(s.path, id) + DoneNow(s.path, Inner(s, i), id)
    requires InputShaped(x) && BatchOf(s.path, id).owner in Ledgered(s.split, x)
    ensures var o := BatchOf(s.path, id);
            var free := o.owner in s.released || (Leaves(s.split, x, 0) && s.split.children[0].value.id == o.owner);
            WordOk(Ledgered(s.split, x)[o.owner], free, PortLanes(o.batch, p), p in sent, p in done)
  {
    hide AroundKeeps, SystemPasses, OutsideKeeps, GlobalPath.Kept, SimdSplitLedger.Kept, SplitPath.ChildOk, LastOk, StalledOk, Advanced,
         ToSplit, DoneOf, SentOf, InFlight, BatchOf, SentNow, DoneNow, Leaves, FlightsApart, Ledgered, TablesOk, BatchOk;
    BeforeFits(s, t, w, g, i);
    assert FlightOk(s, id);
    var o := BatchOf(s.path, id);
    LedgerAt(s.split, x, o.owner);
    assert WordOk(s.split.records[o.owner], o.owner in s.released, PortLanes(o.batch, p), p in SentOf(s.path, id), p in DoneOf(s.path, id));
    if p in SentNow(s.path, Inner(s, i), id) {
      SentShows(s, t, w, g, i, id, p);
    }
    if p !in done {
      UnarrivedStays(s, t, w, g, i, id, p);
    }
    if p !in sent && o.owner !in s.released
       && !(Leaves(s.split, x, 0) && s.split.children[0].value.id == o.owner) {
      UnsentStays(s, t, w, g, i, id, p);
    }
  }

  // -------------------------------------------------------- the request at the coalescer

  /** The child is its request's global part, queued and not released. */
  lemma ChildIs(s: System, g: SimdSplitLedger.Log)
    requires SimdSplitLedger.Kept(s.split, g) && s.split.children[0].Some?
    ensures var ch := s.split.children[0].value;
            && ch.id in s.split.records && ch.simd.mask == PathMask(s.split.records[ch.id].request.simd, 0)
            && ch.tag == s.split.records[ch.id].request.tag && ch.simd.write == s.split.records[ch.id].request.simd.write
            && ch.simd.mask <= s.split.records[ch.id].queued && ch.simd.mask != {}
  {
    hide SimdSplitLedger.RecordOk, SimdSplitLedger.LogOk, SimdSplitLedger.HeldOk, SimdSplitLedger.ResponseOk, PathMask;
    assert SimdSplitLedger.ChildOk(s.split, 0);
  }

  /** A lane the coalescer has still to send neither arrives nor, while the child stays, is recorded as sent. */
  lemma UntouchedStays(s: System, t: CoalescerLedger.Trail, w: GlobalAdapterLedger.Wire, g: SimdSplitLedger.Log, i: Around, l: nat)
    requires Before(s, t, w, g, i) && s.split.children[0].Some? && l in s.split.children[0].value.simd.mask * s.path.c.remaining
    ensures s.split.children[0].value.id in s.split.records
    ensures l !in Advanced(s.split, ToSplit(s, i), s.split.children[0].value.id).arrived
    ensures !Leaves(s.split, ToSplit(s, i), 0) ==> l !in Advanced(s.split, ToSplit(s, i), s.split.children[0].value.id).sent
  {
    hide AroundKeeps, SystemPasses, OutsideKeeps, GlobalPath.Kept, SimdSplitLedger.Kept, TablesOk, LastOk, StalledOk, Advanced, FlightOk, FlightsApart,
         ToSplit, DoneNow, DoneOf, SentOf, InFlight, BatchOf, BatchOk, SentNow, Leaves, CoalescingOrder.Accepts, PathMask;
    BeforeFits(s, t, w, g, i);
    ChildIs(s, g);
    var id, x := s.split.children[0].value.id, ToSplit(s, i);
    if l in Advanced(s.split, x, id).arrived {
      var f, p := NewlyArrivedLane(s, t, w, g, i, id, l);
      assert false;
    }
    if !Leaves(s.split, x, 0) && l in Advanced(s.split, x, id).sent {
      NewlySentLane(s, t, w, g, i, id, l);
      assert false;
    }
  }

  lemma Preparing(s: System, t: CoalescerLedger.Trail, w: GlobalAdapterLedger.Wire, g: SimdSplitLedger.Log)
    requires SplitPath.Kept(s, t, w, g) && s.path.c.send
    ensures s.path.c.held.Some? && s.split.children[0] == s.path.c.held
    ensures s.path.c.prepared.lanes <= s.split.children[0].value.simd.mask * s.path.c.remaining
  {
    hide CoalescerLedger.SlotsKept, CoalescerLedger.OutputKept, CoalescerLedger.FreeKept, CoalescerLedger.GrantsKept, Linked, GlobalAdapterLedger.Kept,
         SimdSplitLedger.Kept, TablesOk, LastOk, StalledOk, FlightOk, FlightsApart, CoalescingOrder.Accepts;
    CoalescerLedger.PreparedWaits(s.path.c, t);
  }

  /** A batch just sent: its lanes are untouched. */
  lemma FreshFlight(s: System, t: CoalescerLedger.Trail, w: GlobalAdapterLedger.Wire, g: SimdSplitLedger.Log, i: Around, id: nat)
    requires Before(s, t, w, g, i) && s.path.c.send && InFlight(SystemNext(s, i).path, id) && SlotsFit(s.path.c)
    requires BatchOf(SystemNext(s, i).path, id) == Sent(s.path.c) && SentOf(SystemNext(s, i).path, id) == {} && DoneOf(SystemNext(s, i).path, id) == {}
    requires |s.path.c.prepared.words| == 2 && BatchOk(s.path.c.prepared)
    requires StateShaped(SystemNext(s, i).split)
    ensures FlightOk(SystemNext(s, i), id)
  {
    hide AroundKeeps, SystemPasses, OutsideKeeps, GlobalPath.Kept, SimdSplitLedger.Kept, TablesOk, LastOk, StalledOk, Advanced, FlightOk, FlightsApart,
         ToSplit, DoneOf, SentOf, InFlight, BatchOf, Leaves, CoalescingOrder.Accepts, PathMask, SystemNext, Ledgered, Announced, SplitPath.ChildOk;
    BeforeFits(s, t, w, g, i);
    Preparing(s, t, w, g);
    ChildIs(s, g);
    NotReleased(s);
    var n, x, o := SystemNext(s, i), ToSplit(s, i), Sent(s.path.c);
    var rec := Advanced(s.split, x, o.owner);
    PortsApart(o.batch);
    forall l | l in o.batch.lanes ensures l !in rec.arrived && (!Leaves(s.split, x, 0) ==> l !in rec.sent) {
      UntouchedStays(s, t, w, g, i, l);
    }
    var m :| m in o.batch.lanes;
    StaysRecorded(s, g, i, o.owner, m);
    LedgerAt(s.split, x, o.owner);
    ReleasedNext(s, i, o.owner);
    if !Leaves(s.split, x, 0) {
      ChildStays(s, i);
    }
    assert Placed(n, o, {}, {});
    FlightIs(n, id);
  }

  lemma NotReleased(s: System)
    requires Joined(s) && s.split.children[0].Some?
    ensures s.split.children[0].value.id !in s.released && s.split.children[0].value.id in s.split.records
  {
    hide FlightOk, FlightsApart, TablesOk, LastOk, StalledOk, CoalescingOrder.Accepts;
  }

  lemma FlightIs(s: System, id: nat)
    requires StateShaped(s.split) && InFlight(s.path, id) && Placed(s, BatchOf(s.path, id), SentOf(s.path, id), DoneOf(s.path, id))
    ensures FlightOk(s, id)
  {
    hide Placed;
  }

  /** Every batch in flight after the edge is placed as it should be. */
  lemma FlightsKeep(s: System, t: CoalescerLedger.Trail, w: GlobalAdapterLedger.Wire, g: SimdSplitLedger.Log, i: Around, id: nat)
    requires Before(s, t, w, g, i) && InFlight(SystemNext(s, i).path, id) && StateShaped(SystemNext(s, i).split)
    ensures FlightOk(SystemNext(s, i), id)
    ensures s.path.c.send && id == s.path.a.sequence ==>
              SlotsFit(s.path.c) && s.path.c.held.Some? && BatchOf(SystemNext(s, i).path, id) == Sent(s.path.c)
    ensures !(s.path.c.send && id == s.path.a.sequence) ==>
              InFlight(s.path, id) && BatchOf(SystemNext(s, i).path, id) == BatchOf(s.path, id)
  {
    hide AroundKeeps, Passes, OutsideKeeps, SimdSplitLedger.Kept, Joined, ToSplit, DoneOf, SentOf, InFlight, BatchOf, FlightOk, SentNow, DoneNow,
         PathNext, SimdSplits.Next, Announced, Leaves, SimdSplits.Follows, CoalescerLedger.Kept, GlobalAdapterLedger.Kept, Linked, Waits;
    BeforeFits(s, t, w, g, i);
    FlightNext(s.path, t, w, Inner(s, i), id);
    FreeIsFree(s.path.c, t);
    if s.path.c.send && id == s.path.a.sequence {
      PreparedFits(s.path.c, t);
      FreshFlight(s, t, w, g, i, id);
    } else {
      FlightStays(s, t, w, g, i, id);
    }
  }

  lemma PreparedFits(c: CoalescerState, t: CoalescerLedger.Trail)
    requires CoalescerLedger.Kept(c, t) && c.send
    ensures |c.prepared.words| == 2 && BatchOk(c.prepared)
  {
    hide CoalescerLedger.SlotsKept, CoalescerLedger.GrantsKept, CoalescerLedger.OutputKept, CoalescerLedger.FreeKept, MakeBatch, Batches, BatchOk;
    BatchFits(c.held.value.simd, c.remaining);
  }

  lemma ApartKeeps(s: System, t: CoalescerLedger.Trail, w: GlobalAdapterLedger.Wire, g: SimdSplitLedger.Log, i: Around)
    requires Before(s, t, w, g, i) && StateShaped(SystemNext(s, i).split)
    ensures FlightsApart(SystemNext(s, i))
  {
    hide AroundKeeps, SystemPasses, OutsideKeeps, SimdSplitLedger.Kept, GlobalPath.Kept, ToSplit, DoneOf, SentOf, InFlight, BatchOf, FlightOk, SystemNext,
         TablesOk, LastOk, StalledOk, CoalescingOrder.Accepts;
    BeforeFits(s, t, w, g, i);
    var n := SystemNext(s, i);
    forall a, b | InFlight(n.path, a) && InFlight(n.path, b) && a != b && BatchOf(n.path, a).owner == BatchOf(n.path, b).owner
      ensures BatchOf(n.path, a).batch.lanes !! BatchOf(n.path, b).batch.lanes
    {
      FlightsKeep(s, t, w, g, i, a);
      FlightsKeep(s, t, w, g, i, b);
      if s.path.c.send && (a == s.path.a.sequence || b == s.path.a.sequence) {
        Preparing(s, t, w, g);
      }
    }
  }

  /** What the coalescer's edge does with the child. */
  lemma CoalescerMoves(s: System, i: Around)
    requires AroundShaped(i) && SystemPasses(s, i) && (s.path.c.held.Some? ==> s.split.children[0] == s.path.c.held)
    ensures var c, n, leaves := s.path.c, SystemNext(s, i).path.c, Leaves(s.split, ToSplit(s, i), 0);
            && n.held == (if leaves then None else s.split.children[0])
            && (!leaves ==> n.remaining == LanesLeft(c) && n.last == c.last && n.used == c.used)
            && (leaves ==> n.used && n.last == s.split.children[0].value.id.transaction)
  {
    hide AdapterFollows, Coalescers.Follows, SimdSplits.Follows, SlotsAfter, AcquireAfter, AdapterNext, SimdSplits.Next, Announced, ProgressOf, ReadEvent,
         StoreEvents, PackedReply, LanesLeft, ProgressAfter;
  }

  lemma RecordedNext(s: System, i: Around, id: Identity)
    requires AroundShaped(i) && SystemPasses(s, i) && id in SystemNext(s, i).split.records
    ensures id !in Announced(s.split, ToSplit(s, i)) && id in Ledgered(s.split, ToSplit(s, i))
    ensures SystemNext(s, i).split.records[id] == Ledgered(s.split, ToSplit(s, i))[id]
  {
    hide SimdSplits.Follows, Passes, ToSplit, Ledgered, PathNext, Takes, Enters, Taken;
  }

  /** The child stays: the lanes it has still to send are still untouched. */
  lemma StayingChild(s: System, t: CoalescerLedger.Trail, w: GlobalAdapterLedger.Wire, g: SimdSplitLedger.Log, i: Around, u: SimdSplitLedger.Log)
    requires Before(s, t, w, g, i) && SimdSplitLedger.Kept(SystemNext(s, i).split, u)
    requires s.split.children[0].Some? && !Leaves(s.split, ToSplit(s, i), 0)
    ensures SplitPath.ChildOk(SystemNext(s, i))
  {
    hide AroundKeeps, SystemPasses, OutsideKeeps, SimdSplitLedger.Kept, GlobalPath.Kept, ToSplit, DoneOf, SentOf, InFlight, BatchOf, FlightOk, SystemNext,
         TablesOk, LastOk, StalledOk, CoalescingOrder.Accepts, Leaves, Announced, Ledgered, Advanced, FlightsApart, PathMask;
    BeforeFits(s, t, w, g, i);
    SimdSplitLedger.KeptShaped(SystemNext(s, i).split, u);
    var n, x, ch := SystemNext(s, i), ToSplit(s, i), s.split.children[0].value;
    ChildStays(s, i);
    ChildIs(n, u);
    ChildIs(s, g);
    CoalescerMoves(s, i);
    RecordedNext(s, i, ch.id);
    ReleasedNext(s, i, ch.id);
    LedgerAt(s.split, x, ch.id);
    forall l | l in ch.simd.mask * n.path.c.remaining ensures l !in n.split.records[ch.id].sent && l !in n.split.records[ch.id].arrived {
      UntouchedStays(s, t, w, g, i, l);
    }
    forall id | InFlight(n.path, id) && BatchOf(n.path, id).owner == ch.id ensures BatchOf(n.path, id).batch.lanes !! n.path.c.remaining {
      FlightsKeep(s, t, w, g, i, id);
    }
  }

  /** A request about to enter the global path has no global lane queued, so no batch, no progress and no child. */
  lemma EnteringQuiet(s: System, t: CoalescerLedger.Trail, w: GlobalAdapterLedger.Wire, g: SimdSplitLedger.Log, i: Around)
    requires Before(s, t, w, g, i) && Enters(s.split, ToSplit(s, i), 0)
    ensures i.request.Some?
    ensures var r := i.request.value;
            && r.id !in s.released && (s.split.children[0].Some? ==> s.split.children[0].value.id != r.id)
            && (forall id | InFlight(s.path, id) :: BatchOf(s.path, id).owner != r.id)
            && (r.id in s.split.records ==> s.split.records[r.id].request == r && PathMask(r.simd, 0) !! s.split.records[r.id].sent)
  {
    hide CacheKeeps, CountersLeft, LocalKeeps, Passes, ReadEvent, StoreEvents, LastOk, StalledOk, SplitPath.ChildOk, FlightsApart, CoalescerLedger.Kept,
         GlobalAdapterLedger.Kept, Linked, ProgressOf, InFlight, BatchOf, SentOf, DoneOf, WordOk, PathMask, OutsideKeeps, CoalescingOrder.Accepts,
         SimdSplitLedger.LogOk, SimdSplitLedger.ChildOk, SimdSplitLedger.ResponseOk, RequestOk, BatchOk, SimdSplits.Follows;
    var r, x := i.request.value, ToSplit(s, i);
    SimdSplitLedger.OfferedHeld(s.split, g, x);
    if s.split.children[0].Some? {
      ChildIs(s, g);
    }
    if r.id in s.split.records {
      assert SimdSplitLedger.RecordOk(s.split, r.id);
      SimdSplitLedger.PathLanesApart(r.simd, s.split.submitted, 0);
    }
    forall id | InFlight(s.path, id) ensures BatchOf(s.path, id).owner != r.id {
      assert FlightOk(s, id);
    }
  }

  /** The transaction of an entering request is newer than any the coalescer has finished. */
  lemma EnteringNew(s: System, t: CoalescerLedger.Trail, w: GlobalAdapterLedger.Wire, g: SimdSplitLedger.Log, i: Around)
    requires Before(s, t, w, g, i) && Enters(s.split, ToSplit(s, i), 0)
    ensures i.request.Some?
    ensures var n := SystemNext(s, i).path.c; !(n.used && i.request.value.id.transaction <= n.last)
  {
    hide CacheKeeps, CountersLeft, LocalKeeps, Passes, ReadEvent, StoreEvents, StalledOk, FlightsApart, FlightOk, TablesOk, CoalescerLedger.Kept,
         GlobalAdapterLedger.Kept, Linked, ProgressOf, InFlight, BatchOf, PathMask, OutsideKeeps, CoalescingOrder.Accepts,
         SimdSplitLedger.LogOk, SimdSplitLedger.ResponseOk, SimdSplits.Follows, SystemNext, SimdSplitLedger.Nested;
    var r, x := i.request.value, ToSplit(s, i);
    EnteringQuiet(s, t, w, g, i);
    CoalescerMoves(s, i);
    SimdSplitLedger.RequestHasLanes(s.split, x);
    if s.split.children[0].Some? {
      ChildIs(s, g);
      assert SimdSplitLedger.RecordOk(s.split, s.split.children[0].value.id);
    }
  }

  lemma EnteringChild(s: System, t: CoalescerLedger.Trail, w: GlobalAdapterLedger.Wire, g: SimdSplitLedger.Log, i: Around, u: SimdSplitLedger.Log)
    requires Before(s, t, w, g, i) && SimdSplitLedger.Kept(SystemNext(s, i).split, u) && Enters(s.split, ToSplit(s, i), 0)
    ensures SplitPath.ChildOk(SystemNext(s, i))
  {
    hide AroundKeeps, SystemPasses, OutsideKeeps, SimdSplitLedger.Kept, GlobalPath.Kept, ToSplit, DoneOf, SentOf, InFlight, BatchOf, FlightOk, SystemNext,
         TablesOk, LastOk, StalledOk, CoalescingOrder.Accepts, Announced, Ledgered, Advanced, FlightsApart, PathMask, SplitPath.ChildOk;
    BeforeFits(s, t, w, g, i);
    var n, x := SystemNext(s, i), ToSplit(s, i);
    SimdSplitLedger.KeptShaped(n.split, u);
    EnteringQuiet(s, t, w, g, i);
    EnteringNew(s, t, w, g, i);
    EnteredIs(s, i);
    var r := i.request.value;
    ChildIs(n, u);
    assert s.path.c.held.Some? ==> s.split.children[0] == s.path.c.held by { HeldIs(s); }
    CoalescerMoves(s, i);
    RecordedNext(s, i, r.id);
    ReleasedNext(s, i, r.id);
    forall l | l in PathMask(r.simd, 0) ensures l !in n.split.records[r.id].sent && l !in n.split.records[r.id].arrived {
      EnteringLane(s, t, w, g, i, u, l);
    }
    forall id | InFlight(n.path, id) ensures BatchOf(n.path, id).owner != r.id {
      FlightsKeep(s, t, w, g, i, id);
    }
    EnteredChildOk(n, r);
  }

  lemma HeldIs(s: System)
    requires Joined(s)
    ensures s.path.c.held.Some? ==> s.split.children[0] == s.path.c.held
  {
    hide FlightOk, FlightsApart, TablesOk, LastOk, StalledOk, CoalescingOrder.Accepts;
  }

  lemma EnteredIs(s: System, i: Around)
    requires AroundKeeps(s, i) && SystemPasses(s, i) && Enters(s.split, ToSplit(s, i), 0) && i.request.Some?
    ensures SystemNext(s, i).split.children[0] == Some(Child(i.request.value, 0)) && CoalescingOrder.Accepts(Child(i.request.value, 0).simd)
    ensures s.split.children[0].None? || Leaves(s.split, ToSplit(s, i), 0)
  {
    hide CacheKeeps, CountersLeft, LocalKeeps, Passes, ProgressOf, ReadEvent, StoreEvents, SimdSplits.Follows, PathNext, Announced, Ledgered, Takes,
         CoalescingOrder.Accepts, PathMask;
  }

  lemma EnteredChildOk(n: System, r: SimdRequest)
    requires StateShaped(n.split) && Shaped(r.simd) && n.split.children[0] == Some(Child(r, 0)) && n.path.c.held.None?
    requires r.id in n.split.records && r.id !in n.released && CoalescingOrder.Accepts(Child(r, 0).simd)
    requires !(n.path.c.used && r.id.transaction <= n.path.c.last)
    requires forall l | l in PathMask(r.simd, 0) :: l !in n.split.records[r.id].sent && l !in n.split.records[r.id].arrived
    requires forall id | InFlight(n.path, id) :: BatchOf(n.path, id).owner != r.id
    ensures SplitPath.ChildOk(n)
  {
    hide CoalescingOrder.Accepts, PathMask, InFlight, BatchOf;
  }

  lemma EnteringLane(s: System, t: CoalescerLedger.Trail, w: GlobalAdapterLedger.Wire, g: SimdSplitLedger.Log, i: Around, u: SimdSplitLedger.Log, l: nat)
    requires Before(s, t, w, g, i) && SimdSplitLedger.Kept(SystemNext(s, i).split, u) && Enters(s.split, ToSplit(s, i), 0)
    requires i.request.Some? && i.request.value.id in SystemNext(s, i).split.records && l in PathMask(i.request.value.simd, 0)
    ensures var rec := SystemNext(s, i).split.records[i.request.value.id]; l !in rec.sent && l !in rec.arrived
  {
    hide AroundKeeps, SystemPasses, OutsideKeeps, GlobalPath.Kept, ToSplit, InFlight, BatchOf, SystemNext, Announced, Ledgered, Advanced, PathMask, Joined,
         SimdSplitLedger.HeldOk, SimdSplitLedger.ChildOk, SimdSplitLedger.ResponseOk, SimdSplitLedger.LogOk, SentNow, Enters, PortLanes;
    BeforeFits(s, t, w, g, i);
    var n, x, id := SystemNext(s, i), ToSplit(s, i), i.request.value.id;
    EnteringQuiet(s, t, w, g, i);
    RecordedNext(s, i, id);
    assert SimdSplitLedger.RecordOk(n.split, id);
    if id in s.split.records {
      LedgerAt(s.split, x, id);
      if l in Advanced(s.split, x, id).sent {
        NewlySentLane(s, t, w, g, i, id, l);
        assert false;
      }
    } else {
      FreshRecord(s, i);
    }
  }

  lemma FreshRecord(s: System, i: Around)
    requires AroundShaped(i) && SystemPasses(s, i) && i.request.Some? && i.request.value.id !in s.split.records
    requires i.request.value.id in Ledgered(s.split, ToSplit(s, i))
    ensures Ledgered(s.split, ToSplit(s, i))[i.request.value.id].sent == {}
  {
    hide Passes, ProgressOf, ReadEvent, StoreEvents, SimdSplits.Follows, Takes, EnteringLanes, Advanced;
  }

  lemma ChildKeeps(s: System, t: CoalescerLedger.Trail, w: GlobalAdapterLedger.Wire, g: SimdSplitLedger.Log, i: Around, u: SimdSplitLedger.Log)
    requires Before(s, t, w, g, i) && SimdSplitLedger.Kept(SystemNext(s, i).split, u)
    ensures StateShaped(SystemNext(s, i).split) && SplitPath.ChildOk(SystemNext(s, i))
  {
    hide AroundKeeps, Passes, SimdSplits.Follows, OutsideKeeps, SimdSplitLedger.Kept, GlobalPath.Kept, ToSplit, Joined, Announced, Ledgered, PathNext,
         Takes, Submitted, Taken, Enters;
    BeforeFits(s, t, w, g, i);
    SimdSplitLedger.KeptShaped(SystemNext(s, i).split, u);
    HeldIs(s);
    if Enters(s.split, ToSplit(s, i), 0) {
      EnteringChild(s, t, w, g, i, u);
    } else if s.split.children[0].Some? && !Leaves(s.split, ToSplit(s, i), 0) {
      StayingChild(s, t, w, g, i, u);
    } else {
      CoalescerMoves(s, i);
    }
  }

  // ------------------------------------------------------------------------- the tables

  lemma TablesKeep(s: System, t: CoalescerLedger.Trail, w: GlobalAdapterLedger.Wire, g: SimdSplitLedger.Log, i: Around)
    requires Before(s, t, w, g, i) && StateShaped(SystemNext(s, i).split)
    ensures TablesOk(SystemNext(s, i))
  {
    hide CacheKeeps, CountersLeft, LocalKeeps, UnitKeeps, Passes, ReadEvent, StoreEvents, StalledOk, FlightsApart, FlightOk, CoalescerLedger.Kept,
         GlobalAdapterLedger.Kept, RecordLinked, LoadsApart, ReplyLinked, OutputLinked, ProgressOf, InFlight, BatchOf, PathMask, OutsideKeeps, SplitPath.ChildOk,
         LastOk, SimdSplits.Follows, SimdSplitLedger.Kept, Ledgered, Advanced, PathNext, Takes, Submitted, Taken, LanesOf;
    var n, x := SystemNext(s, i), ToSplit(s, i);
    forall id | id in n.released ensures id in n.split.records && PathMask(n.split.records[id].request.simd, 0) <= n.split.records[id].sent {
      if s.split.children[0].Some? { ChildIs(s, g); }
      LedgerAt(s.split, x, id);
      if id !in s.released {
        LeavingSent(s, x, id);
      }
    }
    forall id | id in n.progress ensures id in n.split.records && n.progress[id] <= n.split.records[id].sent {
      ReportedSent(s, w, i, id);
      LedgerAt(s.split, x, id);
    }
  }

  lemma LeavingSent(s: System, x: SplitInput, id: Identity)
    requires StateShaped(s.split) && InputShaped(x) && Leaves(s.split, x, 0) && s.split.children[0].value.id == id && id in s.split.records
    ensures s.split.children[0].value.simd.mask <= Advanced(s.split, x, id).sent
  {
    hide SentBy;
  }

  lemma ReportedSent(s: System, w: GlobalAdapterLedger.Wire, i: Around, id: Identity)
    requires Joined(s) && Linked(s.path) && GlobalAdapterLedger.Kept(s.path.a, w) && AroundKeeps(s, i) && SystemPasses(s, i)
    requires id in ProgressAfter(s, i)
    ensures id in s.split.records && ProgressAfter(s, i)[id] <= Advanced(s.split, ToSplit(s, i), id).sent
  {
    hide CacheKeeps, CountersLeft, LocalKeeps, UnitKeeps, Passes, ReadEvent, StoreEvents, StalledOk, FlightsApart, FlightOk, RecordLinked, LoadsApart,
         ReplyLinked, ProgressOf, InFlight, BatchOf, PathMask, SplitPath.ChildOk, LastOk, LanesOf, LeavingLanes, TakenLanes, StoredLanes, AnsweredLanes,
         GlobalAdapterLedger.Kept, OutputLinked;
    var x := ToSplit(s, i);
    SimdSplitLedger.LanesAppend(x.progress[0], x.progress[1], id);
    if ProgressOf(s, i) != [] {
      assert ProgressOk(s.split, 0, x.progress[0][0]);
      OwnProgress(s, i);
    }
  }

  lemma OwnProgress(s: System, i: Around)
    requires AroundShaped(i) && ProgressOf(s, i) != []
    ensures s.path.c.output.Some? && ProgressOf(s, i)[0].id == s.path.c.output.value.owner
  {
  }

  /** The coalescer's newest transaction after the edge. */
  lemma LastKeeps(s: System, t: CoalescerLedger.Trail, w: GlobalAdapterLedger.Wire, g: SimdSplitLedger.Log, i: Around)
    requires Before(s, t, w, g, i)
    ensures LastOk(SystemNext(s, i))
  {
    hide CacheKeeps, CountersLeft, LocalKeeps, Passes, ReadEvent, StoreEvents, StalledOk, FlightsApart, FlightOk, TablesOk, CoalescerLedger.Kept,
         GlobalAdapterLedger.Kept, Linked, ProgressOf, InFlight, BatchOf, PathMask, OutsideKeeps, CoalescingOrder.Accepts, PathNext, Ledgered, Announced,
         SimdSplitLedger.LogOk, SimdSplitLedger.ResponseOk, SimdSplits.Follows, SimdSplitLedger.Nested, Taken;
    var x := ToSplit(s, i);
    HeldIs(s);
    CoalescerMoves(s, i);
    if i.request.Some? {
      SimdSplitLedger.RequestHasLanes(s.split, x);
    }
    if s.split.children[0].Some? {
      ChildIs(s, g);
      var id := s.split.children[0].value.id;
      assert SimdSplitLedger.RecordOk(s.split, id);
      if !s.split.records[id].accepted {
        GlobalQueued(s.split.records[id].request.simd, s.split.submitted);
      }
    }
  }

  lemma GlobalQueued(r: Simd, paths: set<nat>)
    requires Shaped(r) && PathMask(r, 0) != {} && PathMask(r, 0) <= SimdSplitLedger.PathLanes(r, paths)
    ensures 0 in paths
  {
    PathsPartition(r);
  }

  // ------------------------------------------------------------------- the stalled reply

  lemma StalledKeeps(s: System, t: CoalescerLedger.Trail, w: GlobalAdapterLedger.Wire, g: SimdSplitLedger.Log, i: Around)
    requires Before(s, t, w, g, i)
    ensures StalledOk(SystemNext(s, i))
  {
    hide CacheKeeps, CountersLeft, LocalKeeps, UnitKeeps, AdapterFollows, StoreEvents, FlightsApart, FlightOk, TablesOk, CoalescerLedger.Kept, ReadEvent,
         GlobalAdapterLedger.Kept, Linked, ProgressOf, InFlight, BatchOf, OutsideKeeps, Ledgered, Announced, SplitPath.ChildOk, LastOk, PackedReply,
         SimdSplits.Follows, Takes, Submitted, Taken, Enters, SlotsAfter, AcquireAfter, AdapterNext, OfferOk, AcceptedOk, SendOk, ReplyHeld,
         SimdSplitLedger.Kept, ReplyShaped;
    var n, x, y := SystemNext(s, i), ToSplit(s, i), ToCoalescer(s.path, Inner(s, i));
    NoReadEvent(s.path.c);
    FreeIsFree(s.path.c, t);
    if n.split.heldReads[0].Some? {
      assert y.reply.Some? && !y.replyReady && n.path.c.heldReply == y.reply;
      var k := y.reply.value.id.slot;
      SlotAfter(s.path.c, y, k);
      SameEvent(s.path.c, n.path.c, y.reply.value);
    }
  }

  lemma SameEvent(a: CoalescerState, b: CoalescerState, r: BatchReply)
    requires r.id.slot < |a.slots| && |b.slots| == |a.slots|
    requires a.slots[r.id.slot].request == b.slots[r.id.slot].request && a.slots[r.id.slot].lanes == b.slots[r.id.slot].lanes
    ensures ReadEvent(a, Some(r)) == ReadEvent(b, Some(r))
  {
    var x, y := a.slots[r.id.slot], b.slots[r.id.slot];
    assert forall l: nat | l < LANES :: Payload(x, r, l) == Payload(y, r, l);
    assert AnsweredBy(x, r) == AnsweredBy(y, r);
    assert ReadEvent(a, Some(r)).value.data == ReadEvent(b, Some(r)).value.data;
  }

  // ------------------------------------------------------------------------ the theorems

  /**
   An edge of the connected split, coalescer and adapter: no check of any of them fails, and the
   ledgers of all three and their agreement are kept.
   */
  lemma SystemKeeps(s: System, t: CoalescerLedger.Trail, w: GlobalAdapterLedger.Wire, g: SimdSplitLedger.Log, i: Around)
    requires SplitPath.Kept(s, t, w, g) && AroundKeeps(s, i)
    ensures SystemPasses(s, i)
    ensures SplitPath.Kept(SystemNext(s, i), CoalescerLedger.Trailed(s.path.c, t, ToCoalescer(s.path, Inner(s, i))),
                           GlobalAdapterLedger.Wired(s.path.a, w, ToAdapter(s.path, Inner(s, i))), SimdSplitLedger.Logged(s.split, g, ToSplit(s, i)))
  {
    hide GlobalPath.Kept, SimdSplitLedger.Kept, CoalescerLedger.Trailed, GlobalAdapterLedger.Wired, SimdSplitLedger.Logged, CacheKeeps, CountersLeft, LocalKeeps,
         UnitKeeps, OutsideKeeps, Coalescers.Follows, AdapterFollows, SimdSplits.Follows, ToSplit, ToCoalescer, ToAdapter, PathNext, SimdSplits.Next,
         FlightOk, FlightsApart, SplitPath.ChildOk, TablesOk, LastOk, StalledOk, InFlight, Announced, Leaves, ProgressAfter;
    SystemFits(s, t, w, g, i);
    PathFits(s, t, w, g, i);
    PathKeeps(s.path, t, w, Inner(s, i));
    SimdSplitLedger.StepKeeps(s.split, g, ToSplit(s, i));
    var u := SimdSplitLedger.Logged(s.split, g, ToSplit(s, i));
    ChildKeeps(s, t, w, g, i, u);
    TablesKeep(s, t, w, g, i);
    LastKeeps(s, t, w, g, i);
    StalledKeeps(s, t, w, g, i);
    ApartKeeps(s, t, w, g, i);
    forall id | InFlight(SystemNext(s, i).path, id) ensures FlightOk(SystemNext(s, i), id) {
      FlightsKeep(s, t, w, g, i, id);
    }
  }

  predicate IsNew(s: System) {
    && s.split == EMPTY && CoalescerLedger.IsIdle(s.path.c) && s.path.c.heldReply.None? && s.path.a == IDLE
    && s.progress == map[] && s.released == {}
  }

  /** A run of the connected three; after a refused edge anything may follow. */
  ghost predicate IsRun(states: seq<System>, around: seq<Around>) {
    && |states| == |around| + 1 && IsNew(states[0])
    && forall k | 0 <= k < |around| ::
         AroundKeeps(states[k], around[k]) && (SystemPasses(states[k], around[k]) ==> states[k + 1] == SystemNext(states[k], around[k]))
  }

  lemma SystemStarts(s: System)
    requires IsNew(s)
    ensures SplitPath.Kept(s, CoalescerLedger.Trail(map[], [], []), GlobalAdapterLedger.Wire(map[], {}), SimdSplitLedger.Log([], map[]))
  {
    hide GlobalPath.Kept, SimdSplitLedger.Kept;
    PathStarts(s.path);
    SimdSplitLedger.Starts();
  }

  lemma {:induction false} RunKept(states: seq<System>, around: seq<Around>, k: nat)
    returns (t: CoalescerLedger.Trail, w: GlobalAdapterLedger.Wire, g: SimdSplitLedger.Log)
    requires IsRun(states, around) && k <= |around|
    ensures SplitPath.Kept(states[k], t, w, g) && forall j | 0 <= j < k :: AroundShaped(around[j]) && SystemPasses(states[j], around[j])
  {
    hide SplitPath.Kept, SystemNext, CacheKeeps, CountersLeft, LocalKeeps, UnitKeeps, SimdSplits.Follows, Coalescers.Follows, AdapterFollows, IsNew,
         ToSplit, ToCoalescer, ToAdapter;
    if k == 0 {
      SystemStarts(states[0]);
      t, w, g := CoalescerLedger.Trail(map[], [], []), GlobalAdapterLedger.Wire(map[], {}), SimdSplitLedger.Log([], map[]);
    } else {
      t, w, g := RunKept(states, around, k - 1);
      var s, i := states[k - 1], around[k - 1];
      SystemKeeps(s, t, w, g, i);
      t, w, g := CoalescerLedger.Trailed(s.path.c, t, ToCoalescer(s.path, Inner(s, i))),
                 GlobalAdapterLedger.Wired(s.path.a, w, ToAdapter(s.path, Inner(s, i))), SimdSplitLedger.Logged(s.split, g, ToSplit(s, i));
    }
  }

  /**
   In every run no check fails, so a run of the three is a run of the split and of the connected
   pair below it, and everything proved of their runs holds of it.
   */
  lemma SystemRuns(states: seq<System>, around: seq<Around>)
    returns (splits: seq<Split>, events: seq<SplitInput>, paths: seq<Path>, outside: seq<Outside>)
    requires IsRun(states, around)
    ensures |splits| == |states| && |events| == |around| && |paths| == |states| && |outside| == |around|
    ensures forall k | 0 <= k < |states| :: splits[k] == states[k].split && paths[k] == states[k].path
    ensures forall k | 0 <= k < |around| ::
              && AroundShaped(around[k]) && SystemPasses(states[k], around[k])
              && events[k] == ToSplit(states[k], around[k]) && outside[k] == Inner(states[k], around[k])
    ensures SimdSplitLedger.IsRun(splits, events) && GlobalPath.IsRun(paths, outside)
  {
    hide CacheKeeps, CountersLeft, LocalKeeps, UnitKeeps, SimdSplits.Follows, Passes, ToSplit, Inner, SimdSplits.Next, PathNext, CoalescerLedger.IsIdle,
         OutsideKeeps, SplitPath.Kept;
    var t, w, g := RunKept(states, around, |around|);
    forall k | 0 <= k < |around| ensures AroundShaped(around[k]) && SystemPasses(states[k], around[k]) && OutsideKeeps(states[k].path, Inner(states[k], around[k])) {
      assert AroundKeeps(states[k], around[k]);
      var t, w, g := RunKept(states, around, k);
      PathFits(states[k], t, w, g, around[k]);
    }
    splits := seq(|states|, k requires 0 <= k < |states| => states[k].split);
    paths := seq(|states|, k requires 0 <= k < |states| => states[k].path);
    events := seq(|around|, k requires 0 <= k < |around| => ToSplit(states[k], around[k]));
    outside := seq(|around|, k requires 0 <= k < |around| => Inner(states[k], around[k]));
    assert forall k | 0 <= k < |around| :: states[k + 1] == SystemNext(states[k], around[k]);
  }

  /** Over every run of the three, no progress event is ever filtered away while its request's child is there. */
  lemma FilterNeverActs(states: seq<System>, around: seq<Around>, k: nat)
    requires IsRun(states, around) && k < |around|
    ensures AroundShaped(around[k]) && ProgressOf(states[k], around[k]) == Moved(states[k], around[k])
  {
    hide Joined, CacheKeeps, CountersLeft, LocalKeeps, UnitKeeps, SystemPasses, CoalescerLedger.Kept, GlobalAdapterLedger.Kept, SimdSplitLedger.Kept,
         ProgressOf, Moved, RecordLinked, LoadsApart, ReplyLinked, SystemNext, IsNew;
    var t, w, g := RunKept(states, around, k);
    assert AroundKeeps(states[k], around[k]);
    FilterIdle(states[k], w, around[k]);
  }
}
