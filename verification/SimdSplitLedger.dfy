/**
 What every run of the SIMD split keeps: the ledger's nested lane sets, one completion
 per lane, and one announcement per transaction.
 */
module SimdSplitLedger {
  import opened CacheTypes
  import opened Coalescing
  import opened SimdSplits
  import CoalescingOrder

  // ---------------------------------------------------------------- lanes of event lists

  lemma {:induction false} LanesWithin(es: seq<LaneEvent>, id: Identity, bound: Lanes)
    requires forall k | 0 <= k < |es| && es[k].id == id :: es[k].mask <= bound
    ensures LanesOf(es, id) <= bound
    decreases |es|
  {
    if es != [] {
      LanesWithin(es[..|es| - 1], id, bound);
    }
  }

  lemma {:induction false} LanesMissing(es: seq<LaneEvent>, id: Identity)
    requires forall k | 0 <= k < |es| :: es[k].id != id
    ensures LanesOf(es, id) == {}
    decreases |es|
  {
    if es != [] {
      LanesMissing(es[..|es| - 1], id);
    }
  }

  lemma {:induction false} LanesHold(es: seq<LaneEvent>, k: nat)
    requires k < |es|
    ensures es[k].mask <= LanesOf(es, es[k].id)
    decreases |es|
  {
    if k < |es| - 1 {
      LanesHold(es[..|es| - 1], k);
    }
  }

  lemma {:induction false} LanesAppend(a: seq<LaneEvent>, b: seq<LaneEvent>, id: Identity)
    ensures LanesOf(a + b, id) == LanesOf(a, id) + LanesOf(b, id)
    decreases |b|
  {
    if b == [] {
      assert a + b == a;
    } else {
      assert (a + b)[..|a + b| - 1] == a + b[..|b| - 1];
      LanesAppend(a, b[..|b| - 1], id);
    }
  }

  lemma LanesOne(e: LaneEvent, id: Identity)
    ensures LanesOf([e], id) == if e.id == id then e.mask else {}
  {
    assert [e][..0] == [];
  }

  /** Two lists apart, and apart from each other. */
  lemma ApartAppend(a: seq<LaneEvent>, b: seq<LaneEvent>)
    requires Apart(a) && Apart(b)
    requires forall i, j | 0 <= i < |a| && 0 <= j < |b| && a[i].id == b[j].id :: a[i].mask !! b[j].mask
    ensures Apart(a + b)
  {
    var c := a + b;
    forall i, j | 0 <= i < j < |c| && c[i].id == c[j].id ensures c[i].mask !! c[j].mask {
      if j < |a| {
        assert a[i].mask !! a[j].mask;
      } else if i >= |a| {
        assert b[i - |a|].mask !! b[j - |a|].mask;
      } else {
        assert a[i].mask !! b[j - |a|].mask;
      }
    }
  }

  // ------------------------------------------------------------------------ the invariant

  /** Completed lanes have arrived, arrived lanes were sent, sent lanes were queued, queued lanes were asked for. */
  predicate Nested(rec: Record) {
    && rec.completed <= rec.arrived <= rec.sent <= rec.queued <= rec.request.simd.mask
    && rec.released <= rec.sent && rec.request.simd.mask != {}
  }

  /** The lanes of the paths already submitted. */
  function PathLanes(r: Simd, paths: set<nat>): Lanes
    requires Shaped(r)
  {
    (if 0 in paths then PathMask(r, 0) else {}) + (if 1 in paths then PathMask(r, 1) else {})
  }

  predicate AllPaths(r: Simd, paths: set<nat>)
    requires Shaped(r)
  {
    forall p | 0 <= p < 2 && PathMask(r, p) != {} :: p in paths
  }

  predicate RecordOk(s: Split, id: Identity)
    requires StateShaped(s) && id in s.records
  {
    var rec := s.records[id];
    && rec.request.id == id && Nested(rec)
    && (rec.accepted ==> s.used && id.transaction <= s.last && rec.queued == rec.request.simd.mask)
    && (!rec.accepted ==> s.held == Some(rec.request) && rec.queued == PathLanes(rec.request.simd, s.submitted))
  }

  predicate HeldOk(s: Split)
    requires StateShaped(s)
  {
    if s.held.None? then s.submitted == {}
    else
      var r := s.held.value;
      && r.simd.mask != {} && !(s.used && r.id.transaction <= s.last)
      && (forall p | p in s.submitted :: p < 2 && PathMask(r.simd, p) != {})
      && !AllPaths(r.simd, s.submitted)
      && (s.submitted == {} <==> r.id !in s.records)
      && (r.id in s.records ==> s.records[r.id].request == r && !s.records[r.id].accepted)
  }

  predicate ChildOk(s: Split, p: nat)
    requires StateShaped(s) && p < 2
  {
    s.children[p].Some? ==>
      var c := s.children[p].value;
      && c.id in s.records && c == Child(s.records[c.id].request, p)
      && c.simd.mask != {} && c.simd.mask <= s.records[c.id].queued && c.simd.mask !! s.records[c.id].released
  }

  predicate ResponseOk(s: Split) {
    s.response.Some? ==>
      var e := s.response.value;
      && e.id in s.records && e.mask != {}
      && e.mask <= s.records[e.id].arrived && e.mask !! s.records[e.id].completed
  }

  /** What has been completed so far, and the transactions announced with their lanes. */
  datatype Log = Log(done: seq<LaneEvent>, announced: map<Identity, Lanes>)

  predicate LogOk(s: Split, g: Log) {
    && Apart(g.done)
    && (forall k | 0 <= k < |g.done| :: g.done[k].id in s.records || g.done[k].id in g.announced)
    && (forall id | id in s.records :: id !in g.announced && LanesOf(g.done, id) == s.records[id].completed)
    && (forall id | id in g.announced :: s.used && id.transaction <= s.last && LanesOf(g.done, id) == g.announced[id])
  }

  predicate Kept(s: Split, g: Log) {
    && StateShaped(s)
    && (forall id | id in s.records :: RecordOk(s, id))
    && HeldOk(s) && ChildOk(s, 0) && ChildOk(s, 1) && ResponseOk(s) && LogOk(s, g)
  }

  function Logged(s: Split, g: Log, i: SplitInput): Log
    requires StateShaped(s) && InputShaped(i)
  {
    var records := Ledgered(s, i);
    Log(g.done + Completed(s, i),
        g.announced + map id | id in Announced(s, i) && id in records :: records[id].request.simd.mask)
  }

  lemma KeptShaped(s: Split, g: Log)
    requires Kept(s, g)
    ensures StateShaped(s)
  {
  }

  lemma Starts()
    ensures Kept(EMPTY, Log([], map[]))
  {
  }

  // ------------------------------------------------------------------------- one record

  lemma ProgressWithin(s: Split, i: SplitInput, id: Identity)
    requires StateShaped(s) && InputShaped(i) && Follows(s, i) && id in s.records
    ensures LanesOf(i.progress[0] + i.progress[1], id) <= s.records[id].queued
  {
    hide Apart, RequestOk, StallOk, CompletionOk;
    var es := i.progress[0] + i.progress[1];
    forall k | 0 <= k < |es| && es[k].id == id ensures es[k].mask <= s.records[id].queued {
      if k < |i.progress[0]| {
        assert ProgressOk(s, 0, i.progress[0][k]);
      } else {
        assert ProgressOk(s, 1, i.progress[1][k - |i.progress[0]|]);
      }
    }
    LanesWithin(es, id, s.records[id].queued);
  }

  predicate StoreOk(s: Split, i: SplitInput, e: LaneEvent)
    requires StateShaped(s) && InputShaped(i)
  {
    e.id in s.records && e.mask != {} && e.mask <= SentBy(s, i, e.id) && e.mask !! s.records[e.id].arrived
  }

  /** Every store of the edge is for a live record and for lanes not yet arrived. */
  lemma StoresOk(s: Split, i: SplitInput, k: nat)
    requires StateShaped(s) && InputShaped(i) && Follows(s, i) && k < |i.stores[0] + i.stores[1]|
    ensures StoreOk(s, i, (i.stores[0] + i.stores[1])[k])
  {
    hide Apart, RequestOk, StallOk, ProgressOk, SentBy, PathMask;
    if k < |i.stores[0]| {
      assert CompletionOk(s, i, 0, i.stores[0][k], true);
    } else {
      assert CompletionOk(s, i, 1, i.stores[1][k - |i.stores[0]|], true);
    }
  }

  lemma StoresWithin(s: Split, i: SplitInput, id: Identity)
    requires StateShaped(s) && InputShaped(i) && Follows(s, i) && id in s.records
    ensures StoredLanes(i, id) <= SentBy(s, i, id) && StoredLanes(i, id) !! s.records[id].arrived
  {
    hide Follows, SentBy, LanesOf;
    var es := i.stores[0] + i.stores[1];
    var bound := SentBy(s, i, id) - s.records[id].arrived;
    forall k | 0 <= k < |es| && es[k].id == id ensures es[k].mask <= bound {
      StoresOk(s, i, k);
    }
    LanesWithin(es, id, bound);
  }

  lemma TakenWithin(s: Split, i: SplitInput, id: Identity)
    requires StateShaped(s) && InputShaped(i) && Follows(s, i) && id in s.records
    ensures TakenLanes(s, i, id) <= SentBy(s, i, id) && TakenLanes(s, i, id) !! s.records[id].arrived
  {
    hide Apart, RequestOk, StallOk, ProgressOk, SentBy, PathMask;
    var t := Taken(s, i);
    if t.Some? {
      LanesOne(t.value, id);
      assert CompletionOk(s, i, 0, t.value, false) || CompletionOk(s, i, 1, t.value, false);
    }
  }

  lemma LeavingWithin(s: Split, i: SplitInput, id: Identity)
    requires StateShaped(s) && InputShaped(i) && ChildOk(s, 0) && ChildOk(s, 1) && id in s.records
    ensures LeavingLanes(s, i, id) <= s.records[id].queued && LeavingLanes(s, i, id) !! s.records[id].released
  {
    hide PathMask;
  }

  lemma AnsweredWithin(s: Split, i: SplitInput, id: Identity)
    requires ResponseOk(s) && id in s.records
    ensures AnsweredLanes(s, i, id) <= s.records[id].arrived && AnsweredLanes(s, i, id) !! s.records[id].completed
  {
  }

  /** The chain of lane sets survives the edge. */
  lemma AdvancedNested(s: Split, g: Log, i: SplitInput, id: Identity)
    requires Kept(s, g) && InputShaped(i) && Follows(s, i) && id in s.records
    ensures Nested(Advanced(s, i, id))
  {
    hide Follows, ChildOk, ResponseOk, LogOk, HeldOk, LanesOf, LeavingLanes, AnsweredLanes, TakenLanes, StoredLanes;
    assert RecordOk(s, id);
    ProgressWithin(s, i, id);
    StoresWithin(s, i, id);
    TakenWithin(s, i, id);
    LeavingWithin(s, i, id);
    AnsweredWithin(s, i, id);
  }

  // ------------------------------------------------------------------- the offered request

  /** An offered request with a record is the held one, still unaccepted. */
  lemma OfferedHeld(s: Split, g: Log, i: SplitInput)
    requires Kept(s, g) && InputShaped(i) && Follows(s, i) && i.request.Some?
    ensures var r := i.request.value;
            && (r.id in s.records ==> s.held == Some(r) && s.records[r.id].request == r && !s.records[r.id].accepted)
            && (r.id !in s.records ==> s.submitted == {})
            && r.id !in g.announced
  {
    hide Apart, CompletionOk, ProgressOk, StallOk, Nested, PathLanes, AllPaths, CoalescingOrder.Accepts, Aligned;
    var r := i.request.value;
    if r.id in s.records {
      assert RecordOk(s, r.id);
    }
  }

  /** Every record but the offered one is accepted. */
  lemma OthersAccepted(s: Split, g: Log, i: SplitInput, id: Identity)
    requires Kept(s, g) && InputShaped(i) && Follows(s, i) && id in s.records
    requires i.request.Some? ==> i.request.value.id != id
    ensures s.records[id].accepted
  {
    hide Apart, CompletionOk, ProgressOk, StallOk, Nested, PathLanes, AllPaths, RequestOk, LogOk, ChildOk;
    assert RecordOk(s, id);
  }

  lemma SubmittedLanes(s: Split, i: SplitInput)
    requires StateShaped(s) && InputShaped(i) && i.request.Some?
    ensures PathLanes(i.request.value.simd, Submitted(s, i)) == PathLanes(i.request.value.simd, s.submitted) + EnteringLanes(s, i)
    ensures Takes(s, i) <==> AllPaths(i.request.value.simd, Submitted(s, i))
  {
  }

  lemma AllPathLanes(r: Simd, paths: set<nat>)
    requires Shaped(r) && AllPaths(r, paths)
    ensures PathLanes(r, paths) == r.mask
  {
    PathsPartition(r);
    assert PathMask(r, 0) != {} ==> 0 in paths;
    assert PathMask(r, 1) != {} ==> 1 in paths;
  }

  /** The record of the offered request after the edge, when it has one. */
  lemma OfferedRecord(s: Split, g: Log, i: SplitInput)
    requires Kept(s, g) && InputShaped(i) && Follows(s, i) && i.request.Some? && i.request.value.id in Ledgered(s, i)
    ensures var r := i.request.value;
            var rec := Ledgered(s, i)[r.id];
            && rec.request == r && Nested(rec) && rec.accepted == Takes(s, i)
            && rec.queued == PathLanes(r.simd, Submitted(s, i))
            && (rec.accepted ==> rec.queued == r.simd.mask)
  {
    hide Follows, ChildOk, ResponseOk, LogOk, LanesOf, Advanced, PathMask, Enters;
    var r := i.request.value;
    OfferedHeld(s, g, i);
    SubmittedLanes(s, i);
    RequestHasLanes(s, i);
    if r.id in s.records {
      assert RecordOk(s, r.id);
      AdvancedNested(s, g, i, r.id);
      AdvancedFrame(s, i, r.id);
    } else {
      assert PathLanes(r.simd, {}) == {};
    }
    EnteringWithin(s, i);
    if Takes(s, i) {
      AllPathLanes(r.simd, Submitted(s, i));
    }
  }

  lemma RequestHasLanes(s: Split, i: SplitInput)
    requires StateShaped(s) && InputShaped(i) && Follows(s, i) && i.request.Some?
    ensures i.request.value.simd.mask != {} && !(s.used && i.request.value.id.transaction <= s.last)
  {
    hide Apart, CompletionOk, ProgressOk, StallOk, CoalescingOrder.Accepts;
  }

  lemma EnteringWithin(s: Split, i: SplitInput)
    requires StateShaped(s) && InputShaped(i) && i.request.Some?
    ensures EnteringLanes(s, i) <= i.request.value.simd.mask
  {
  }

  lemma AdvancedFrame(s: Split, i: SplitInput, id: Identity)
    requires StateShaped(s) && InputShaped(i) && id in s.records
    ensures Advanced(s, i, id).request == s.records[id].request && Advanced(s, i, id).queued == s.records[id].queued
    ensures Advanced(s, i, id).accepted == s.records[id].accepted
  {
  }

  /** Any other record after the edge. */
  lemma OtherRecord(s: Split, g: Log, i: SplitInput, id: Identity)
    requires Kept(s, g) && InputShaped(i) && Follows(s, i) && id in Ledgered(s, i)
    requires i.request.Some? ==> i.request.value.id != id
    ensures id in s.records && Ledgered(s, i)[id] == Advanced(s, i, id) && Nested(Advanced(s, i, id))
    ensures Advanced(s, i, id).request == s.records[id].request && s.records[id].request.id == id
    ensures Advanced(s, i, id).accepted && Advanced(s, i, id).queued == s.records[id].request.simd.mask
    ensures s.used && id.transaction <= s.last
  {
    hide Follows, ChildOk, ResponseOk, LogOk, LanesOf, Advanced, PathMask, Enters, HeldOk;
    assert RecordOk(s, id);
    OthersAccepted(s, g, i, id);
    AdvancedNested(s, g, i, id);
    AdvancedFrame(s, i, id);
  }

  lemma NextShaped(s: Split, g: Log, i: SplitInput)
    requires Kept(s, g) && InputShaped(i) && Follows(s, i)
    ensures StateShaped(Next(s, i))
    ensures forall id | id in Next(s, i).records :: id in Ledgered(s, i) && Next(s, i).records[id] == Ledgered(s, i)[id]
  {
    hide Follows, Advanced, LogOk, ChildOk, ResponseOk, HeldOk, Takes, Submitted, PathMask;
    forall id | id in Ledgered(s, i) ensures Shaped(Ledgered(s, i)[id].request.simd) {
      if i.request.Some? && i.request.value.id == id {
        OfferedRecord(s, g, i);
      } else {
        OtherRecord(s, g, i, id);
      }
    }
    assert i.request.Some? ==> Shaped(Child(i.request.value, 0).simd) && Shaped(Child(i.request.value, 1).simd);
  }

  lemma NextRecords(s: Split, g: Log, i: SplitInput, id: Identity)
    requires Kept(s, g) && InputShaped(i) && Follows(s, i) && StateShaped(Next(s, i)) && id in Next(s, i).records
    ensures RecordOk(Next(s, i), id)
  {
    hide Follows, Enters, Advanced, LogOk, ChildOk, ResponseOk, HeldOk, Nested, PathLanes, Ledgered;
    NextShaped(s, g, i);
    if i.request.Some? {
      RequestHasLanes(s, i);
    }
    if i.request.Some? && i.request.value.id == id {
      OfferedRecord(s, g, i);
    } else {
      OtherRecord(s, g, i, id);
    }
  }

  lemma NextHeld(s: Split, g: Log, i: SplitInput)
    requires Kept(s, g) && InputShaped(i) && Follows(s, i) && StateShaped(Next(s, i))
    ensures HeldOk(Next(s, i))
  {
    hide Advanced, LogOk, ChildOk, ResponseOk, Nested, PathLanes, PathMask, LanesOf, Ledgered, Enters, EnteringLanes, Submitted,
         AllPaths, Apart, CompletionOk, ProgressOk, StallOk, RequestOk, Takes, RecordOk;
    if i.request.Some? {
      var r := i.request.value;
      RequestHasLanes(s, i);
      OfferedHeld(s, g, i);
      SubmittedLanes(s, i);
      SubmittedPaths(s, i);
      EntersLanes(s, i);
      OfferedIn(s, i);
      NextShaped(s, g, i);
      if r.id in Ledgered(s, i) {
        OfferedRecord(s, g, i);
      }
    } else {
      assert Submitted(s, i) == s.submitted by { NothingEnters(s, i); }
    }
  }

  lemma NothingEnters(s: Split, i: SplitInput)
    requires StateShaped(s) && InputShaped(i) && i.request.None?
    ensures Submitted(s, i) == s.submitted && !Takes(s, i)
  {
  }

  lemma SubmittedPaths(s: Split, i: SplitInput)
    requires StateShaped(s) && InputShaped(i) && i.request.Some?
    ensures s.submitted <= Submitted(s, i)
    ensures forall p | p in Submitted(s, i) :: p in s.submitted || (p < 2 && PathMask(i.request.value.simd, p) != {})
  {
  }

  lemma OfferedIn(s: Split, i: SplitInput)
    requires StateShaped(s) && InputShaped(i) && i.request.Some?
    ensures i.request.value.id in Ledgered(s, i) <==> i.request.value.id in s.records || EnteringLanes(s, i) != {}
  {
    hide Advanced;
  }

  lemma EntersLanes(s: Split, i: SplitInput)
    requires StateShaped(s) && InputShaped(i) && i.request.Some?
    ensures EnteringLanes(s, i) == {} <==> !Enters(s, i, 0) && !Enters(s, i, 1)
    ensures EnteringLanes(s, i) == {} <==> Submitted(s, i) == s.submitted
  {
    if Enters(s, i, 0) {
      assert 0 in Submitted(s, i) && 0 !in s.submitted;
    }
    if Enters(s, i, 1) {
      assert 1 in Submitted(s, i) && 1 !in s.submitted;
    }
  }

  // --------------------------------------------------------------------- children, answer

  lemma PathLanesApart(r: Simd, paths: set<nat>, p: nat)
    requires Shaped(r) && p < 2 && p !in paths
    ensures PathMask(r, p) !! PathLanes(r, paths)
  {
    PathsPartition(r);
  }

  /** A child that just entered its buffer. */
  lemma EnteredChild(s: Split, g: Log, i: SplitInput, p: nat)
    requires Kept(s, g) && InputShaped(i) && Follows(s, i) && StateShaped(Next(s, i)) && p < 2 && Enters(s, i, p)
    ensures ChildOk(Next(s, i), p)
  {
    hide Follows, LogOk, ChildOk, ResponseOk, HeldOk, LanesOf, Advanced, Takes, Submitted;
    var r := i.request.value;
    OfferedHeld(s, g, i);
    EnteredReleased(s, g, i, p);
    OfferedRecord(s, g, i);
    var rec := Ledgered(s, i)[r.id];
    assert PathMask(r.simd, p) <= EnteringLanes(s, i) <= rec.queued;
    assert rec.released != rec.request.simd.mask by {
      assert PathMask(r.simd, p) <= r.simd.mask;
    }
    assert Next(s, i).records[r.id] == rec;
    assert ChildOk(Next(s, i), p) by { ChildMeans(Next(s, i), p, r); }
  }

  lemma ChildMeans(s: Split, p: nat, r: SimdRequest)
    requires StateShaped(s) && p < 2 && Shaped(r.simd) && s.children[p] == Some(Child(r, p)) && r.id in s.records && s.records[r.id].request == r
    requires PathMask(r.simd, p) != {} && PathMask(r.simd, p) <= s.records[r.id].queued && PathMask(r.simd, p) !! s.records[r.id].released
    ensures ChildOk(s, p)
  {
  }

  /** None of an entering path's lanes has been released. */
  lemma EnteredReleased(s: Split, g: Log, i: SplitInput, p: nat)
    requires Kept(s, g) && InputShaped(i) && Follows(s, i) && p < 2 && Enters(s, i, p)
    ensures var r := i.request.value;
            r.id in Ledgered(s, i) && Ledgered(s, i)[r.id].released !! PathMask(r.simd, p) && EnteringLanes(s, i) != {}
  {
    hide Follows, LogOk, ResponseOk, LanesOf, PathMask, Takes, SentBy, TakenLanes, StoredLanes;
    var r := i.request.value;
    OfferedHeld(s, g, i);
    EntersLanes(s, i);
    if r.id in s.records {
      assert RecordOk(s, r.id);
      PathLanesApart(r.simd, s.submitted, p);
      LeavingWithin(s, i, r.id);
    }
  }

  /** A child that stays in its buffer. */
  lemma KeptChild(s: Split, g: Log, i: SplitInput, p: nat)
    requires Kept(s, g) && InputShaped(i) && Follows(s, i) && StateShaped(Next(s, i)) && p < 2
    requires !Enters(s, i, p) && !Leaves(s, i, p)
    ensures ChildOk(Next(s, i), p)
  {
    hide Follows, LogOk, ResponseOk, LanesOf, Takes, Submitted, Advanced, Ledgered, Enters, PathMask, HeldOk, ChildOk, LeavingLanes;
    if s.children[p].Some? {
      var c := s.children[p].value;
      ChildIs(s, p);
      var r := s.records[c.id].request;
      assert RecordOk(s, c.id);
      StayingLanes(s, i, p);
      StayingReleased(s, g, i, c.id);
      var rec := Ledgered(s, i)[c.id];
      assert !Finished(rec);
      assert Next(s, i).records[c.id] == rec;
      ChildMeans(Next(s, i), p, r);
    } else {
      NoChild(Next(s, i), p);
    }
  }

  lemma NoChild(s: Split, p: nat)
    requires StateShaped(s) && p < 2 && s.children[p].None?
    ensures ChildOk(s, p)
  {
  }

  lemma ChildIs(s: Split, p: nat)
    requires StateShaped(s) && p < 2 && ChildOk(s, p) && s.children[p].Some?
    ensures var c := s.children[p].value;
            && c.id in s.records && c == Child(s.records[c.id].request, p)
            && c.simd.mask != {} && c.simd.mask == PathMask(s.records[c.id].request.simd, p)
            && c.simd.mask <= s.records[c.id].request.simd.mask
            && c.simd.mask <= s.records[c.id].queued && c.simd.mask !! s.records[c.id].released
  {
  }

  lemma StayingReleased(s: Split, g: Log, i: SplitInput, id: Identity)
    requires Kept(s, g) && InputShaped(i) && Follows(s, i) && id in s.records
    ensures id in Ledgered(s, i) && s.records[id].queued <= Ledgered(s, i)[id].queued
    ensures Ledgered(s, i)[id].request == s.records[id].request
    ensures Ledgered(s, i)[id].released == s.records[id].released + LeavingLanes(s, i, id)
  {
    hide Follows, LogOk, ResponseOk, Ledgered, HeldOk, ChildOk, LeavingLanes;
    LedgerFrame(s, g, i, id);
  }

  lemma StayingLanes(s: Split, i: SplitInput, p: nat)
    requires StateShaped(s) && InputShaped(i) && ChildOk(s, 0) && ChildOk(s, 1) && p < 2 && s.children[p].Some? && !Leaves(s, i, p)
    ensures s.children[p].value.simd.mask !! LeavingLanes(s, i, s.children[p].value.id)
  {
    var c := s.children[p].value;
    PathsPartition(s.records[c.id].request.simd);
  }

  /** A live record stays, with its request, and everything the edge adds to it. */
  lemma LedgerFrame(s: Split, g: Log, i: SplitInput, id: Identity)
    requires Kept(s, g) && InputShaped(i) && Follows(s, i) && id in s.records
    ensures id in Ledgered(s, i)
    ensures var rec, now := Ledgered(s, i)[id], Advanced(s, i, id);
            && rec.request == s.records[id].request && s.records[id].queued <= rec.queued
            && rec.arrived == now.arrived && rec.completed == now.completed && rec.released == now.released && rec.sent == now.sent
  {
    hide Follows, LogOk, ChildOk, ResponseOk, HeldOk, LanesOf, Takes, SentBy, TakenLanes, StoredLanes, LeavingLanes, AnsweredLanes;
    AdvancedFrame(s, i, id);
  }

  lemma NextChildren(s: Split, g: Log, i: SplitInput, p: nat)
    requires Kept(s, g) && InputShaped(i) && Follows(s, i) && StateShaped(Next(s, i)) && p < 2
    ensures ChildOk(Next(s, i), p)
  {
    hide Follows, Ledgered, ChildOk, LogOk, ResponseOk, HeldOk, RecordOk, Enters, Takes, Submitted, Stalled;
    if Enters(s, i, p) {
      EnteredChild(s, g, i, p);
    } else if Leaves(s, i, p) {
      NoChild(Next(s, i), p);
    } else {
      KeptChild(s, g, i, p);
    }
  }

  /** A reply taken now is of another transaction than any store of this edge: one loads, the other stores. */
  lemma TakenApart(s: Split, i: SplitInput, k: nat)
    requires StateShaped(s) && InputShaped(i) && Follows(s, i) && Taken(s, i).Some? && k < |i.stores[0] + i.stores[1]|
    ensures Taken(s, i).value.id != (i.stores[0] + i.stores[1])[k].id
  {
    hide ProgressOk, StallOk, RequestOk, Apart, SentBy, PathMask;
    var e := (i.stores[0] + i.stores[1])[k];
    assert CompletionOk(s, i, if k < |i.stores[0]| then 0 else 1, e, true);
    assert CompletionOk(s, i, if i.returned[0].Some? then 0 else 1, Taken(s, i).value, false);
  }

  lemma TakenStores(s: Split, i: SplitInput)
    requires StateShaped(s) && InputShaped(i) && Follows(s, i) && Taken(s, i).Some?
    ensures StoredLanes(i, Taken(s, i).value.id) == {}
  {
    hide Follows, LanesOf;
    var t, es := Taken(s, i).value, i.stores[0] + i.stores[1];
    forall k | 0 <= k < |es| ensures es[k].id != t.id {
      TakenApart(s, i, k);
    }
    LanesMissing(es, t.id);
  }

  lemma TakenIs(s: Split, i: SplitInput)
    requires StateShaped(s) && InputShaped(i) && Follows(s, i) && Taken(s, i).Some?
    ensures var t := Taken(s, i).value;
            t.id in s.records && t.mask != {} && t.mask <= s.records[t.id].request.simd.mask && TakenLanes(s, i, t.id) == t.mask
  {
    hide Apart, RequestOk, StallOk, ProgressOk, SentBy;
    var t := Taken(s, i).value;
    LanesOne(t, t.id);
    assert CompletionOk(s, i, 0, t, false) || CompletionOk(s, i, 1, t, false);
  }

  lemma NextResponse(s: Split, g: Log, i: SplitInput)
    requires Kept(s, g) && InputShaped(i) && Follows(s, i)
    ensures ResponseOk(Next(s, i))
  {
    var n := Next(s, i);
    if n.response.Some? {
      hide Follows, LogOk, ChildOk, HeldOk, LanesOf, Takes, Submitted, SentBy, StoredLanes, TakenLanes, Ledgered, Enters, Nested, LeavingLanes;
      var e := n.response.value;
      if Taken(s, i).Some? {
        TakenIs(s, i);
        TakenStores(s, i);
      }
      assert RecordOk(s, e.id);
      StoresWithin(s, i, e.id);
      TakenWithin(s, i, e.id);
      AnsweredWithin(s, i, e.id);
      LedgerFrame(s, g, i, e.id);
      NestedMeans(s.records[e.id]);
      var rec := Ledgered(s, i)[e.id];
      assert e.mask <= rec.arrived && e.mask !! rec.completed;
      assert !Finished(rec);
      assert n.records[e.id] == rec;
    }
  }

  lemma NestedMeans(rec: Record)
    requires Nested(rec)
    ensures rec.completed <= rec.arrived && rec.arrived <= rec.request.simd.mask
  {
  }

  // ------------------------------------------------------------------------------ the log

  /** Whatever completes is for a live record, has some lane, and names only lanes not completed before. */
  lemma CompletedOk(s: Split, g: Log, i: SplitInput, k: nat)
    requires Kept(s, g) && InputShaped(i) && Follows(s, i) && k < |Completed(s, i)|
    ensures var e := Completed(s, i)[k];
            e.id in s.records && e.mask != {} && e.mask !! s.records[e.id].completed
  {
    hide Follows, LogOk, ChildOk, HeldOk, SentBy, Nested;
    var head := if Answers(s, i) then [s.response.value] else [];
    var e := Completed(s, i)[k];
    if k >= |head| {
      assert e == (i.stores[0] + i.stores[1])[k - |head|];
      StoresOk(s, i, k - |head|);
      assert RecordOk(s, e.id);
      NestedMeans(s.records[e.id]);
    }
  }

  lemma StoresApart(i: SplitInput)
    requires InputShaped(i) && Apart(Completions(i))
    ensures Apart(i.stores[0] + i.stores[1])
  {
    var all, es := Completions(i), i.stores[0] + i.stores[1];
    var a, b := |Singly(i.returned[0])|, |Singly(i.returned[1])|;
    forall k | 0 <= k < |es|
      ensures es[k] == all[if k < |i.stores[0]| then a + k else a + b + k]
    {
    }
    forall j, k | 0 <= j < k < |es| && es[j].id == es[k].id ensures es[j].mask !! es[k].mask {
      var x: int := if j < |i.stores[0]| then a + j else a + b + j;
      var y: int := if k < |i.stores[0]| then a + k else a + b + k;
      assert all[x] == es[j] && all[y] == es[k];
    }
  }

  lemma CompletedApart(s: Split, g: Log, i: SplitInput)
    requires Kept(s, g) && InputShaped(i) && Follows(s, i)
    ensures Apart(Completed(s, i))
  {
    hide LogOk, ChildOk, HeldOk, SentBy, Nested, CompletionOk, ProgressOk, StallOk, RequestOk;
    var head := if Answers(s, i) then [s.response.value] else [];
    var es := i.stores[0] + i.stores[1];
    StoresApart(i);
    forall x, y | 0 <= x < |head| && 0 <= y < |es| && head[x].id == es[y].id ensures head[x].mask !! es[y].mask {
      StoresOk(s, i, y);
    }
    ApartAppend(head, es);
    assert Completed(s, i) == head + es;
  }

  lemma DoneApart(s: Split, g: Log, i: SplitInput)
    requires Kept(s, g) && InputShaped(i) && Follows(s, i)
    ensures Apart(g.done + Completed(s, i))
  {
    hide Follows, ChildOk, HeldOk, ResponseOk, Completed, Apart, LanesOf, RecordOk;
    CompletedApart(s, g, i);
    var new_ := Completed(s, i);
    forall x, y | 0 <= x < |g.done| && 0 <= y < |new_| && g.done[x].id == new_[y].id ensures g.done[x].mask !! new_[y].mask {
      CompletedOk(s, g, i, y);
      LanesHold(g.done, x);
    }
    ApartAppend(g.done, new_);
  }

  lemma CompletedLanes(s: Split, i: SplitInput, id: Identity)
    requires InputShaped(i)
    ensures LanesOf(Completed(s, i), id) == AnsweredLanes(s, i, id) + StoredLanes(i, id)
  {
    var head := if Answers(s, i) then [s.response.value] else [];
    var es := i.stores[0] + i.stores[1];
    assert Completed(s, i) == head + es;
    LanesAppend(head, es, id);
    if Answers(s, i) {
      LanesOne(s.response.value, id);
    }
  }

  /** What a live record has completed is what the log holds for it. */
  lemma LiveLog(s: Split, g: Log, i: SplitInput, id: Identity)
    requires Kept(s, g) && InputShaped(i) && Follows(s, i) && id in Ledgered(s, i)
    ensures id !in g.announced && LanesOf(g.done + Completed(s, i), id) == Ledgered(s, i)[id].completed
  {
    hide Follows, ChildOk, HeldOk, ResponseOk, Completed, Apart, LanesOf, RecordOk, AnsweredLanes, StoredLanes, SentBy, TakenLanes, LeavingLanes;
    LanesAppend(g.done, Completed(s, i), id);
    if id in s.records {
      CompletedLanes(s, i, id);
      LedgerFrame(s, g, i, id);
    } else {
      OfferedHeld(s, g, i);
      assert forall k | 0 <= k < |g.done| :: g.done[k].id != id;
      forall k | 0 <= k < |Completed(s, i)| ensures Completed(s, i)[k].id != id {
        CompletedOk(s, g, i, k);
      }
      LanesMissing(g.done, id);
      LanesMissing(Completed(s, i), id);
    }
  }

  /** A finished transaction's lanes are in the log, once and for all. */
  lemma PastLog(s: Split, g: Log, i: SplitInput, id: Identity)
    requires Kept(s, g) && InputShaped(i) && Follows(s, i) && id in g.announced
    ensures id !in Ledgered(s, i) && LanesOf(g.done + Completed(s, i), id) == g.announced[id]
  {
    hide Follows, ChildOk, HeldOk, ResponseOk, Completed, Apart, LanesOf, RecordOk, Enters, Advanced;
    LanesAppend(g.done, Completed(s, i), id);
    if i.request.Some? {
      OfferedHeld(s, g, i);
    }
    forall k | 0 <= k < |Completed(s, i)| ensures Completed(s, i)[k].id != id {
      CompletedOk(s, g, i, k);
    }
    LanesMissing(Completed(s, i), id);
  }

  lemma LastGrows(s: Split, i: SplitInput)
    requires StateShaped(s) && InputShaped(i) && Follows(s, i)
    ensures s.used ==> Next(s, i).used && s.last <= Next(s, i).last
  {
    hide Ledgered, ChildAfter, Stalled, Submitted;
    if i.request.Some? {
      RequestHasLanes(s, i);
    }
  }

  /** A record that finishes was accepted, so its transaction is not newer than the last accepted. */
  lemma FinishedPast(s: Split, g: Log, i: SplitInput, id: Identity)
    requires Kept(s, g) && InputShaped(i) && Follows(s, i) && id in Announced(s, i)
    ensures id in Ledgered(s, i) && Next(s, i).used && id.transaction <= Next(s, i).last
    ensures Ledgered(s, i)[id].completed == Ledgered(s, i)[id].request.simd.mask
  {
    hide Follows, ChildOk, HeldOk, ResponseOk, LogOk, RecordOk, Ledgered, Nested, PathLanes, Takes;
    LastGrows(s, i);
    if i.request.Some? && i.request.value.id == id {
      OfferedRecord(s, g, i);
    } else {
      OtherRecord(s, g, i, id);
    }
  }

  lemma NextLog(s: Split, g: Log, i: SplitInput)
    requires Kept(s, g) && InputShaped(i) && Follows(s, i)
    ensures LogOk(Next(s, i), Logged(s, g, i))
  {
    hide Follows, ChildOk, HeldOk, ResponseOk, Completed, Apart, LanesOf, RecordOk, Ledgered, ChildAfter, Stalled, Takes, Submitted, Finished;
    var n, h := Next(s, i), Logged(s, g, i);
    DoneApart(s, g, i);
    LastGrows(s, i);
    forall id | id in n.records ensures id !in h.announced && LanesOf(h.done, id) == n.records[id].completed {
      LiveLog(s, g, i, id);
    }
    forall id | id in h.announced ensures n.used && id.transaction <= n.last && LanesOf(h.done, id) == h.announced[id] {
      if id in Announced(s, i) {
        FinishedPast(s, g, i, id);
        LiveLog(s, g, i, id);
      } else {
        PastLog(s, g, i, id);
      }
    }
    forall k | 0 <= k < |h.done| ensures h.done[k].id in n.records || h.done[k].id in h.announced {
      if k < |g.done| {
        if h.done[k].id in s.records { LedgerFrame(s, g, i, h.done[k].id); }
      } else {
        CompletedOk(s, g, i, k - |g.done|);
        LedgerFrame(s, g, i, h.done[k].id);
      }
    }
  }

  // --------------------------------------------------------------------------- the theorems

  /** One edge keeps everything, and announces only transactions never announced before. */
  lemma StepKeeps(s: Split, g: Log, i: SplitInput)
    requires Kept(s, g) && InputShaped(i) && Follows(s, i)
    ensures Kept(Next(s, i), Logged(s, g, i))
    ensures Announced(s, i) !! g.announced.Keys
  {
    hide Follows, ChildOk, HeldOk, ResponseOk, LogOk, RecordOk, Next, Logged;
    NextShaped(s, g, i);
    forall id | id in Next(s, i).records ensures RecordOk(Next(s, i), id) {
      NextRecords(s, g, i, id);
    }
    NextHeld(s, g, i);
    NextChildren(s, g, i, 0);
    NextChildren(s, g, i, 1);
    NextResponse(s, g, i);
    NextLog(s, g, i);
    forall id | id in g.announced ensures id !in Announced(s, i) {
      PastLog(s, g, i, id);
    }
  }

  /** A run: the states, and what each edge was given, never refused. */
  ghost predicate IsRun(states: seq<Split>, inputs: seq<SplitInput>) {
    && |states| == |inputs| + 1 && states[0] == EMPTY
    && forall k | 0 <= k < |inputs| ::
         StateShaped(states[k]) && InputShaped(inputs[k]) && Follows(states[k], inputs[k]) && states[k + 1] == Next(states[k], inputs[k])
  }

  ghost function LogAt(states: seq<Split>, inputs: seq<SplitInput>, k: nat): Log
    requires IsRun(states, inputs) && k <= |inputs|
  {
    if k == 0 then Log([], map[]) else Logged(states[k - 1], LogAt(states, inputs, k - 1), inputs[k - 1])
  }

  lemma {:induction false} RunKept(states: seq<Split>, inputs: seq<SplitInput>, k: nat)
    requires IsRun(states, inputs) && k <= |inputs|
    ensures Kept(states[k], LogAt(states, inputs, k))
  {
    hide Kept, Next, Logged, Follows;
    if k == 0 {
      Starts();
    } else {
      RunKept(states, inputs, k - 1);
      StepKeeps(states[k - 1], LogAt(states, inputs, k - 1), inputs[k - 1]);
    }
  }

  /** In every reachable state: completed within arrived within sent within queued within the request's mask. */
  lemma LanesNested(states: seq<Split>, inputs: seq<SplitInput>, k: nat, id: Identity)
    requires IsRun(states, inputs) && k <= |inputs| && id in states[k].records
    ensures Nested(states[k].records[id])
  {
    RunKept(states, inputs, k);
    assert RecordOk(states[k], id);
  }

  /**
   Over every run, no lane of a transaction is completed twice, and by the time a
   transaction is announced its completed lanes are exactly those it asked for.
   */
  lemma LanesCompleteOnce(states: seq<Split>, inputs: seq<SplitInput>, k: nat)
    requires IsRun(states, inputs) && k <= |inputs|
    ensures Apart(LogAt(states, inputs, k).done)
    ensures forall id | id in LogAt(states, inputs, k).announced ::
              LanesOf(LogAt(states, inputs, k).done, id) == LogAt(states, inputs, k).announced[id]
  {
    RunKept(states, inputs, k);
  }

  /** No transaction is announced by two edges of a run. */
  lemma AnnouncedOnce(states: seq<Split>, inputs: seq<SplitInput>, j: nat, k: nat, id: Identity)
    requires IsRun(states, inputs) && j < k < |inputs| && id in Announced(states[j], inputs[j])
    ensures id !in Announced(states[k], inputs[k])
  {
    hide Kept, Next, Follows, Announced;
    RunKept(states, inputs, k);
    StepKeeps(states[k], LogAt(states, inputs, k), inputs[k]);
    StaysAnnounced(states, inputs, j, k, id);
  }

  lemma {:induction false} StaysAnnounced(states: seq<Split>, inputs: seq<SplitInput>, j: nat, k: nat, id: Identity)
    requires IsRun(states, inputs) && j < k <= |inputs| && id in Announced(states[j], inputs[j])
    ensures id in LogAt(states, inputs, k).announced
    decreases k
  {
    hide Next, Follows, Finished, Ledgered;
    if k > j + 1 {
      StaysAnnounced(states, inputs, j, k - 1, id);
    }
  }
}
