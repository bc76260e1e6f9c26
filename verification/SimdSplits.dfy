/**
 The SIMD split (timing/memsys/split.go): one request fans out to a global and a local
 path, each with its own progress, and a ledger puts the answers back together.
 */
module SimdSplits {
  import opened CacheTypes
  import opened Coalescing
  import CoalescingOrder

  /** Progress, a store receipt or a read reply: some lanes of one transaction, with one payload per lane. */
  datatype LaneEvent = LaneEvent(id: Identity, tag: nat, mask: Lanes, batch: BatchId, data: seq<nat>)

  datatype Record = Record(request: SimdRequest, queued: Lanes, sent: Lanes, arrived: Lanes, completed: Lanes,
                           released: Lanes, accepted: bool)

  datatype Split = Split(records: map<Identity, Record>, children: seq<Option<SimdRequest>>, response: Option<LaneEvent>,
                         held: Option<SimdRequest>, heldReads: seq<Option<LaneEvent>>, submitted: set<nat>,
                         last: nat, used: bool)

  datatype SplitInput = SplitInput(progress: seq<seq<LaneEvent>>, request: Option<SimdRequest>, pathReady: seq<bool>,
                                   returned: seq<Option<LaneEvent>>, stores: seq<seq<LaneEvent>>, responseReady: bool)

  const GLOBAL: nat := 0
  const LOCAL: nat := 1

  const EMPTY: Split := Split(map[], [None, None], None, None, [None, None], {}, 0, false)

  predicate StateShaped(s: Split) {
    && |s.children| == 2 && |s.heldReads| == 2
    && (forall id | id in s.records :: Shaped(s.records[id].request.simd))
    && (s.held.Some? ==> Shaped(s.held.value.simd))
    && (forall p | 0 <= p < 2 :: s.children[p].Some? ==> Shaped(s.children[p].value.simd))
  }

  predicate EventShaped(e: LaneEvent) {
    |e.data| == LANES && forall l | l in e.mask :: l < LANES
  }

  predicate InputShaped(i: SplitInput) {
    && |i.progress| == 2 && |i.pathReady| == 2 && |i.returned| == 2 && |i.stores| == 2
    && (i.request.Some? ==> Shaped(i.request.value.simd))
    && (forall p | 0 <= p < 2 :: i.returned[p].Some? ==> EventShaped(i.returned[p].value))
    && (forall p | 0 <= p < 2 :: forall k | 0 <= k < |i.stores[p]| :: EventShaped(i.stores[p][k]))
  }

  /** The lanes one path serves. */
  function PathMask(r: Simd, p: nat): (m: Lanes)
    requires Shaped(r)
    ensures m <= r.mask
  {
    set l | l in r.mask && r.lanes[l].local == (p == LOCAL)
  }

  lemma PathsPartition(r: Simd)
    requires Shaped(r)
    ensures PathMask(r, GLOBAL) !! PathMask(r, LOCAL) && PathMask(r, GLOBAL) + PathMask(r, LOCAL) == r.mask
  {
  }

  function Child(r: SimdRequest, p: nat): SimdRequest
    requires Shaped(r.simd)
  {
    r.(simd := r.simd.(mask := PathMask(r.simd, p)))
  }

  // ------------------------------------------------------------------------ validation

  predicate RequestOk(s: Split, r: SimdRequest)
    requires Shaped(r.simd)
  {
    && r.simd.mask != {} && Aligned(r.simd)
    && !(s.used && r.id.transaction <= s.last)
    && (PathMask(r.simd, GLOBAL) != {} ==> CoalescingOrder.Accepts(r.simd.(mask := PathMask(r.simd, GLOBAL))))
  }

  predicate ProgressOk(s: Split, p: nat, e: LaneEvent)
    requires StateShaped(s)
  {
    && e.id in s.records
    && var rec := s.records[e.id];
       && e.tag == rec.request.tag && e.mask != {} && e.mask <= PathMask(rec.request.simd, p)
       && e.mask <= rec.queued && e.mask !! rec.sent
  }

  /** Events of one transaction name different lanes. */
  predicate Apart(es: seq<LaneEvent>) {
    forall i, j | 0 <= i < j < |es| && es[i].id == es[j].id :: es[i].mask !! es[j].mask
  }

  function LanesOf(es: seq<LaneEvent>, id: Identity): Lanes
    decreases |es|
  {
    if es == [] then {} else LanesOf(es[..|es| - 1], id) + if es[|es| - 1].id == id then es[|es| - 1].mask else {}
  }

  function SentBy(s: Split, i: SplitInput, id: Identity): Lanes
    requires InputShaped(i) && id in s.records
  {
    s.records[id].sent + LanesOf(i.progress[0] + i.progress[1], id)
  }

  predicate CompletionOk(s: Split, i: SplitInput, p: nat, e: LaneEvent, write: bool)
    requires StateShaped(s) && InputShaped(i)
  {
    && e.id in s.records
    && var rec := s.records[e.id];
       && e.tag == rec.request.tag && rec.request.simd.write == write && e.mask != {}
       && e.mask <= PathMask(rec.request.simd, p) && e.mask <= SentBy(s, i, e.id) && e.mask !! rec.arrived
  }

  function Singly(e: Option<LaneEvent>): seq<LaneEvent> {
    if e.Some? then [e.value] else []
  }

  /** Everything returned in this edge, in the order it is checked. */
  function Completions(i: SplitInput): seq<LaneEvent>
    requires InputShaped(i)
  {
    Singly(i.returned[0]) + i.stores[0] + Singly(i.returned[1]) + i.stores[1]
  }

  /** A stalled reply stays, and keeps its lanes while it is the same fragment. */
  predicate StallOk(before: Option<LaneEvent>, now: Option<LaneEvent>) {
    before.Some? ==>
      && now.Some?
      && (before.value.id == now.value.id && before.value.batch == now.value.batch ==>
            && before.value.tag == now.value.tag && before.value.mask <= now.value.mask
            && forall l | l in before.value.mask && l < |before.value.data| && l < |now.value.data| ::
                 before.value.data[l] == now.value.data[l])
  }

  predicate ProgressesOk(s: Split, i: SplitInput)
    requires StateShaped(s) && InputShaped(i)
  {
    && (forall k | 0 <= k < |i.progress[0]| :: ProgressOk(s, 0, i.progress[0][k]))
    && (forall k | 0 <= k < |i.progress[1]| :: ProgressOk(s, 1, i.progress[1][k]))
    && Apart(i.progress[0] + i.progress[1])
  }

  predicate ReturnsOk(s: Split, i: SplitInput, p: nat)
    requires StateShaped(s) && InputShaped(i) && p < 2
  {
    && (i.returned[p].Some? ==> CompletionOk(s, i, p, i.returned[p].value, false))
    && (forall k | 0 <= k < |i.stores[p]| :: CompletionOk(s, i, p, i.stores[p][k], true))
  }

  predicate Follows(s: Split, i: SplitInput)
    requires StateShaped(s) && InputShaped(i)
  {
    && (s.held.Some? ==> i.request == s.held)
    && (i.request.Some? ==> RequestOk(s, i.request.value))
    && ProgressesOk(s, i)
    && StallOk(s.heldReads[0], i.returned[0]) && StallOk(s.heldReads[1], i.returned[1])
    && ReturnsOk(s, i, 0) && ReturnsOk(s, i, 1) && Apart(Completions(i))
  }

  // --------------------------------------------------------------------------- the edge

  predicate Leaves(s: Split, i: SplitInput, p: nat)
    requires |s.children| == 2 && InputShaped(i) && p < 2
  {
    s.children[p].Some? && i.pathReady[p]
  }

  predicate Answers(s: Split, i: SplitInput) {
    s.response.Some? && i.responseReady
  }

  /** The global path wins every contested grant; the one-entry buffer may refill as it empties. */
  function Taken(s: Split, i: SplitInput): Option<LaneEvent>
    requires InputShaped(i)
  {
    if s.response.Some? && !i.responseReady then None else if i.returned[0].Some? then i.returned[0] else i.returned[1]
  }

  function LeavingLanes(s: Split, i: SplitInput, id: Identity): Lanes
    requires |s.children| == 2 && InputShaped(i)
  {
    (if Leaves(s, i, 0) && s.children[0].value.id == id then s.children[0].value.simd.mask else {}) +
    (if Leaves(s, i, 1) && s.children[1].value.id == id then s.children[1].value.simd.mask else {})
  }

  function AnsweredLanes(s: Split, i: SplitInput, id: Identity): Lanes {
    if Answers(s, i) && s.response.value.id == id then s.response.value.mask else {}
  }

  function TakenLanes(s: Split, i: SplitInput, id: Identity): Lanes
    requires InputShaped(i)
  {
    LanesOf(Singly(Taken(s, i)), id)
  }

  function StoredLanes(i: SplitInput, id: Identity): Lanes
    requires InputShaped(i)
  {
    LanesOf(i.stores[0] + i.stores[1], id)
  }

  /** A record after the edge's progress, departures and answers. */
  function Advanced(s: Split, i: SplitInput, id: Identity): Record
    requires StateShaped(s) && InputShaped(i) && id in s.records
  {
    var rec := s.records[id];
    rec.(sent := SentBy(s, i, id) + LeavingLanes(s, i, id),
         released := rec.released + LeavingLanes(s, i, id),
         arrived := rec.arrived + TakenLanes(s, i, id) + StoredLanes(i, id),
         completed := rec.completed + AnsweredLanes(s, i, id) + StoredLanes(i, id))
  }

  /** The path's child of the offered request enters its buffer. */
  predicate Enters(s: Split, i: SplitInput, p: nat)
    requires StateShaped(s) && InputShaped(i) && p < 2
  {
    && i.request.Some? && PathMask(i.request.value.simd, p) != {} && p !in s.submitted
    && (s.children[p].None? || Leaves(s, i, p))
  }

  function Submitted(s: Split, i: SplitInput): set<nat>
    requires StateShaped(s) && InputShaped(i)
  {
    s.submitted + (if Enters(s, i, 0) then {0} else {}) + (if Enters(s, i, 1) then {1} else {})
  }

  predicate Takes(s: Split, i: SplitInput)
    requires StateShaped(s) && InputShaped(i)
  {
    && i.request.Some?
    && forall p | 0 <= p < 2 && PathMask(i.request.value.simd, p) != {} :: p in Submitted(s, i)
  }

  function EnteringLanes(s: Split, i: SplitInput): Lanes
    requires StateShaped(s) && InputShaped(i) && i.request.Some?
  {
    (if Enters(s, i, 0) then PathMask(i.request.value.simd, 0) else {}) +
    (if Enters(s, i, 1) then PathMask(i.request.value.simd, 1) else {})
  }

  /** The ledger before finished records are announced. */
  function Ledgered(s: Split, i: SplitInput): map<Identity, Record>
    requires StateShaped(s) && InputShaped(i)
  {
    var advanced := map id | id in s.records :: Advanced(s, i, id);
    if i.request.None? then advanced
    else
      var r := i.request.value;
      var rec := if r.id in advanced then advanced[r.id] else Record(r, {}, {}, {}, {}, {}, false);
      if r.id !in advanced && EnteringLanes(s, i) == {} then advanced
      else advanced[r.id := rec.(queued := rec.queued + EnteringLanes(s, i), accepted := rec.accepted || Takes(s, i))]
  }

  predicate Finished(rec: Record) {
    rec.accepted && rec.completed == rec.request.simd.mask && rec.released == rec.request.simd.mask
  }

  /** The transactions announced complete in this edge. */
  function Announced(s: Split, i: SplitInput): set<Identity>
    requires StateShaped(s) && InputShaped(i)
  {
    set id | id in Ledgered(s, i) && Finished(Ledgered(s, i)[id])
  }

  function ChildAfter(s: Split, i: SplitInput, p: nat): Option<SimdRequest>
    requires StateShaped(s) && InputShaped(i) && p < 2
  {
    if Enters(s, i, p) then Some(Child(i.request.value, p)) else if Leaves(s, i, p) then None else s.children[p]
  }

  /** The returned replies that stay waiting. */
  function Stalled(s: Split, i: SplitInput, p: nat): Option<LaneEvent>
    requires InputShaped(i) && p < 2
  {
    var ready := (s.response.None? || i.responseReady) && (p == 0 || i.returned[0].None?);
    if ready then None else i.returned[p]
  }

  function Next(s: Split, i: SplitInput): Split
    requires StateShaped(s) && InputShaped(i)
  {
    var records := Ledgered(s, i);
    var taken := Taken(s, i);
    Split(map id | id in records && !Finished(records[id]) :: records[id],
          [ChildAfter(s, i, 0), ChildAfter(s, i, 1)],
          if taken.Some? then taken else if Answers(s, i) then None else s.response,
          if i.request.Some? && !Takes(s, i) then i.request else None,
          [Stalled(s, i, 0), Stalled(s, i, 1)],
          if Takes(s, i) then {} else Submitted(s, i),
          if Takes(s, i) then i.request.value.id.transaction else s.last,
          s.used || Takes(s, i))
  }

  /** What the edge completes: the answer that leaves, and every store. */
  function Completed(s: Split, i: SplitInput): seq<LaneEvent>
    requires InputShaped(i)
  {
    (if Answers(s, i) then [s.response.value] else []) + i.stores[0] + i.stores[1]
  }
}
