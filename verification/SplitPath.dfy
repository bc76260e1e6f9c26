/**
 The SIMD split on top of the coalescer and the word adapter, connected as the memory system
 connects them (timing/memsys/system.go), with the system's own filter of progress events.
 */
module SplitPath {
  import opened CacheTypes
  import opened Coalescing
  import opened Coalescers
  import opened GlobalAdapters
  import opened GlobalPath
  import opened PathFlights
  import opened SimdSplits
  import CoalescingOrder
  import CoalescerLedger
  import GlobalAdapterLedger
  import SimdSplitLedger

  /** `progress` and `released`: the lanes reported as sent, and the requests whose child has left the split. */
  datatype System = System(split: Split, path: Path, progress: map<Identity, Lanes>, released: set<Identity>)

  /** What the load-store unit, the data cache and the local path bring to one edge. */
  datatype Around = Around(request: Option<SimdRequest>, responseReady: bool, accepted: seq<bool>, replies: seq<Option<WordReply>>,
                           stores: seq<StoreReceipt>, localReady: bool, localProgress: seq<LaneEvent>,
                           localReply: Option<LaneEvent>, localStores: seq<LaneEvent>)

  predicate AroundShaped(i: Around) {
    && |i.accepted| == 2 && |i.replies| == 2
    && (forall p | 0 <= p < 2 && i.replies[p].Some? :: |i.replies[p].value.data| == WORD_BYTES)
    && (i.request.Some? ==> Shaped(i.request.value.simd))
    && (i.localReply.Some? ==> EventShaped(i.localReply.value))
    && (forall k | 0 <= k < |i.localStores| :: EventShaped(i.localStores[k]))
  }

  // -------------------------------------------------------------------------- the wiring

  /** The split takes the global reply whenever it has room for one. */
  function Inner(s: System, i: Around): (o: Outside)
    requires AroundShaped(i) && StateShaped(s.split)
    ensures OutsideShaped(o)
  {
    Outside(s.split.children[0], i.accepted, i.replies, i.stores,
            (i.replies[0].Some? || i.replies[1].Some?) && (s.split.response.None? || i.responseReady))
  }

  const NO_BATCH: BatchId := BatchId(0, 0)

  /** One port of a batch, as lanes of its request. */
  function WordEvent(o: Offered, p: nat): LaneEvent {
    LaneEvent(o.owner, o.tag, PortLanes(o.batch, p), NO_BATCH, [0, 0, 0, 0])
  }

  function StoreEvents(a: Adapter, rs: seq<StoreReceipt>): seq<LaneEvent>
    requires forall k | 0 <= k < |rs| :: ReceiptOk(a, rs[k])
  {
    seq(|rs|, k requires 0 <= k < |rs| && ReceiptOk(a, rs[k]) => WordEvent(a.records[rs[k].transaction].batch, rs[k].port))
  }

  function Noted(m: map<Identity, Lanes>, id: Identity): Lanes {
    if id in m then m[id] else {}
  }

  /** The part of a word's progress not reported before. */
  function Unreported(o: Offered, p: nat, known: Lanes): seq<LaneEvent> {
    var mask := PortLanes(o.batch, p) - known;
    if mask == {} then [] else [WordEvent(o, p).(mask := mask)]
  }

  /** The progress events after the system's filter: none for a request whose child has left. */
  function ProgressOf(s: System, i: Around): seq<LaneEvent>
    requires AroundShaped(i)
  {
    if s.path.c.output.None? || s.path.c.output.value.owner in s.released then []
    else
      var o := s.path.c.output.value;
      var known := Noted(s.progress, o.owner);
      (if i.accepted[0] then Unreported(o, 0, known) else []) +
      (if i.accepted[1] then Unreported(o, 1, if i.accepted[0] then known + PortLanes(o.batch, 0) else known) else [])
  }

  function ProgressAfter(s: System, i: Around): map<Identity, Lanes>
    requires AroundShaped(i)
  {
    if ProgressOf(s, i) == [] then s.progress
    else
      var o := s.path.c.output.value;
      s.progress[o.owner := Noted(s.progress, o.owner) + LanesOf(ProgressOf(s, i), o.owner)]
  }

  /** One lane's bytes and error as a payload. */
  function Payload(s: Slot, r: BatchReply, l: nat): nat {
    if ReplyShaped(r) && Shaped(s.request.simd) && Aligned(s.request.simd) && l in s.request.simd.mask && l / 2 < 2 then
      Number(LaneReply(s, r, l)) * 2 + if r.failed[l / 2] then 1 else 0
    else 0
  }

  function Number(bytes: seq<bv8>): nat {
    if bytes == [] then 0 else bytes[0] as nat + 256 * Number(bytes[1..])
  }

  /** The batch reply spread over the lanes of the batch it names. */
  function ReadEvent(c: CoalescerState, r: Option<BatchReply>): Option<LaneEvent> {
    if r.None? || r.value.id.slot >= |c.slots| then None
    else
      var s := c.slots[r.value.id.slot];
      Some(LaneEvent(s.request.id, s.request.tag, AnsweredBy(s, r.value), r.value.id,
                     seq(LANES, l requires 0 <= l < LANES => Payload(s, r.value, l))))
  }

  function ToSplit(s: System, i: Around): SplitInput
    requires AroundShaped(i) && StateShaped(s.split) && Passes(s.path, Inner(s, i))
  {
    var o := Inner(s, i);
    SplitInput([ProgressOf(s, i), i.localProgress], i.request, [Finishes(s.path.c, ToCoalescer(s.path, o)), i.localReady],
               [ReadEvent(s.path.c, PackedReply(s.path.a, ToAdapter(s.path, o))), i.localReply],
               [StoreEvents(s.path.a, i.stores), i.localStores], i.responseReady)
  }

  /** The checks of all three components. */
  predicate SystemPasses(s: System, i: Around)
    requires AroundShaped(i)
  {
    && StateShaped(s.split) && Passes(s.path, Inner(s, i))
    && InputShaped(ToSplit(s, i)) && SimdSplits.Follows(s.split, ToSplit(s, i))
  }

  function SystemNext(s: System, i: Around): System
    requires AroundShaped(i) && SystemPasses(s, i)
  {
    var x := ToSplit(s, i);
    var over := Announced(s.split, x);
    var leaving := if Leaves(s.split, x, 0) then {s.split.children[0].value.id} else {};
    System(SimdSplits.Next(s.split, x), PathNext(s.path, Inner(s, i)), ProgressAfter(s, i) - over, s.released + leaving - over)
  }

  // -------------------------------------------------------------------- the other parties

  /** The local path: its completions are of its own lanes, sent and not yet arrived. */
  predicate LocalDone(s: System, i: Around, e: LaneEvent, write: bool)
    requires StateShaped(s.split)
  {
    && e.id in s.split.records
    && var rec := s.split.records[e.id];
       && e.tag == rec.request.tag && rec.request.simd.write == write && e.mask != {}
       && e.mask <= PathMask(rec.request.simd, 1) && e.mask <= rec.sent + LanesOf(i.localProgress, e.id) && e.mask !! rec.arrived
  }

  predicate LocalKeeps(s: System, i: Around)
    requires StateShaped(s.split)
  {
    && (forall k | 0 <= k < |i.localProgress| :: ProgressOk(s.split, 1, i.localProgress[k])) && Apart(i.localProgress)
    && (i.localReply.Some? ==> LocalDone(s, i, i.localReply.value, false))
    && (forall k | 0 <= k < |i.localStores| :: LocalDone(s, i, i.localStores[k], true))
    && Apart(Singly(i.localReply) + i.localStores) && StallOk(s.split.heldReads[1], i.localReply)
  }

  /** The load-store unit: it holds a stalled request and offers only requests the split can take. */
  predicate UnitKeeps(s: System, i: Around)
    requires AroundShaped(i)
  {
    (s.split.held.Some? ==> i.request == s.split.held) && (i.request.Some? ==> RequestOk(s.split, i.request.value))
  }

  predicate AroundKeeps(s: System, i: Around) {
    && AroundShaped(i) && StateShaped(s.split) && |s.path.a.heldReads| == 2
    && CacheKeeps(s.path, Inner(s, i)) && CountersLeft(s.path) && LocalKeeps(s, i) && UnitKeeps(s, i)
  }

  // ------------------------------------------------------------------------ the invariant

  /** One word of a request: sent lanes are recorded as sent, unanswered ones have not arrived, unsent ones are not recorded as sent. */
  predicate WordOk(rec: Record, free: bool, lanes: Lanes, sent: bool, done: bool) {
    && (sent ==> lanes <= rec.sent) && (!done ==> lanes !! rec.arrived) && (!sent && !free ==> lanes !! rec.sent)
  }

  /** A batch in flight, against the record of the request it was made from. */
  predicate Placed(s: System, o: Offered, sent: Channels, done: Channels)
    requires StateShaped(s.split)
  {
    && o.owner in s.split.records && |o.batch.words| == 2 && BatchOk(o.batch)
    && var rec := s.split.records[o.owner];
       && o.tag == rec.request.tag && o.write == rec.request.simd.write
       && o.batch.lanes <= PathMask(rec.request.simd, 0) <= rec.queued
       && (forall p | 0 <= p < 2 :: WordOk(rec, o.owner in s.released, PortLanes(o.batch, p), p in sent, p in done))
       && (o.owner !in s.released ==> s.split.children[0].Some? && s.split.children[0].value.id == o.owner)
  }

  predicate FlightOk(s: System, id: nat)
    requires StateShaped(s.split) && InFlight(s.path, id)
  {
    Placed(s, BatchOf(s.path, id), SentOf(s.path, id), DoneOf(s.path, id))
  }

  /** Two batches of one request carry different lanes. */
  ghost predicate FlightsApart(s: System) {
    forall x, y | InFlight(s.path, x) && InFlight(s.path, y) && x != y && BatchOf(s.path, x).owner == BatchOf(s.path, y).owner ::
      BatchOf(s.path, x).batch.lanes !! BatchOf(s.path, y).batch.lanes
  }

  /** The request at the coalescer: the lanes it has still to send are untouched everywhere. */
  ghost predicate ChildOk(s: System)
    requires StateShaped(s.split)
  {
    && (s.path.c.held.Some? ==> s.split.children[0] == s.path.c.held)
    && (s.split.children[0].Some? ==>
          var ch, c := s.split.children[0].value, s.path.c;
          && ch.id in s.split.records && ch.id !in s.released && CoalescingOrder.Accepts(ch.simd)
          && !(c.used && ch.id.transaction <= c.last)
          && ch.simd.mask * c.remaining !! s.split.records[ch.id].sent && ch.simd.mask * c.remaining !! s.split.records[ch.id].arrived
          && forall id | InFlight(s.path, id) && BatchOf(s.path, id).owner == ch.id :: BatchOf(s.path, id).batch.lanes !! c.remaining)
  }

  /** The system's own two tables speak of live requests only, and of lanes recorded as sent. */
  predicate TablesOk(s: System)
    requires StateShaped(s.split)
  {
    && (forall id | id in s.released :: id in s.split.records && PathMask(s.split.records[id].request.simd, 0) <= s.split.records[id].sent)
    && (forall id | id in s.progress :: id in s.split.records && s.progress[id] <= s.split.records[id].sent)
  }

  /** The coalescer's newest transaction is one the split has taken, or has sent down the global path. */
  predicate LastOk(s: System) {
    s.path.c.used ==>
      || (s.split.used && s.path.c.last <= s.split.last)
      || (s.split.held.Some? && 0 in s.split.submitted && s.path.c.last <= s.split.held.value.id.transaction)
  }

  /** A stalled global reply in the split is the one stalled in the coalescer. */
  predicate StalledOk(s: System) {
    && |s.split.heldReads| == 2
    && (s.split.heldReads[0].Some? ==>
          s.path.c.heldReply.Some? && ReplyShaped(s.path.c.heldReply.value) && s.split.heldReads[0] == ReadEvent(s.path.c, s.path.c.heldReply))
  }

  ghost predicate Joined(s: System) {
    && StateShaped(s.split) && (forall id | InFlight(s.path, id) :: FlightOk(s, id)) && FlightsApart(s)
    && ChildOk(s) && TablesOk(s) && LastOk(s) && StalledOk(s)
  }

  ghost predicate Kept(s: System, t: CoalescerLedger.Trail, w: GlobalAdapterLedger.Wire, g: SimdSplitLedger.Log) {
    GlobalPath.Kept(s.path, t, w) && SimdSplitLedger.Kept(s.split, g) && Joined(s)
  }
}
