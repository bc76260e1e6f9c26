/** The coalescer as the object it is, with its validation loops (timing/memsys/coalescer.go). */
module CoalescerClass {
  import opened CacheTypes
  import opened Coalescing
  import opened Coalescers
  import CoalescingOrder
  import CoalescerLedger

  // ------------------------------------------------------------------- global validation

  /** Every lane carried has the attribute of the word it travels in. */
  method CheckUniform(r: Simd, b: Batch) returns (ok: bool)
    requires Shaped(r) && |b.words| == 2
    ensures ok == CoalescingOrder.Uniform(r, b)
  {
    var lane := 0;
    while lane < LANES
      invariant lane <= LANES
      invariant forall l: nat | l < lane && l in b.lanes && b.words[l / 2].Some? :: r.lanes[l].noncacheable == b.words[l / 2].value.noncacheable
    {
      if lane in b.lanes && b.words[lane / 2].Some? && r.lanes[lane].noncacheable != b.words[lane / 2].value.noncacheable {
        return false;
      }
      lane := lane + 1;
    }
    ok := true;
  }

  /** The request's batches in order, each with one attribute per word. */
  method CollectBatches(r: Simd) returns (ok: bool, bs: seq<Batch>)
    requires Shaped(r) && Aligned(r)
    ensures forall k | 0 <= k < |Batches(r, r.mask)| :: |Batches(r, r.mask)[k].words| == 2
    ensures ok == forall k | 0 <= k < |Batches(r, r.mask)| :: CoalescingOrder.Uniform(r, Batches(r, r.mask)[k])
    ensures ok ==> bs == Batches(r, r.mask)
  {
    hide CoalescingOrder.Uniform, MakeBatch, Batches;
    var remaining := r.mask;
    bs := [];
    CoalescingOrder.BatchesShaped(r, r.mask);
    NoBatches(r);
    ghost var all := Batches(r, r.mask);
    while remaining != {}
      invariant remaining <= r.mask && bs + Batches(r, remaining) == all
      invariant forall k | 0 <= k < |bs| :: CoalescingOrder.Uniform(r, all[k])
      decreases |remaining|
    {
      var b := BuildBatch(r, remaining);
      BatchesNext(r, remaining);
      assert all[|bs|] == b;
      ok := CheckUniform(r, b);
      if !ok {
        return;
      }
      assert bs + ([b] + Batches(r, remaining - b.lanes)) == bs + [b] + Batches(r, remaining - b.lanes);
      bs := bs + [b];
      remaining := remaining - b.lanes;
    }
    assert bs + [] == bs;
    ok := true;
  }

  lemma NoBatches(r: Simd)
    requires Shaped(r) && Aligned(r)
    ensures Batches(r, {}) == []
  {
  }

  method SameBytes(x: WordRequest, y: WordRequest) returns (ok: bool)
    requires WordShaped(x) && WordShaped(y)
    ensures ok == CoalescingOrder.SameBytes(x, y)
  {
    if x.address != y.address {
      return true;
    }
    var k := 0;
    while k < WORD_BYTES
      invariant k <= WORD_BYTES && forall j | 0 <= j < k && x.enables[j] && y.enables[j] :: x.data[j] == y.data[j]
    {
      if x.enables[k] && y.enables[k] && x.data[k] != y.data[k] {
        return false;
      }
      k := k + 1;
    }
    ok := true;
  }

  /** The words of one port are the words its batches hold for it. */
  lemma {:induction false} PortHas(bs: seq<Batch>, g: nat, w: WordRequest)
    requires (forall k | 0 <= k < |bs| :: |bs[k].words| == 2) && g < 2
    ensures w in CoalescingOrder.PortWords(bs, g) <==> exists k :: 0 <= k < |bs| && bs[k].words[g] == Some(w)
    decreases |bs|
  {
    if bs != [] {
      PortHas(bs[1..], g, w);
      assert forall k | 0 < k < |bs| :: bs[k] == bs[1..][k - 1];
      if w in CoalescingOrder.PortWords(bs[1..], g) {
        var k :| 0 <= k < |bs[1..]| && bs[1..][k].words[g] == Some(w);
        assert bs[k + 1].words[g] == Some(w);
      }
    }
  }

  ghost predicate PairAgrees(bs: seq<Batch>, a: nat, b: nat)
    requires (forall k | 0 <= k < |bs| :: |bs[k].words| == 2) && a < |bs| && b < |bs|
  {
    bs[a].words[0].Some? && bs[b].words[1].Some? && WordShaped(bs[a].words[0].value) && WordShaped(bs[b].words[1].value) ==>
      CoalescingOrder.SameBytes(bs[a].words[0].value, bs[b].words[1].value)
  }

  lemma PairsAgree(bs: seq<Batch>)
    requires forall k | 0 <= k < |bs| :: |bs[k].words| == 2
    requires CoalescingOrder.AllShaped(CoalescingOrder.PortWords(bs, 0)) && CoalescingOrder.AllShaped(CoalescingOrder.PortWords(bs, 1))
    ensures (forall a: nat, b: nat | a < |bs| && b < |bs| :: PairAgrees(bs, a, b)) <==>
            CoalescingOrder.Agree(CoalescingOrder.PortWords(bs, 0), CoalescingOrder.PortWords(bs, 1))
  {
    hide CoalescingOrder.SameBytes, CoalescingOrder.PortWords;
    var x, y := CoalescingOrder.PortWords(bs, 0), CoalescingOrder.PortWords(bs, 1);
    if forall a: nat, b: nat | a < |bs| && b < |bs| :: PairAgrees(bs, a, b) {
      forall i, j | 0 <= i < |x| && 0 <= j < |y| ensures CoalescingOrder.SameBytes(x[i], y[j]) {
        PortHas(bs, 0, x[i]);
        PortHas(bs, 1, y[j]);
        var a :| 0 <= a < |bs| && bs[a].words[0] == Some(x[i]);
        var b :| 0 <= b < |bs| && bs[b].words[1] == Some(y[j]);
        assert PairAgrees(bs, a, b);
      }
    }
    if CoalescingOrder.Agree(x, y) {
      forall a: nat, b: nat | a < |bs| && b < |bs| ensures PairAgrees(bs, a, b) {
        if bs[a].words[0].Some? && bs[b].words[1].Some? {
          PortHas(bs, 0, bs[a].words[0].value);
          PortHas(bs, 1, bs[b].words[1].value);
          var i :| 0 <= i < |x| && x[i] == bs[a].words[0].value;
          var j :| 0 <= j < |y| && y[j] == bs[b].words[1].value;
          assert CoalescingOrder.SameBytes(x[i], y[j]);
        }
      }
    }
  }

  predicate WordsShaped(bs: seq<Batch>) {
    forall k | 0 <= k < |bs| ::
      |bs[k].words| == 2 && (bs[k].words[0].Some? ==> WordShaped(bs[k].words[0].value)) && (bs[k].words[1].Some? ==> WordShaped(bs[k].words[1].value))
  }

  /** The cross-port comparison of every pair of batches. */
  method CheckOverlaps(bs: seq<Batch>) returns (ok: bool)
    requires WordsShaped(bs)
    ensures ok == forall a: nat, b: nat | a < |bs| && b < |bs| :: PairAgrees(bs, a, b)
  {
    hide CoalescingOrder.SameBytes;
    var a := 0;
    while a < |bs|
      invariant a <= |bs| && forall x: nat, y: nat | x < a && y < |bs| :: PairAgrees(bs, x, y)
    {
      var b := 0;
      while b < |bs|
        invariant b <= |bs| && forall y: nat | y < b :: PairAgrees(bs, a, y)
      {
        if bs[a].words[0].Some? && bs[b].words[1].Some? {
          ok := SameBytes(bs[a].words[0].value, bs[b].words[1].value);
          if !ok {
            assert !PairAgrees(bs, a, b);
            return;
          }
        }
        b := b + 1;
      }
      a := a + 1;
    }
    ok := true;
  }

  /** Whether the global side takes the request: its checks, in order. */
  method ValidateGlobal(r: Simd) returns (ok: bool)
    requires Shaped(r)
    ensures ok == CoalescingOrder.Accepts(r)
  {
    hide CoalescingOrder.Uniform, Batches, CoalescingOrder.Words;
    if r.mask == {} {
      return false;
    }
    var lane := 0;
    while lane < LANES
      invariant lane <= LANES
      invariant forall l | l in r.mask && l < lane :: r.lanes[l].address % 4 == 0 && !r.lanes[l].local
    {
      if lane in r.mask && (r.lanes[lane].address % 4 != 0 || r.lanes[lane].local) {
        return false;
      }
      lane := lane + 1;
    }
    assert Aligned(r);
    var bs;
    ok, bs := CollectBatches(r);
    if !ok || !r.write {
      return;
    }
    BatchWordsShaped(r, r.mask);
    ok := CheckOverlaps(bs);
    CoalescingOrder.PlansShaped(r);
    WordsAre(r);
    PairsAgree(bs);
  }

  lemma WordsAre(r: Simd)
    requires Shaped(r) && Aligned(r)
    ensures forall k | 0 <= k < |Batches(r, r.mask)| :: |Batches(r, r.mask)[k].words| == 2
    ensures forall g: nat | g < 2 :: CoalescingOrder.Words(r, r.mask, g) == CoalescingOrder.PortWords(Batches(r, r.mask), g)
  {
    CoalescingOrder.BatchesShaped(r, r.mask);
  }

  lemma {:induction false} BatchWordsShaped(r: Simd, remaining: set<nat>)
    requires Shaped(r) && Aligned(r) && remaining <= r.mask
    ensures WordsShaped(Batches(r, remaining))
    decreases |remaining|
  {
    if remaining != {} {
      SeedTaken(r, remaining);
      var b := MakeBatch(r, remaining);
      Smaller(remaining - b.lanes, remaining);
      BatchWordsShaped(r, remaining - b.lanes);
    }
  }

  // ---------------------------------------------------------------------------- the object

  class Coalescer {
    var slots: seq<Slot>
    var acquire: nat
    var held: Option<SimdRequest>
    var output: Option<Offered>
    var send: bool
    var prepared: Batch
    var remaining: Lanes
    var last: nat
    var used: bool
    var heldResponse: Option<BatchReply>
    ghost var trail: CoalescerLedger.Trail

    function State(): CoalescerState
      reads this
    {
      CoalescerState(slots, acquire, held, output, send, prepared, remaining, last, used, heldResponse)
    }

    ghost predicate Valid()
      reads this
    {
      CoalescerLedger.Kept(State(), trail)
    }

    constructor (capacity: nat, blank: SimdRequest)
      requires capacity > 0
      ensures Valid() && CoalescerLedger.IsIdle(State()) && |slots| == capacity && trail == CoalescerLedger.Trail(map[], [], [])
    {
      slots := seq(capacity, _ => Slot(false, 0, blank, {}, {}, {}));
      acquire, held, output, send := 0, None, None, false;
      prepared, remaining, last, used, heldResponse := Batch({}, [None, None]), ALL_LANES, 0, false, None;
      trail := CoalescerLedger.Trail(map[], [], []);
      new;
      CoalescerLedger.Starts(State());
    }

    /** Everything the edge is refused for. */
    method Validate(i: CoalescerInput) returns (ok: bool)
      requires SlotsFit(State()) && InputFits(i)
      ensures ok == Follows(State(), i)
    {
      hide CoalescingOrder.Accepts, ReplyHeld;
      if held.Some? && i.request != held {
        return false;
      }
      if i.request.Some? {
        ok := ValidateGlobal(i.request.value.simd);
        if !ok || (used && i.request.value.id.transaction <= last) {
          return false;
        }
      }
      if !AcceptedOk(State(), i.accepted) || !ReplyHeld(heldResponse, i.reply) {
        return false;
      }
      if i.reply.Some? && !ReplyOk(State(), i.reply.value) {
        return false;
      }
      var free := LowestFree(slots);
      CoalescerLedger.FirstFreeFinds(slots);
      ok := !send || (free < |slots| && held.Some? && (held.value.simd.write || slots[acquire].generation < LAST_GENERATION));
    }

    /** A reply spread over the lanes of its batch; refused unless it names a current batch's sent, unanswered channels. */
    method Preview(r: BatchReply) returns (ok: bool, mask: Lanes, data: seq<seq<bv8>>)
      requires Valid() && ReplyShaped(r)
      ensures ok == ReplyOk(State(), r)
      ensures ok ==> mask == AnsweredBy(slots[r.id.slot], r) && |data| == LANES
      ensures ok ==> CoalescerLedger.Carries(slots[r.id.slot].request, slots[r.id.slot].lanes)
      ensures ok ==> forall l | l in mask :: l < LANES && data[l] == LaneReply(slots[r.id.slot], r, l)
    {
      ok, mask, data := ReplyOk(State(), r), {}, [];
      if !ok {
        return;
      }
      CoalescerLedger.SlotIs(slots, trail, r.id.slot);
      mask, data := Spread(slots[r.id.slot], r);
    }

    /** One clock edge: a refused one changes nothing. */
    method Step(i: CoalescerInput) returns (ok: bool)
      requires Valid() && InputFits(i)
      modifies this
      ensures Valid() && SlotsFit(old(State())) && ok == Follows(old(State()), i)
      ensures !ok ==> State() == old(State()) && trail == old(trail)
      ensures ok ==> State() == Next(old(State()), i) && trail == CoalescerLedger.Trailed(old(State()), old(trail), i)
    {
      hide Follows, Next, CoalescerLedger.Trailed, CoalescerLedger.SlotsKept, CoalescerLedger.OutputKept, CoalescerLedger.HeldKept;
      var c := State();
      ok := Validate(i);
      if !ok {
        return;
      }
      CoalescerLedger.StepKeeps(c, trail, i);
      trail := CoalescerLedger.Trailed(c, trail, i);
      var n := Edge(c, i);
      slots, acquire, held, output, send := n.slots, n.acquire, n.held, n.output, n.send;
      prepared, remaining, last, used, heldResponse := n.prepared, n.remaining, n.last, n.used, n.heldReply;
    }
  }

  /** The lane loop of a reply. */
  method Spread(s: Slot, r: BatchReply) returns (mask: Lanes, data: seq<seq<bv8>>)
    requires CoalescerLedger.Carries(s.request, s.lanes) && ReplyShaped(r)
    ensures mask == AnsweredBy(s, r) && |data| == LANES
    ensures forall l | l in mask :: l < LANES && data[l] == LaneReply(s, r, l)
  {
    hide CoalescingOrder.Expand;
    mask, data := {}, [[], [], [], []];
    var lane := 0;
    while lane < LANES
      invariant lane <= LANES && |data| == LANES
      invariant forall l :: l in mask <==> l in AnsweredBy(s, r) && l < lane
      invariant forall l | l in mask :: data[l] == LaneReply(s, r, l)
    {
      if lane in s.lanes && lane / 2 in r.mask {
        mask := mask + {lane};
        data := data[lane := if r.failed[lane / 2] then [0, 0, 0, 0] else CoalescingOrder.Expand(s.request.simd.lanes[lane], r.words[lane / 2])];
      }
      lane := lane + 1;
    }
  }

  /** The lowest free slot, or the number of slots. */
  method LowestFree(slots: seq<Slot>) returns (k: nat)
    ensures k == FirstFree(slots, 0)
  {
    k := 0;
    while k < |slots|
      invariant k <= |slots| && FirstFree(slots, 0) == FirstFree(slots, k)
    {
      if !slots[k].valid {
        return;
      }
      k := k + 1;
    }
  }

  /** The slots after the reply is credited and the offered batch's progress is noted. */
  method NoteProgress(c: CoalescerState, i: CoalescerInput) returns (slots: seq<Slot>, released: bool)
    requires SlotsFit(c) && InputFits(i) && Follows(c, i)
    ensures slots == AfterOutput(c, i, AfterReply(c, i)) && released == Releases(c, i)
  {
    hide CoalescingOrder.Accepts, ReplyHeld, ChannelsOf, AcceptedOk, SendOk, OfferOk;
    slots, released := c.slots, false;
    if i.reply.Some? && i.replyReady {
      var k, left := i.reply.value.id.slot, slots[i.reply.value.id.slot].remaining - i.reply.value.mask;
      released := left == {};
      slots := slots[k := slots[k].(remaining := left, valid := !released)];
    }
    if c.output.Some? && !c.output.value.write {
      var k := c.output.value.id.slot;
      slots := slots[k := slots[k].(sent := if i.outputReady then ChannelsOf(c.output.value.batch) else slots[k].sent + i.accepted)];
    }
  }

  /** The edge's updates, in order: reply, channel progress, the batch sent or prepared, the next free slot. */
  method Edge(c: CoalescerState, i: CoalescerInput) returns (n: CoalescerState)
    requires SlotsFit(c) && InputFits(i) && Follows(c, i)
    ensures n == Next(c, i)
  {
    hide OfferOk, ReplyHeld, MakeBatch, ChannelsOf, AcceptedOk, ReplyOk, AfterOutput, AfterReply, Releases;
    var free := LowestFree(c.slots);
    CoalescerLedger.FirstFreeFinds(c.slots);
    var full := free == |c.slots|;
    var slots, released := NoteProgress(c, i);
    var output, remaining, prepared, send, accepted := c.output, c.remaining, c.prepared, false, false;
    if output.Some? && i.outputReady {
      output := None;
    }
    if c.send {
      var q, k := c.held.value, c.acquire;
      output := Some(Sent(c));
      if !q.simd.write {
        slots := slots[k := Slot(true, slots[k].generation + 1, q, prepared.lanes, {}, ChannelsOf(prepared))];
      }
      remaining := remaining - prepared.lanes;
      accepted := q.simd.mask * remaining == {};
    } else if i.request.Some? && output.None? && !full {
      CoalescerLedger.HeldRequest(c, i);
      prepared := BuildBatch(i.request.value.simd, remaining);
      send := true;
    }
    var next := LowestFree(slots);
    var acquire := c.acquire;
    if (Allocates(c) || (released && full)) && next < |slots| {
      acquire := next;
    }
    n := CoalescerState(slots, acquire, if i.request.Some? && !accepted then i.request else None, output, send, prepared,
                        if accepted then ALL_LANES else remaining,
                        if accepted then i.request.value.id.transaction else c.last, c.used || accepted,
                        if i.reply.Some? && !i.replyReady then i.reply else None);
  }
}
