/**
 The coalescer's clock edge (timing/memsys/coalescer.go): a held request is sent batch by
 batch, loads through generation-tagged slots that their replies release.
 */
module Coalescers {
  import opened CacheTypes
  import opened Coalescing
  import CoalescingOrder

  type Channels = set<nat>

  const ALL_LANES: Lanes := {0, 1, 2, 3}
  const LAST_GENERATION: nat := 0xffff_ffff_ffff_ffff

  datatype Slot = Slot(valid: bool, generation: nat, request: SimdRequest, lanes: Lanes, sent: Channels, remaining: Channels)

  /** A batch on offer, under its request's name; a store carries the free slot's number but takes no slot. */
  datatype Offered = Offered(id: BatchId, owner: Identity, tag: nat, write: bool, batch: Batch)

  datatype BatchReply = BatchReply(id: BatchId, mask: Channels, words: seq<seq<bv8>>, failed: seq<bool>)

  datatype CoalescerState = CoalescerState(slots: seq<Slot>, acquire: nat, held: Option<SimdRequest>, output: Option<Offered>,
                                 send: bool, prepared: Batch, remaining: Lanes, last: nat, used: bool,
                                 heldReply: Option<BatchReply>)

  datatype CoalescerInput = CoalescerInput(accepted: Channels, request: Option<SimdRequest>, outputReady: bool,
                                           reply: Option<BatchReply>, replyReady: bool)

  predicate ReplyShaped(r: BatchReply) {
    |r.words| == 2 && |r.failed| == 2 && (forall g | 0 <= g < 2 :: |r.words[g]| == WORD_BYTES) && forall g | g in r.mask :: g < 2
  }

  predicate InputFits(i: CoalescerInput) {
    && (i.request.Some? ==> Shaped(i.request.value.simd))
    && (i.reply.Some? ==> ReplyShaped(i.reply.value))
  }

  /** The word ports a batch uses. */
  function ChannelsOf(b: Batch): Channels {
    set g | 0 <= g < |b.words| && b.words[g].Some?
  }

  predicate HasFree(slots: seq<Slot>) {
    exists k :: 0 <= k < |slots| && !slots[k].valid
  }

  /** The lowest free slot. */
  function FirstFree(slots: seq<Slot>, from: nat): (k: nat)
    requires from <= |slots|
    ensures from <= k <= |slots| && (k < |slots| ==> !slots[k].valid) && forall j | from <= j < k :: slots[j].valid
    decreases |slots| - from
  {
    if from == |slots| || !slots[from].valid then from else FirstFree(slots, from + 1)
  }

  predicate SlotsFit(c: CoalescerState) {
    c.acquire < |c.slots| && (c.output.Some? && !c.output.value.write ==> c.output.value.id.slot < |c.slots|)
  }

  // ------------------------------------------------------------------------- validation

  predicate OfferOk(c: CoalescerState, r: SimdRequest)
    requires Shaped(r.simd)
  {
    CoalescingOrder.Accepts(r.simd) && !(c.used && r.id.transaction <= c.last)
  }

  predicate AcceptedOk(c: CoalescerState, accepted: Channels)
    requires SlotsFit(c)
  {
    accepted != {} ==>
      && c.output.Some? && accepted <= ChannelsOf(c.output.value.batch)
      && (!c.output.value.write ==> accepted !! c.slots[c.output.value.id.slot].sent)
  }

  /** A stalled reply stays offered, and keeps what it showed while it is the same batch's. */
  predicate ReplyHeld(before: Option<BatchReply>, now: Option<BatchReply>) {
    before.Some? ==>
      && now.Some?
      && (before.value.id == now.value.id ==>
            && before.value.mask <= now.value.mask
            && forall g | g in before.value.mask && g < |before.value.words| && g < |now.value.words| && g < |before.value.failed| && g < |now.value.failed| ::
                 before.value.words[g] == now.value.words[g] && before.value.failed[g] == now.value.failed[g])
  }

  predicate ReplyOk(c: CoalescerState, r: BatchReply) {
    && r.id.slot < |c.slots|
    && var s := c.slots[r.id.slot];
       s.valid && r.mask <= s.sent && s.generation == r.id.generation && r.mask != {} && r.mask <= s.remaining
  }

  /** A batch about to be sent has its slot, and a load's slot a generation left. */
  predicate SendOk(c: CoalescerState)
    requires SlotsFit(c)
  {
    c.send ==> HasFree(c.slots) && c.held.Some? && (!c.held.value.simd.write ==> c.slots[c.acquire].generation < LAST_GENERATION)
  }

  predicate Follows(c: CoalescerState, i: CoalescerInput)
    requires SlotsFit(c) && InputFits(i)
  {
    && (c.held.Some? ==> i.request == c.held)
    && (i.request.Some? ==> OfferOk(c, i.request.value))
    && AcceptedOk(c, i.accepted) && ReplyHeld(c.heldReply, i.reply)
    && (i.reply.Some? ==> ReplyOk(c, i.reply.value))
    && SendOk(c)
  }

  // --------------------------------------------------------------------------- the edge

  predicate Credits(c: CoalescerState, i: CoalescerInput) {
    i.reply.Some? && i.replyReady
  }

  /** A slot after the reply's channels are credited. */
  function Credited(s: Slot, mask: Channels): Slot {
    var remaining := s.remaining - mask;
    s.(remaining := remaining, valid := remaining != {})
  }

  function AfterReply(c: CoalescerState, i: CoalescerInput): (slots: seq<Slot>)
    requires SlotsFit(c) && InputFits(i) && Follows(c, i)
    ensures |slots| == |c.slots|
  {
    if Credits(c, i) then c.slots[i.reply.value.id.slot := Credited(c.slots[i.reply.value.id.slot], i.reply.value.mask)]
    else c.slots
  }

  predicate Delivered(c: CoalescerState, i: CoalescerInput) {
    c.output.Some? && i.outputReady
  }

  /** Which channels of the offered load have left, after this edge. */
  function AfterOutput(c: CoalescerState, i: CoalescerInput, slots: seq<Slot>): (r: seq<Slot>)
    requires SlotsFit(c) && |slots| == |c.slots|
    ensures |r| == |slots|
  {
    if c.output.None? || c.output.value.write then slots
    else
      var k := c.output.value.id.slot;
      if i.outputReady then slots[k := slots[k].(sent := ChannelsOf(c.output.value.batch))]
      else slots[k := slots[k].(sent := slots[k].sent + i.accepted)]
  }

  predicate Allocates(c: CoalescerState) {
    c.send && c.held.Some? && !c.held.value.simd.write
  }

  function AfterSend(c: CoalescerState, slots: seq<Slot>): (r: seq<Slot>)
    requires SlotsFit(c) && |slots| == |c.slots|
    ensures |r| == |slots|
  {
    if Allocates(c) then
      slots[c.acquire := Slot(true, slots[c.acquire].generation + 1, c.held.value, c.prepared.lanes, {}, ChannelsOf(c.prepared))]
    else slots
  }

  function SlotsAfter(c: CoalescerState, i: CoalescerInput): (r: seq<Slot>)
    requires SlotsFit(c) && InputFits(i) && Follows(c, i)
    ensures |r| == |c.slots|
  {
    AfterSend(c, AfterOutput(c, i, AfterReply(c, i)))
  }

  /** The batch sent this edge, under its own name. */
  function Sent(c: CoalescerState): Offered
    requires SlotsFit(c) && c.send && c.held.Some?
  {
    var write := c.held.value.simd.write;
    Offered(BatchId(c.acquire, if write then 0 else c.slots[c.acquire].generation + 1),
            c.held.value.id, c.held.value.tag, write, c.prepared)
  }

  predicate Prepares(c: CoalescerState, i: CoalescerInput) {
    !c.send && i.request.Some? && (c.output.None? || i.outputReady) && HasFree(c.slots)
  }

  function LanesLeft(c: CoalescerState): Lanes {
    if c.send then c.remaining - c.prepared.lanes else c.remaining
  }

  /** The request has no lane left to send. */
  predicate Finishes(c: CoalescerState, i: CoalescerInput) {
    c.send && i.request.Some? && i.request.value.simd.mask * LanesLeft(c) == {}
  }

  predicate Releases(c: CoalescerState, i: CoalescerInput)
    requires SlotsFit(c) && InputFits(i) && Follows(c, i)
  {
    Credits(c, i) && !AfterReply(c, i)[i.reply.value.id.slot].valid
  }

  function AcquireAfter(c: CoalescerState, i: CoalescerInput): (k: nat)
    requires SlotsFit(c) && InputFits(i) && Follows(c, i)
    ensures k < |c.slots|
  {
    var next := FirstFree(SlotsAfter(c, i), 0);
    if (Allocates(c) || (Releases(c, i) && !HasFree(c.slots))) && next < |c.slots| then next else c.acquire
  }

  function Next(c: CoalescerState, i: CoalescerInput): CoalescerState
    requires SlotsFit(c) && InputFits(i) && Follows(c, i)
  {
    CoalescerState(SlotsAfter(c, i), AcquireAfter(c, i),
              if i.request.Some? && !Finishes(c, i) then i.request else None,
              if c.send then Some(Sent(c)) else if Delivered(c, i) then None else c.output,
              Prepares(c, i),
              if Prepares(c, i) then MakeBatch(i.request.value.simd, c.remaining) else c.prepared,
              if Finishes(c, i) then ALL_LANES else LanesLeft(c),
              if Finishes(c, i) then i.request.value.id.transaction else c.last,
              c.used || Finishes(c, i),
              if i.reply.Some? && !i.replyReady then i.reply else None)
  }

  // ---------------------------------------------------------------------------- replies

  /** The lanes a reply answers. */
  function AnsweredBy(s: Slot, r: BatchReply): Lanes {
    set l | l in s.lanes && l / 2 in r.mask
  }

  /** One lane's four bytes; a failed word gives zeros. */
  function LaneReply(s: Slot, r: BatchReply, l: nat): (bytes: seq<bv8>)
    requires ReplyShaped(r) && Shaped(s.request.simd) && Aligned(s.request.simd) && l in s.request.simd.mask && l / 2 < 2
    ensures |bytes| == 4
  {
    if r.failed[l / 2] then [0, 0, 0, 0] else CoalescingOrder.Expand(s.request.simd.lanes[l], r.words[l / 2])
  }
}
