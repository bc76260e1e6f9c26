/**
 What every run of the coalescer keeps: its batches share a request's lanes out, its free
 slot is free, and every channel of every load batch is answered at most once, under
 that batch's own name.
 */
module CoalescerLedger {
  import opened CacheTypes
  import opened Coalescing
  import opened Coalescers
  import CoalescingOrder

  /** A load batch as it was given its slot. */
  datatype Grant = Grant(request: SimdRequest, lanes: Lanes, channels: Channels)

  datatype Answer = Answer(id: BatchId, mask: Channels)

  /** The past: every slot granted, every reply credited, and the batches sent of the held request. */
  datatype Trail = Trail(granted: map<BatchId, Grant>, answers: seq<Answer>, out: seq<Batch>)

  function AnsweredSo(answers: seq<Answer>, id: BatchId): Channels
    decreases |answers|
  {
    if answers == [] then {}
    else AnsweredSo(answers[..|answers| - 1], id) + if answers[|answers| - 1].id == id then answers[|answers| - 1].mask else {}
  }

  lemma AnsweredMore(answers: seq<Answer>, a: Answer, id: BatchId)
    ensures AnsweredSo(answers + [a], id) == if a.id == id then AnsweredSo(answers, id) + a.mask else AnsweredSo(answers, id)
  {
    assert (answers + [a])[..|answers|] == answers;
  }

  lemma {:induction false} AnsweredNone(answers: seq<Answer>, id: BatchId)
    requires forall k | 0 <= k < |answers| :: answers[k].id != id
    ensures AnsweredSo(answers, id) == {}
    decreases |answers|
  {
    if answers != [] { AnsweredNone(answers[..|answers| - 1], id); }
  }

  lemma {:induction false} AnsweredHolds(answers: seq<Answer>, k: nat)
    requires k < |answers|
    ensures answers[k].mask <= AnsweredSo(answers, answers[k].id)
    decreases |answers|
  {
    if k < |answers| - 1 { AnsweredHolds(answers[..|answers| - 1], k); }
  }

  /** No channel of a batch is answered twice. */
  predicate AnswersApart(answers: seq<Answer>) {
    forall i, j | 0 <= i < j < |answers| && answers[i].id == answers[j].id :: answers[i].mask !! answers[j].mask
  }

  lemma ApartMore(answers: seq<Answer>, a: Answer)
    requires AnswersApart(answers) && a.mask !! AnsweredSo(answers, a.id)
    ensures AnswersApart(answers + [a])
  {
    var all := answers + [a];
    forall i, j | 0 <= i < j < |all| && all[i].id == all[j].id ensures all[i].mask !! all[j].mask {
      if j < |answers| {
        assert answers[i].mask !! answers[j].mask;
      } else {
        AnsweredHolds(answers, i);
      }
    }
  }

  // ----------------------------------------------------------------------- the invariant

  predicate SlotKept(s: Slot, k: nat, t: Trail) {
    s.valid ==>
      var id := BatchId(k, s.generation);
      && id in t.granted && t.granted[id].request == s.request && t.granted[id].lanes == s.lanes
      && s.remaining != {} && s.remaining == t.granted[id].channels - AnsweredSo(t.answers, id)
      && s.sent <= t.granted[id].channels
      && Carries(s.request, s.lanes)
  }

  /** The batch's lanes are some of a well-formed request's. */
  predicate Carries(r: SimdRequest, lanes: Lanes) {
    Shaped(r.simd) && Aligned(r.simd) && lanes <= r.simd.mask
  }

  /** A grant is its slot's current one, or all its channels have been answered. */
  predicate GrantKept(slots: seq<Slot>, t: Trail, id: BatchId)
    requires id in t.granted
  {
    && id.slot < |slots| && 1 <= id.generation <= slots[id.slot].generation
    && AnsweredSo(t.answers, id) <= t.granted[id].channels
    && ((slots[id.slot].valid && slots[id.slot].generation == id.generation) || AnsweredSo(t.answers, id) == t.granted[id].channels)
  }

  predicate SlotsKept(slots: seq<Slot>, t: Trail) {
    && (forall k | 0 <= k < |slots| :: SlotKept(slots[k], k, t))
    && (forall id | id in t.granted :: GrantKept(slots, t, id))
    && (forall k | 0 <= k < |t.answers| :: t.answers[k].id in t.granted)
    && AnswersApart(t.answers)
  }

  predicate OutputKept(c: CoalescerState, t: Trail) {
    c.output.Some? && !c.output.value.write ==>
      var o := c.output.value;
      && o.id in t.granted && o.id.slot < |c.slots| && c.slots[o.id.slot].generation == o.id.generation
      && t.granted[o.id].channels == ChannelsOf(o.batch)
  }

  predicate FreeKept(c: CoalescerState) {
    c.acquire < |c.slots| && (HasFree(c.slots) ==> !c.slots[c.acquire].valid)
  }

  /** The held request: its lanes not yet sent, and what sending them will still produce. */
  predicate HeldKept(c: CoalescerState, t: Trail) {
    if c.held.None? then c.remaining == ALL_LANES && t.out == [] && !c.send
    else
      var r := c.held.value;
      && Shaped(r.simd) && Aligned(r.simd) && CoalescingOrder.Reached(r.simd, r.simd.mask * c.remaining)
      && r.simd.mask * c.remaining != {}
      && t.out + Batches(r.simd, r.simd.mask * c.remaining) == Batches(r.simd, r.simd.mask)
      && (c.send ==> c.output.None? && HasFree(c.slots) && c.prepared == MakeBatch(r.simd, c.remaining))
  }

  /** A grant is of a request already accepted, or of the held one and for lanes no longer to send. */
  predicate GrantPlaced(c: CoalescerState, g: Grant) {
    || (c.used && g.request.id.transaction <= c.last)
    || (c.held == Some(g.request) && g.lanes !! c.remaining)
  }

  /** Two batches of one request carry different lanes. */
  predicate GrantsApart(granted: map<BatchId, Grant>) {
    forall a, b | a in granted && b in granted && a != b && granted[a].request.id == granted[b].request.id :: granted[a].lanes !! granted[b].lanes
  }

  predicate GrantsKept(c: CoalescerState, t: Trail) {
    && GrantsApart(t.granted) && (forall id | id in t.granted :: GrantPlaced(c, t.granted[id]))
    && (c.held.Some? ==> !(c.used && c.held.value.id.transaction <= c.last))
  }

  predicate Kept(c: CoalescerState, t: Trail) {
    SlotsFit(c) && FreeKept(c) && SlotsKept(c.slots, t) && OutputKept(c, t) && HeldKept(c, t) && GrantsKept(c, t)
  }

  function Trailed(c: CoalescerState, t: Trail, i: CoalescerInput): Trail
    requires SlotsFit(c) && InputFits(i) && Follows(c, i)
  {
    var answered := if Credits(c, i) then t.(answers := t.answers + [Answer(i.reply.value.id, i.reply.value.mask)]) else t;
    var granted := if Allocates(c) then
      answered.granted[Sent(c).id := Grant(c.held.value, c.prepared.lanes, ChannelsOf(c.prepared))] else answered.granted;
    answered.(granted := granted, out := if Finishes(c, i) then [] else if c.send then t.out + [c.prepared] else t.out)
  }

  /** A coalescer with every slot free. */
  predicate IsIdle(c: CoalescerState) {
    && c.slots != [] && (forall k | 0 <= k < |c.slots| :: !c.slots[k].valid)
    && c.acquire == 0 && c.held.None? && c.output.None? && !c.send && c.remaining == ALL_LANES && !c.used
  }

  lemma Starts(c: CoalescerState)
    requires IsIdle(c)
    ensures Kept(c, Trail(map[], [], []))
  {
  }

  // ------------------------------------------------------------------------------ a reply

  lemma ReplyKeeps(slots: seq<Slot>, t: Trail, id: BatchId, mask: Channels)
    requires SlotsKept(slots, t) && id.slot < |slots| && slots[id.slot].valid && slots[id.slot].generation == id.generation
    requires mask <= slots[id.slot].remaining
    ensures SlotsKept(slots[id.slot := Credited(slots[id.slot], mask)], t.(answers := t.answers + [Answer(id, mask)]))
  {
    hide AnsweredSo, AnswersApart, Carries;
    var n := slots[id.slot := Credited(slots[id.slot], mask)];
    var u := t.(answers := t.answers + [Answer(id, mask)]);
    assert SlotKept(slots[id.slot], id.slot, t);
    assert GrantKept(slots, t, id);
    AnsweredMore(t.answers, Answer(id, mask), id);
    forall k | 0 <= k < |n| ensures SlotKept(n[k], k, u) {
      assert SlotKept(slots[k], k, t);
      AnsweredMore(t.answers, Answer(id, mask), BatchId(k, n[k].generation));
    }
    var channels, before := t.granted[id].channels, AnsweredSo(t.answers, id);
    assert channels - before - mask == {} ==> before + mask == channels by {
      assert forall g :: g in channels - before - mask <==> g in channels && g !in before && g !in mask;
    }
    forall other | other in u.granted ensures GrantKept(n, u, other) {
      assert GrantKept(slots, t, other);
      AnsweredMore(t.answers, Answer(id, mask), other);
    }
    ApartMore(t.answers, Answer(id, mask));
  }

  lemma SentKeeps(slots: seq<Slot>, t: Trail, k: nat, sent: Channels)
    requires SlotsKept(slots, t) && k < |slots|
    requires slots[k].valid ==> BatchId(k, slots[k].generation) in t.granted && sent <= t.granted[BatchId(k, slots[k].generation)].channels
    ensures SlotsKept(slots[k := slots[k].(sent := sent)], t)
  {
    hide AnsweredSo, AnswersApart, Carries;
    var n := slots[k := slots[k].(sent := sent)];
    forall j | 0 <= j < |n| ensures SlotKept(n[j], j, t) {
      assert SlotKept(slots[j], j, t);
    }
    forall id | id in t.granted ensures GrantKept(n, t, id) {
      assert GrantKept(slots, t, id);
    }
  }

  /** A new generation of a free slot has never been granted before. */
  lemma GrantKeeps(slots: seq<Slot>, t: Trail, k: nat, g: Grant)
    requires SlotsKept(slots, t) && k < |slots| && !slots[k].valid && g.channels != {} && Carries(g.request, g.lanes)
    ensures var id := BatchId(k, slots[k].generation + 1);
            && id !in t.granted
            && SlotsKept(slots[k := Slot(true, slots[k].generation + 1, g.request, g.lanes, {}, g.channels)], t.(granted := t.granted[id := g]))
  {
    hide AnsweredSo, AnswersApart, Carries;
    var id := BatchId(k, slots[k].generation + 1);
    assert id in t.granted ==> GrantKept(slots, t, id);
    assert id !in t.granted;
    var n := slots[k := Slot(true, slots[k].generation + 1, g.request, g.lanes, {}, g.channels)];
    var u := t.(granted := t.granted[id := g]);
    AnsweredNone(t.answers, id);
    forall j | 0 <= j < |n| ensures SlotKept(n[j], j, u) {
      assert SlotKept(slots[j], j, t);
    }
    forall other | other in u.granted ensures GrantKept(n, u, other) {
      if other != id {
        assert GrantKept(slots, t, other);
      }
    }
  }

  // ------------------------------------------------------------------------------ batches

  lemma SameBatch(r: Simd, remaining: Lanes)
    requires Shaped(r) && Aligned(r)
    ensures MakeBatch(r, remaining) == MakeBatch(r, r.mask * remaining)
  {
    assert forall g: nat | g < 2 :: Seed(r, remaining, g) == Seed(r, r.mask * remaining, g);
  }

  lemma BatchUses(r: Simd, remaining: Lanes)
    requires Shaped(r) && Aligned(r) && r.mask * remaining != {}
    ensures ChannelsOf(MakeBatch(r, remaining)) != {}
  {
    var l :| l in r.mask * remaining;
    var g := l / 2;
    assert Seed(r, remaining, g).Some?;
    assert MakeBatch(r, remaining).words[g].Some?;
    assert g in ChannelsOf(MakeBatch(r, remaining));
  }

  /** Sending a prepared batch takes one off the batches still to come. */
  lemma SendsNext(c: CoalescerState, t: Trail)
    requires HeldKept(c, t) && c.send
    ensures var r := c.held.value.simd;
            var left := r.mask * (c.remaining - c.prepared.lanes);
            && CoalescingOrder.Reached(r, left)
            && t.out + [c.prepared] + Batches(r, left) == Batches(r, r.mask)
  {
    hide CoalescingOrder.GroupReached, MakeBatch;
    var r := c.held.value.simd;
    var now := r.mask * c.remaining;
    SameBatch(r, c.remaining);
    SeedTaken(r, now);
    CoalescingOrder.TakesWaiting(r, now);
    assert r.mask * (c.remaining - c.prepared.lanes) == now - c.prepared.lanes;
    var left := now - c.prepared.lanes;
    assert Batches(r, now) == [c.prepared] + Batches(r, left);
    assert t.out + ([c.prepared] + Batches(r, left)) == t.out + [c.prepared] + Batches(r, left);
  }

  /** The last batch of a request completes the partition of its lanes. */
  lemma FinishesAll(c: CoalescerState, t: Trail, i: CoalescerInput)
    requires HeldKept(c, t) && c.held.Some? && i.request == c.held && Finishes(c, i)
    ensures t.out + [c.prepared] == Batches(c.held.value.simd, c.held.value.simd.mask)
  {
    SendsNext(c, t);
    var r := c.held.value.simd;
    assert r.mask * (c.remaining - c.prepared.lanes) == {};
    assert Batches(r, {}) == [];
    assert t.out + [c.prepared] + [] == t.out + [c.prepared];
  }

  // ------------------------------------------------------------------------------- a step

  lemma StepSlots(c: CoalescerState, t: Trail, i: CoalescerInput)
    requires Kept(c, t) && InputFits(i) && Follows(c, i)
    ensures SlotsKept(SlotsAfter(c, i), Trailed(c, t, i).(out := t.out))
    ensures Allocates(c) ==> Sent(c).id !in t.granted && !c.slots[c.acquire].valid
  {
    hide SlotsKept, AnsweredSo, MakeBatch, ChannelsOf, FreeKept, OfferOk, ReplyHeld, Carries;
    var a := AfterReply(c, i);
    var u := if Credits(c, i) then t.(answers := t.answers + [Answer(i.reply.value.id, i.reply.value.mask)]) else t;
    if Credits(c, i) {
      ReplyKeeps(c.slots, t, i.reply.value.id, i.reply.value.mask);
    }
    assert SlotsKept(a, u);
    var b := AfterOutput(c, i, a);
    if c.output.Some? && !c.output.value.write {
      var k := c.output.value.id.slot;
      OutputSent(c, t, a, u, i);
    }
    assert SlotsKept(b, u);
    if Allocates(c) {
      FreeSlot(c);
      HeldUses(c, t);
      PreparedWaits(c, t);
      assert b[c.acquire] == c.slots[c.acquire];
      GrantKeeps(b, u, c.acquire, Grant(c.held.value, c.prepared.lanes, ChannelsOf(c.prepared)));
    }
    OutIrrelevant(SlotsAfter(c, i), Trailed(c, t, i), t.out);
  }

  lemma OutIrrelevant(slots: seq<Slot>, t: Trail, out: seq<Batch>)
    ensures SlotsKept(slots, t) <==> SlotsKept(slots, t.(out := out))
  {
    hide AnsweredSo, AnswersApart, Carries;
    var u := t.(out := out);
    assert forall k | 0 <= k < |slots| :: SlotKept(slots[k], k, t) <==> SlotKept(slots[k], k, u);
    assert forall id | id in t.granted :: GrantKept(slots, t, id) <==> GrantKept(slots, u, id);
  }

  lemma FreeSlot(c: CoalescerState)
    requires FreeKept(c) && HasFree(c.slots)
    ensures !c.slots[c.acquire].valid
  {
  }

  lemma HeldUses(c: CoalescerState, t: Trail)
    requires HeldKept(c, t) && c.send
    ensures ChannelsOf(c.prepared) != {}
  {
    BatchUses(c.held.value.simd, c.remaining);
  }

  lemma OutputSent(c: CoalescerState, t: Trail, a: seq<Slot>, u: Trail, i: CoalescerInput)
    requires Kept(c, t) && InputFits(i) && Follows(c, i) && c.output.Some? && !c.output.value.write
    requires |a| == |c.slots| && SlotsKept(a, u) && u.granted == t.granted
    requires forall k | 0 <= k < |a| :: a[k].generation == c.slots[k].generation
    ensures SlotsKept(AfterOutput(c, i, a), u)
  {
    hide AnsweredSo, SlotsKept, ChannelsOf, OfferOk, ReplyHeld, HeldKept, FreeKept;
    var k := c.output.value.id.slot;
    SlotIs(a, u, k);
    SentKeeps(a, u, k, if i.outputReady then ChannelsOf(c.output.value.batch) else a[k].sent + i.accepted);
  }

  lemma SlotIs(slots: seq<Slot>, t: Trail, k: nat)
    requires SlotsKept(slots, t) && k < |slots|
    ensures SlotKept(slots[k], k, t)
  {
  }

  lemma FirstFreeFinds(slots: seq<Slot>)
    ensures FirstFree(slots, 0) < |slots| <==> HasFree(slots)
  {
  }

  /** Without an allocation slots are only freed. */
  lemma OnlyFreed(c: CoalescerState, i: CoalescerInput)
    requires SlotsFit(c) && InputFits(i) && Follows(c, i) && !Allocates(c)
    ensures HasFree(c.slots) ==> HasFree(SlotsAfter(c, i))
    ensures forall k | 0 <= k < |c.slots| && !c.slots[k].valid :: !SlotsAfter(c, i)[k].valid
    ensures !HasFree(c.slots) && !Releases(c, i) ==> !HasFree(SlotsAfter(c, i))
  {
    hide OfferOk, ReplyHeld, ChannelsOf, AcceptedOk;
    var n := SlotsAfter(c, i);
    if HasFree(c.slots) {
      var k :| 0 <= k < |c.slots| && !c.slots[k].valid;
      assert !n[k].valid;
    }
  }

  lemma StepFree(c: CoalescerState, t: Trail, i: CoalescerInput)
    requires Kept(c, t) && InputFits(i) && Follows(c, i)
    ensures FreeKept(Next(c, i))
  {
    hide SlotsKept, OutputKept, HeldKept, Follows, SlotsAfter, MakeBatch, Releases;
    var n := SlotsAfter(c, i);
    FirstFreeFinds(n);
    if !Allocates(c) {
      OnlyFreed(c, i);
    }
  }

  lemma StepOutput(c: CoalescerState, t: Trail, i: CoalescerInput)
    requires Kept(c, t) && InputFits(i) && Follows(c, i)
    ensures OutputKept(Next(c, i), Trailed(c, t, i)) && SlotsFit(Next(c, i))
  {
    hide SlotsKept, MakeBatch, ChannelsOf, OfferOk, ReplyHeld, AcquireAfter, Prepares, CoalescingOrder.Reached, Batches;
    StepSlots(c, t, i);
  }

  lemma HeldRequest(c: CoalescerState, i: CoalescerInput)
    requires SlotsFit(c) && InputFits(i) && Follows(c, i) && i.request.Some?
    ensures Aligned(i.request.value.simd) && i.request.value.simd.mask != {}
  {
    hide ReplyHeld, ReplyOk, AcceptedOk, SendOk;
  }

  /** A request just offered has all its lanes to send. */
  lemma FreshRequest(r: Simd)
    requires Shaped(r)
    ensures r.mask * ALL_LANES == r.mask && CoalescingOrder.Reached(r, r.mask)
  {
  }

  lemma StepHeld(c: CoalescerState, t: Trail, i: CoalescerInput)
    requires Kept(c, t) && InputFits(i) && Follows(c, i)
    ensures HeldKept(Next(c, i), Trailed(c, t, i))
  {
    hide SlotsKept, OutputKept, FreeKept, SlotsAfter, AcquireAfter, MakeBatch, OfferOk, ReplyHeld, ReplyOk, AcceptedOk, CoalescingOrder.Reached, Batches;
    if i.request.Some? && !Finishes(c, i) {
      HeldRequest(c, i);
      var r := i.request.value.simd;
      if c.send {
        SendsNext(c, t);
      } else if c.held.None? {
        FreshRequest(r);
        assert [] + Batches(r, r.mask) == Batches(r, r.mask);
      }
      if Prepares(c, i) {
        OnlyFreed(c, i);
      }
    }
  }

  lemma PreparedWaits(c: CoalescerState, t: Trail)
    requires HeldKept(c, t) && c.send
    ensures c.prepared.lanes <= c.remaining && Carries(c.held.value, c.prepared.lanes)
  {
    hide MakeBatch, CoalescingOrder.GroupReached;
    var r := c.held.value.simd;
    SameBatch(r, c.remaining);
    CoalescingOrder.TakesWaiting(r, r.mask * c.remaining);
  }

  lemma StepGrants(c: CoalescerState, t: Trail, i: CoalescerInput)
    requires Kept(c, t) && InputFits(i) && Follows(c, i)
    ensures GrantsKept(Next(c, i), Trailed(c, t, i))
  {
    hide SlotsKept, OutputKept, FreeKept, SlotsAfter, AcquireAfter, MakeBatch, ReplyHeld, ReplyOk, AcceptedOk, CoalescingOrder.Accepts,
         CoalescingOrder.Reached, Batches, ChannelsOf;
    var n, u := Next(c, i), Trailed(c, t, i);
    if c.send {
      PreparedWaits(c, t);
      StepSlots(c, t, i);
    }
    forall id | id in u.granted ensures GrantPlaced(n, u.granted[id]) {
      assert id in t.granted ==> GrantPlaced(c, t.granted[id]);
    }
    if Allocates(c) {
      var new_ := Sent(c).id;
      forall id | id in t.granted && t.granted[id].request.id == c.held.value.id ensures t.granted[id].lanes !! c.prepared.lanes {
        assert GrantPlaced(c, t.granted[id]);
      }
      ApartWith(t.granted, new_, u.granted[new_]);
    }
  }

  lemma ApartWith(granted: map<BatchId, Grant>, id: BatchId, g: Grant)
    requires GrantsApart(granted) && id !in granted
    requires forall a | a in granted && granted[a].request.id == g.request.id :: granted[a].lanes !! g.lanes
    ensures GrantsApart(granted[id := g])
  {
  }

  // --------------------------------------------------------------------------- the theorems

  lemma StepKeeps(c: CoalescerState, t: Trail, i: CoalescerInput)
    requires Kept(c, t) && InputFits(i) && Follows(c, i)
    ensures Kept(Next(c, i), Trailed(c, t, i))
  {
    hide SlotsKept, OutputKept, FreeKept, HeldKept, GrantsKept, Follows;
    StepFree(c, t, i);
    StepOutput(c, t, i);
    StepSlots(c, t, i);
    OutIrrelevant(SlotsAfter(c, i), Trailed(c, t, i), t.out);
    StepHeld(c, t, i);
    StepGrants(c, t, i);
  }

  ghost predicate IsRun(states: seq<CoalescerState>, inputs: seq<CoalescerInput>) {
    && |states| == |inputs| + 1 && IsIdle(states[0])
    && forall k | 0 <= k < |inputs| ::
         SlotsFit(states[k]) && InputFits(inputs[k]) && Follows(states[k], inputs[k]) && states[k + 1] == Next(states[k], inputs[k])
  }

  ghost function TrailAt(states: seq<CoalescerState>, inputs: seq<CoalescerInput>, k: nat): Trail
    requires IsRun(states, inputs) && k <= |inputs|
  {
    if k == 0 then Trail(map[], [], []) else Trailed(states[k - 1], TrailAt(states, inputs, k - 1), inputs[k - 1])
  }

  lemma {:induction false} RunKept(states: seq<CoalescerState>, inputs: seq<CoalescerInput>, k: nat)
    requires IsRun(states, inputs) && k <= |inputs|
    ensures Kept(states[k], TrailAt(states, inputs, k))
  {
    hide Kept, Next, Trailed, Follows;
    if k == 0 {
      Starts(states[0]);
    } else {
      RunKept(states, inputs, k - 1);
      StepKeeps(states[k - 1], TrailAt(states, inputs, k - 1), inputs[k - 1]);
    }
  }

  /** Over every run no channel of a load batch is answered twice, and only channels it uses are answered. */
  lemma ChannelsAnsweredOnce(states: seq<CoalescerState>, inputs: seq<CoalescerInput>, k: nat)
    requires IsRun(states, inputs) && k <= |inputs|
    ensures var t := TrailAt(states, inputs, k);
            && AnswersApart(t.answers)
            && forall id | id in t.granted :: AnsweredSo(t.answers, id) <= t.granted[id].channels
  {
    hide AnsweredSo, AnswersApart, OutputKept, HeldKept, FreeKept;
    RunKept(states, inputs, k);
    var t := TrailAt(states, inputs, k);
    assert forall id | id in t.granted :: GrantKept(states[k].slots, t, id);
  }

  /** A slot is granted only when free, under a name no earlier batch had; its earlier batches are all answered. */
  lemma SlotsReusedSafely(states: seq<CoalescerState>, inputs: seq<CoalescerInput>, k: nat)
    requires IsRun(states, inputs) && k < |inputs| && Allocates(states[k])
    ensures var t := TrailAt(states, inputs, k);
            var id := Sent(states[k]).id;
            && !states[k].slots[id.slot].valid && id !in t.granted
            && forall g: nat | BatchId(id.slot, g) in t.granted :: AnsweredSo(t.answers, BatchId(id.slot, g)) == t.granted[BatchId(id.slot, g)].channels
  {
    hide AnsweredSo, AnswersApart, OutputKept, HeldKept, Next, Trailed, Follows;
    RunKept(states, inputs, k);
    StepSlots(states[k], TrailAt(states, inputs, k), inputs[k]);
    var t := TrailAt(states, inputs, k);
    assert forall id | id in t.granted :: GrantKept(states[k].slots, t, id);
  }

  /** A reply is credited to the batch it names: the slot then holds that batch's own request and lanes. */
  lemma RepliesCreditOwnBatch(states: seq<CoalescerState>, inputs: seq<CoalescerInput>, k: nat)
    requires IsRun(states, inputs) && k < |inputs| && inputs[k].reply.Some?
    ensures var r := inputs[k].reply.value;
            var t := TrailAt(states, inputs, k);
            && r.id in t.granted && r.id.slot < |states[k].slots|
            && states[k].slots[r.id.slot].request == t.granted[r.id].request && states[k].slots[r.id.slot].lanes == t.granted[r.id].lanes
            && r.mask <= t.granted[r.id].channels && r.mask !! AnsweredSo(t.answers, r.id)
  {
    hide AnsweredSo, AnswersApart, OutputKept, HeldKept, FreeKept, Next, Trailed, OfferOk, ReplyHeld, AcceptedOk;
    RunKept(states, inputs, k);
    var r := inputs[k].reply.value;
    SlotIs(states[k].slots, TrailAt(states, inputs, k), r.id.slot);
  }

  /** The lanes a credited reply answers: those of its batch that came by the answered ports. */
  function LanesAnswered(t: Trail, a: Answer): Lanes
    requires a.id in t.granted
  {
    set l | l in t.granted[a.id].lanes && l / 2 in a.mask
  }

  /** Over every run, no lane of a load request is answered by two replies. */
  lemma LanesAnsweredOnce(states: seq<CoalescerState>, inputs: seq<CoalescerInput>, n: nat, j: nat, k: nat)
    requires IsRun(states, inputs) && n <= |inputs|
    requires j < k < |TrailAt(states, inputs, n).answers|
    ensures var t := TrailAt(states, inputs, n);
            var a, b := t.answers[j], t.answers[k];
            && a.id in t.granted && b.id in t.granted
            && (t.granted[a.id].request.id == t.granted[b.id].request.id ==> LanesAnswered(t, a) !! LanesAnswered(t, b))
  {
    hide AnsweredSo, OutputKept, HeldKept, FreeKept, GrantKept, SlotKept;
    RunKept(states, inputs, n);
    var t := TrailAt(states, inputs, n);
    var a, b := t.answers[j], t.answers[k];
    if t.granted[a.id].request.id == t.granted[b.id].request.id {
      if a.id == b.id {
        assert a.mask !! b.mask;
      } else {
        assert t.granted[a.id].lanes !! t.granted[b.id].lanes;
      }
    }
  }

  /** When a request is accepted its batches are exactly the partition of its lanes, in order. */
  lemma RequestSentWhole(states: seq<CoalescerState>, inputs: seq<CoalescerInput>, k: nat)
    requires IsRun(states, inputs) && k < |inputs| && Finishes(states[k], inputs[k])
    ensures states[k].held == inputs[k].request && inputs[k].request.Some?
    ensures var r := inputs[k].request.value.simd;
            Shaped(r) && Aligned(r) && TrailAt(states, inputs, k).out + [states[k].prepared] == Batches(r, r.mask)
  {
    hide SlotsKept, OutputKept, FreeKept, Next, Trailed, OfferOk, ReplyHeld, AcceptedOk, ReplyOk, Batches, MakeBatch;
    RunKept(states, inputs, k);
    FinishesAll(states[k], TrailAt(states, inputs, k), inputs[k]);
  }

  /** In every reachable state a batch about to be sent has a free slot. */
  lemma SendHasSlot(states: seq<CoalescerState>, inputs: seq<CoalescerInput>, k: nat)
    requires IsRun(states, inputs) && k <= |inputs| && states[k].send
    ensures states[k].acquire < |states[k].slots| && HasFree(states[k].slots) && !states[k].slots[states[k].acquire].valid && states[k].held.Some? && states[k].output.None?
  {
    RunKept(states, inputs, k);
  }
}
