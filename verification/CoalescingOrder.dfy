/**
 What the coalesced batches of one request mean: they share the lanes out exactly
 once, and the two ports may run at any relative speed without changing a byte.
 */
module CoalescingOrder {
  import opened CacheTypes
  import opened Coalescing

  // --------------------------------------------------------------- one port's words

  /** The words one port carries, in batch order. */
  function PortWords(bs: seq<Batch>, g: nat): seq<WordRequest>
    requires forall i | 0 <= i < |bs| :: |bs[i].words| == 2
    requires g < 2
  {
    if bs == [] then []
    else (if bs[0].words[g].Some? then [bs[0].words[g].value] else []) + PortWords(bs[1..], g)
  }

  lemma {:induction false} BatchesShaped(r: Simd, remaining: set<nat>)
    requires Shaped(r) && Aligned(r) && remaining <= r.mask
    ensures forall i | 0 <= i < |Batches(r, remaining)| :: |Batches(r, remaining)[i].words| == 2
    decreases |remaining|
  {
    hide GroupLanes, GroupWord;
    if remaining != {} {
      SeedTaken(r, remaining);
      var b := MakeBatch(r, remaining);
      Smaller(remaining - b.lanes, remaining);
      BatchesShaped(r, remaining - b.lanes);
    }
  }

  function Words(r: Simd, remaining: set<nat>, g: nat): seq<WordRequest>
    requires Shaped(r) && Aligned(r) && remaining <= r.mask && g < 2
  {
    BatchesShaped(r, remaining);
    PortWords(Batches(r, remaining), g)
  }

  lemma WordsStep(r: Simd, remaining: set<nat>, g: nat)
    requires Shaped(r) && Aligned(r) && remaining <= r.mask && g < 2 && remaining != {}
    ensures var b := MakeBatch(r, remaining);
            var w := GroupWord(r, remaining, g);
            Words(r, remaining, g) == (if w.Some? then [w.value] else []) + Words(r, remaining - b.lanes, g)
  {
    SeedTaken(r, remaining);
    var b := MakeBatch(r, remaining);
    assert Batches(r, remaining)[1..] == Batches(r, remaining - b.lanes);
  }

  /** A group with nothing left sends nothing more. */
  lemma {:induction false} NoWords(r: Simd, remaining: set<nat>, g: nat)
    requires Shaped(r) && Aligned(r) && remaining <= r.mask && g < 2
    requires 2 * g !in remaining && 2 * g + 1 !in remaining
    ensures Words(r, remaining, g) == []
    decreases |remaining|
  {
    if remaining != {} {
      WordsStep(r, remaining, g);
      SeedTaken(r, remaining);
      var b := MakeBatch(r, remaining);
      Smaller(remaining - b.lanes, remaining);
      NoWords(r, remaining - b.lanes, g);
    }
  }

  function LaneWord(r: Simd, lane: nat): (w: WordRequest)
    requires Shaped(r) && Aligned(r) && lane in r.mask
    ensures WordShaped(w) && w.address == BaseOf(r.lanes[lane].address)
  {
    MergeLane(EmptyWord(BaseOf(r.lanes[lane].address), r.lanes[lane].noncacheable), r.lanes[lane])
  }

  /** The two lanes of a group travel as one word. */
  predicate Together(r: Simd, g: nat)
    requires Shaped(r) && g < 2
  {
    2 * g in r.mask && 2 * g + 1 in r.mask && Joins(r, 2 * g, 2 * g + 1)
  }

  /** One port's words written out: nothing, one lane, both lanes merged, or the lower lane then the upper. */
  function GroupPlan(r: Simd, g: nat): (ws: seq<WordRequest>)
    requires Shaped(r) && Aligned(r) && g < 2
    ensures |ws| <= 2 && forall i | 0 <= i < |ws| :: WordShaped(ws[i]) && ws[i].address % WORD_BYTES == 0
  {
    var low, high := 2 * g, 2 * g + 1;
    if Together(r, g) then [MergeLane(LaneWord(r, low), r.lanes[high])]
    else (if low in r.mask then [LaneWord(r, low)] else []) + (if high in r.mask then [LaneWord(r, high)] else [])
  }

  /**
   What batches leave of a group: its upper lane waits while its lower lane does,
   and waits alone only if the two do not travel as one word.
   */
  predicate GroupReached(r: Simd, remaining: set<nat>, g: nat)
    requires Shaped(r) && g < 2
  {
    && (2 * g in remaining && 2 * g + 1 in r.mask ==> 2 * g + 1 in remaining)
    && (2 * g in r.mask && 2 * g !in remaining && 2 * g + 1 in remaining ==> !Together(r, g))
  }

  predicate Reached(r: Simd, remaining: set<nat>)
    requires Shaped(r)
  {
    remaining <= r.mask && GroupReached(r, remaining, 0) && GroupReached(r, remaining, 1)
  }

  lemma GroupWaiting(r: Simd, remaining: set<nat>, g: nat)
    requires Shaped(r) && Aligned(r) && remaining <= r.mask && g < 2 && GroupReached(r, remaining, g)
    ensures GroupLanes(r, remaining, g) <= remaining
    ensures GroupReached(r, remaining - MakeBatch(r, remaining).lanes, g)
  {
    hide GroupWord, BaseOf;
    GroupTakes(r, remaining, g);
  }

  /** A batch takes waiting lanes only, and leaves a state that batches can reach. */
  lemma TakesWaiting(r: Simd, remaining: set<nat>)
    requires Shaped(r) && Aligned(r) && Reached(r, remaining)
    ensures MakeBatch(r, remaining).lanes <= remaining
    ensures Reached(r, remaining - MakeBatch(r, remaining).lanes)
  {
    hide GroupReached, GroupLanes, GroupWord, BaseOf;
    GroupWaiting(r, remaining, 0);
    GroupWaiting(r, remaining, 1);
  }

  /** The other group's lanes have no say in this group's. */
  lemma GroupTakes(r: Simd, remaining: set<nat>, g: nat)
    requires Shaped(r) && Aligned(r) && remaining <= r.mask && g < 2
    ensures forall l | l in {2 * g, 2 * g + 1} :: l in MakeBatch(r, remaining).lanes <==> l in GroupLanes(r, remaining, g)
  {
  }

  lemma UpperAlone(r: Simd, remaining: set<nat>, g: nat)
    requires Shaped(r) && Aligned(r) && Reached(r, remaining) && g < 2
    requires 2 * g !in remaining && 2 * g + 1 in remaining
    ensures Words(r, remaining, g) == [LaneWord(r, 2 * g + 1)]
  {
    WordsStep(r, remaining, g);
    TakesWaiting(r, remaining);
    GroupTakes(r, remaining, g);
    assert 2 * g + 1 in GroupLanes(r, remaining, g);
    NoWords(r, remaining - MakeBatch(r, remaining).lanes, g);
  }

  /** Each port carries exactly its group's plan. */
  lemma PortCarries(r: Simd, g: nat)
    requires Shaped(r) && Aligned(r) && g < 2
    ensures Words(r, r.mask, g) == GroupPlan(r, g)
  {
    var low, high := 2 * g, 2 * g + 1;
    if low in r.mask {
      WordsStep(r, r.mask, g);
      TakesWaiting(r, r.mask);
      GroupTakes(r, r.mask, g);
      var rest := r.mask - MakeBatch(r, r.mask).lanes;
      assert low in GroupLanes(r, r.mask, g);
      if high in rest {
        UpperAlone(r, rest, g);
      } else {
        NoWords(r, rest, g);
      }
    } else if high in r.mask {
      UpperAlone(r, r.mask, g);
    } else {
      NoWords(r, r.mask, g);
    }
  }

  // ------------------------------------------------------------------- partition

  ghost predicate TakenAt(bs: seq<Batch>, i: int, lane: nat) {
    0 <= i < |bs| && lane in bs[i].lanes
  }

  lemma {:induction false} BatchesTake(r: Simd, remaining: set<nat>, lane: nat)
    requires Shaped(r) && Aligned(r) && Reached(r, remaining)
    ensures lane in remaining ==> exists i :: TakenAt(Batches(r, remaining), i, lane)
    ensures forall i | TakenAt(Batches(r, remaining), i, lane) :: lane in remaining
    ensures forall i, j | TakenAt(Batches(r, remaining), i, lane) && TakenAt(Batches(r, remaining), j, lane) :: i == j
    ensures forall i | 0 <= i < |Batches(r, remaining)| :: Batches(r, remaining)[i].lanes != {}
    decreases |remaining|
  {
    hide MakeBatch, GroupReached;
    if remaining != {} {
      SeedTaken(r, remaining);
      TakesWaiting(r, remaining);
      var b := MakeBatch(r, remaining);
      var rest := remaining - b.lanes;
      Smaller(rest, remaining);
      BatchesTake(r, rest, lane);
      var bs, tail := Batches(r, remaining), Batches(r, rest);
      assert bs == [b] + tail;
      assert forall i | 0 < i < |bs| :: bs[i] == tail[i - 1];
      if lane in b.lanes {
        assert TakenAt(bs, 0, lane);
      }
      if lane in rest {
        var i :| TakenAt(tail, i, lane);
        assert TakenAt(bs, i + 1, lane);
      }
      forall i | TakenAt(bs, i, lane) ensures lane in remaining && (i > 0 ==> TakenAt(tail, i - 1, lane)) {
        if i > 0 { assert TakenAt(tail, i - 1, lane); }
      }
    }
  }

  /** The batches share the mask out: every lane of it travels in exactly one batch, and no other lane does. */
  lemma BatchesPartition(r: Simd, lane: nat)
    requires Shaped(r) && Aligned(r)
    ensures lane in r.mask <==> exists i :: TakenAt(Batches(r, r.mask), i, lane)
    ensures forall i, j | TakenAt(Batches(r, r.mask), i, lane) && TakenAt(Batches(r, r.mask), j, lane) :: i == j
    ensures forall i | 0 <= i < |Batches(r, r.mask)| :: Batches(r, r.mask)[i].lanes != {}
  {
    BatchesTake(r, r.mask, lane);
  }

  // ----------------------------------------------------------------- byte meaning

  predicate Writes(w: WordRequest, x: nat)
    requires WordShaped(w)
  {
    w.address <= x < w.address + WORD_BYTES && w.enables[x - w.address]
  }

  /** Byte x after one word, given what it held. */
  function WordAt(v: bv8, w: WordRequest, x: nat): bv8
    requires WordShaped(w)
  {
    if Writes(w, x) then w.data[x - w.address] else v
  }

  function LaneAt(v: bv8, l: Lane, x: nat): bv8
    requires LaneShaped(l)
  {
    if l.address <= x < l.address + 4 && l.enables[x - l.address] then l.data[x - l.address] else v
  }

  predicate AllShaped(ws: seq<WordRequest>) {
    forall i | 0 <= i < |ws| :: WordShaped(ws[i])
  }

  /** Byte x after a sequence of words. */
  function Stored(v: bv8, ws: seq<WordRequest>, x: nat): bv8
    requires AllShaped(ws)
    decreases |ws|
  {
    if ws == [] then v else Stored(WordAt(v, ws[0], x), ws[1..], x)
  }

  lemma StoredShort(v: bv8, ws: seq<WordRequest>, x: nat)
    requires AllShaped(ws) && |ws| <= 2
    ensures Stored(v, ws, x) ==
            if |ws| == 0 then v else if |ws| == 1 then WordAt(v, ws[0], x) else WordAt(WordAt(v, ws[0], x), ws[1], x)
  {
    hide WordAt;
    if |ws| == 1 {
      assert ws[1..] == [];
    } else if |ws| == 2 {
      var y, t := WordAt(v, ws[0], x), ws[1..];
      assert t[0] == ws[1] && t[1..] == [];
      assert Stored(y, t, x) == Stored(WordAt(y, t[0], x), t[1..], x);
    }
  }

  /** Byte x after the request's lanes from the given one on, in ascending order. */
  function LaneStored(v: bv8, r: Simd, from: nat, x: nat): bv8
    requires Shaped(r) && from <= LANES
    decreases LANES - from
  {
    if from == LANES then v
    else LaneStored(if from in r.mask then LaneAt(v, r.lanes[from], x) else v, r, from + 1, x)
  }

  /** Merging a lane into its word is writing the word, then the lane. */
  lemma MergeMeans(v: bv8, w: WordRequest, l: Lane, x: nat)
    requires WordShaped(w) && LaneShaped(l) && l.address % 4 == 0 && w.address == BaseOf(l.address)
    ensures WordAt(v, MergeLane(w, l), x) == LaneAt(WordAt(v, w, x), l, x)
  {
    var o := l.address % WORD_BYTES;
    var k := x - w.address;
    assert l.address == w.address + o && o <= 4;
    if 0 <= k < WORD_BYTES {
      var m := MergeLane(w, l);
      assert m.enables[k] == if o <= k < o + 4 && l.enables[k - o] then true else w.enables[k];
      assert m.data[k] == if o <= k < o + 4 && l.enables[k - o] then l.data[k - o] else w.data[k];
    }
  }

  lemma LaneWordMeans(v: bv8, r: Simd, lane: nat, x: nat)
    requires Shaped(r) && Aligned(r) && lane in r.mask
    ensures WordAt(v, LaneWord(r, lane), x) == LaneAt(v, r.lanes[lane], x)
  {
    MergeMeans(v, EmptyWord(BaseOf(r.lanes[lane].address), r.lanes[lane].noncacheable), r.lanes[lane], x);
  }

  /** The lanes of one group, one after the other. */
  function GroupStored(v: bv8, r: Simd, g: nat, x: nat): bv8
    requires Shaped(r) && g < 2
  {
    var low := if 2 * g in r.mask then LaneAt(v, r.lanes[2 * g], x) else v;
    if 2 * g + 1 in r.mask then LaneAt(low, r.lanes[2 * g + 1], x) else low
  }

  lemma PlanMeans(v: bv8, r: Simd, g: nat, x: nat)
    requires Shaped(r) && Aligned(r) && g < 2
    ensures Stored(v, GroupPlan(r, g), x) == GroupStored(v, r, g, x)
  {
    hide MergeLane, LaneAt, WordAt, Stored;
    var low, high := 2 * g, 2 * g + 1;
    var ws := GroupPlan(r, g);
    StoredShort(v, ws, x);
    if Together(r, g) {
      LaneWordMeans(v, r, low, x);
      MergeMeans(v, LaneWord(r, low), r.lanes[high], x);
    } else {
      var first := if low in r.mask then LaneAt(v, r.lanes[low], x) else v;
      if low in r.mask { LaneWordMeans(v, r, low, x); }
      if high in r.mask { LaneWordMeans(first, r, high, x); }
    }
  }

  lemma GroupsInTurn(v: bv8, r: Simd, x: nat)
    requires Shaped(r)
    ensures LaneStored(v, r, 0, x) == GroupStored(GroupStored(v, r, 0, x), r, 1, x)
  {
    hide LaneAt;
    var a := if 0 in r.mask then LaneAt(v, r.lanes[0], x) else v;
    var b := if 1 in r.mask then LaneAt(a, r.lanes[1], x) else a;
    var c := if 2 in r.mask then LaneAt(b, r.lanes[2], x) else b;
    var d := if 3 in r.mask then LaneAt(c, r.lanes[3], x) else c;
    assert LaneStored(d, r, 4, x) == d;
    assert LaneStored(c, r, 3, x) == d;
    assert LaneStored(b, r, 2, x) == d;
    assert LaneStored(a, r, 1, x) == d;
  }

  // ----------------------------------------------------------------- interleaving

  /** One sequence merges two, each kept in its own order. */
  ghost predicate Interleaves(s: seq<WordRequest>, a: seq<WordRequest>, b: seq<WordRequest>)
    decreases |s|
  {
    if s == [] then a == [] && b == []
    else
      || (a != [] && s[0] == a[0] && Interleaves(s[1..], a[1..], b))
      || (b != [] && s[0] == b[0] && Interleaves(s[1..], a, b[1..]))
  }

  /** Where two words write the same byte they write the same value. */
  predicate SameBytes(p: WordRequest, q: WordRequest)
    requires WordShaped(p) && WordShaped(q)
  {
    p.address == q.address ==> forall k | 0 <= k < WORD_BYTES && p.enables[k] && q.enables[k] :: p.data[k] == q.data[k]
  }

  predicate Agree(a: seq<WordRequest>, b: seq<WordRequest>)
    requires AllShaped(a) && AllShaped(b)
  {
    forall i, j | 0 <= i < |a| && 0 <= j < |b| :: SameBytes(a[i], b[j])
  }

  predicate AllAligned(ws: seq<WordRequest>) {
    forall i | 0 <= i < |ws| :: ws[i].address % WORD_BYTES == 0
  }

  lemma WordsCommute(v: bv8, p: WordRequest, q: WordRequest, x: nat)
    requires WordShaped(p) && WordShaped(q) && SameBytes(p, q)
    requires p.address % WORD_BYTES == 0 && q.address % WORD_BYTES == 0
    ensures WordAt(WordAt(v, p, x), q, x) == WordAt(WordAt(v, q, x), p, x)
  {
    if Writes(p, x) && Writes(q, x) {
      assert p.address == q.address;
    }
  }

  lemma {:induction false} WordPasses(v: bv8, q: WordRequest, a: seq<WordRequest>, x: nat)
    requires WordShaped(q) && AllShaped(a) && AllAligned([q]) && AllAligned(a) && Agree(a, [q])
    ensures Stored(WordAt(v, q, x), a, x) == WordAt(Stored(v, a, x), q, x)
    decreases |a|
  {
    if a != [] {
      assert SameBytes(a[0], [q][0]);
      assert [q][0].address % WORD_BYTES == 0;
      WordsCommute(v, a[0], q, x);
      forall i, j | 0 <= i < |a[1..]| && 0 <= j < |[q]|
        ensures SameBytes(a[1..][i], [q][j])
      {
        assert SameBytes(a[i + 1], [q][j]);
      }
      WordPasses(WordAt(v, a[0], x), q, a[1..], x);
    }
  }

  lemma AgreeTail(a: seq<WordRequest>, b: seq<WordRequest>)
    requires AllShaped(a) && AllShaped(b) && Agree(a, b)
    ensures a != [] ==> AllShaped(a[1..]) && Agree(a[1..], b)
    ensures b != [] ==> AllShaped(b[1..]) && Agree(a, b[1..]) && Agree(a, [b[0]])
  {
    if a != [] {
      forall i, j | 0 <= i < |a[1..]| && 0 <= j < |b| ensures SameBytes(a[1..][i], b[j]) {
        assert SameBytes(a[i + 1], b[j]);
      }
    }
    if b != [] {
      forall i, j | 0 <= i < |a| && 0 <= j < |b[1..]| ensures SameBytes(a[i], b[1..][j]) {
        assert SameBytes(a[i], b[j + 1]);
      }
      forall i, j | 0 <= i < |a| && 0 <= j < |[b[0]]| ensures SameBytes(a[i], [b[0]][j]) {
        assert SameBytes(a[i], b[0]);
      }
    }
  }

  /** Agreeing ports: every interleaving is the first port's words, then the second's. */
  lemma {:induction false} AnyOrder(v: bv8, s: seq<WordRequest>, a: seq<WordRequest>, b: seq<WordRequest>, x: nat)
    requires Interleaves(s, a, b) && AllShaped(a) && AllShaped(b) && AllAligned(a) && AllAligned(b) && Agree(a, b)
    ensures AllShaped(s) && Stored(v, s, x) == Stored(Stored(v, a, x), b, x)
    decreases |s|
  {
    hide WordAt, SameBytes;
    if s != [] {
      AgreeTail(a, b);
      if a != [] && s[0] == a[0] && Interleaves(s[1..], a[1..], b) {
        AnyOrder(WordAt(v, a[0], x), s[1..], a[1..], b, x);
      } else {
        assert AllAligned([b[0]]);
        AnyOrder(WordAt(v, b[0], x), s[1..], a, b[1..], x);
        WordPasses(v, b[0], a, x);
      }
      assert s == [s[0]] + s[1..];
    }
  }

  // -------------------------------------------------------------------- acceptance

  /** Every lane of a group's word has the word's attribute. */
  predicate Uniform(r: Simd, b: Batch)
    requires Shaped(r) && |b.words| == 2
  {
    forall lane: nat | lane < LANES && lane in b.lanes && b.words[lane / 2].Some? ::
      r.lanes[lane].noncacheable == b.words[lane / 2].value.noncacheable
  }

  /** What the global side accepts. */
  predicate Accepts(r: Simd)
    requires Shaped(r)
  {
    && r.mask != {}
    && Aligned(r)
    && (forall i | i in r.mask :: !r.lanes[i].local)
    && (BatchesShaped(r, r.mask); var bs := Batches(r, r.mask); forall i | 0 <= i < |bs| :: Uniform(r, bs[i]))
    && (r.write ==> PortsAgree(r))
  }

  predicate PortsAgree(r: Simd)
    requires Shaped(r) && Aligned(r)
  {
    PlansShaped(r);
    Agree(Words(r, r.mask, 0), Words(r, r.mask, 1))
  }

  lemma PlansShaped(r: Simd)
    requires Shaped(r) && Aligned(r)
    ensures AllShaped(Words(r, r.mask, 0)) && AllShaped(Words(r, r.mask, 1))
    ensures AllAligned(Words(r, r.mask, 0)) && AllAligned(Words(r, r.mask, 1))
  {
    hide GroupPlan, Words, Aligned;
    PortCarries(r, 0);
    PortCarries(r, 1);
  }

  /** Whatever the ports' relative progress, an accepted store leaves the bytes of its lanes applied in ascending order. */
  lemma PortsRunFree(r: Simd, s: seq<WordRequest>, v: bv8, x: nat)
    requires Shaped(r) && Accepts(r) && r.write
    requires Interleaves(s, Words(r, r.mask, 0), Words(r, r.mask, 1))
    ensures AllShaped(s) && Stored(v, s, x) == LaneStored(v, r, 0, x)
  {
    hide GroupPlan, Words, Stored, GroupStored, Agree;
    PlansShaped(r);
    AnyOrder(v, s, Words(r, r.mask, 0), Words(r, r.mask, 1), x);
    PortCarries(r, 0);
    PortCarries(r, 1);
    PlanMeans(v, r, 0, x);
    PlanMeans(GroupStored(v, r, 0, x), r, 1, x);
    GroupsInTurn(v, r, x);
  }

  // ------------------------------------------------------------ rejection is needed

  lemma {:induction false} FirstThenSecond(a: seq<WordRequest>, b: seq<WordRequest>)
    ensures Interleaves(a + b, a, b)
    decreases |a| + |b|
  {
    if a != [] {
      FirstThenSecond(a[1..], b);
      assert (a + b)[1..] == a[1..] + b;
    } else if b != [] {
      FirstThenSecond(a, b[1..]);
      assert (a + b)[1..] == a + b[1..];
    }
  }

  lemma {:induction false} SecondThenFirst(a: seq<WordRequest>, b: seq<WordRequest>)
    ensures Interleaves(b + a, a, b)
    decreases |a| + |b|
  {
    if b != [] {
      SecondThenFirst(a, b[1..]);
      assert (b + a)[1..] == b[1..] + a;
    } else if a != [] {
      SecondThenFirst(a[1..], b);
      assert (b + a)[1..] == b + a[1..];
    }
  }

  lemma {:induction false} StoredTwice(v: bv8, a: seq<WordRequest>, b: seq<WordRequest>, x: nat)
    requires AllShaped(a) && AllShaped(b)
    ensures AllShaped(a + b) && Stored(v, a + b, x) == Stored(Stored(v, a, x), b, x)
    decreases |a|
  {
    if a == [] {
      assert a + b == b;
    } else {
      StoredTwice(WordAt(v, a[0], x), a[1..], b, x);
      assert (a + b)[1..] == a[1..] + b;
    }
  }

  /** A byte that one word of a plan writes keeps that word's value, when lanes of one word are merged. */
  lemma PlanWrites(v: bv8, r: Simd, g: nat, i: nat, x: nat)
    requires Shaped(r) && Aligned(r) && g < 2 && !r.noMerge
    requires i < |GroupPlan(r, g)| && Writes(GroupPlan(r, g)[i], x)
    ensures var ws := GroupPlan(r, g); Stored(v, ws, x) == ws[i].data[x - ws[i].address]
  {
    hide MergeLane, Stored, BaseOf;
    var ws := GroupPlan(r, g);
    StoredShort(v, ws, x);
    if |ws| == 2 {
      assert ws[0].address != ws[1].address;
      assert ws[0].address % WORD_BYTES == 0 && ws[1].address % WORD_BYTES == 0;
    }
  }

  /** Two legal orders of the request's words that leave a byte, whatever it held, with two different values. */
  ghost predicate OrderMatters(r: Simd, s: seq<WordRequest>, t: seq<WordRequest>, v: bv8, x: nat)
    requires Shaped(r) && Aligned(r)
  {
    && Interleaves(s, Words(r, r.mask, 0), Words(r, r.mask, 1)) && AllShaped(s)
    && Interleaves(t, Words(r, r.mask, 0), Words(r, r.mask, 1)) && AllShaped(t)
    && Stored(v, s, x) != Stored(v, t, x)
  }

  ghost predicate OrderShows(r: Simd)
    requires Shaped(r) && Aligned(r)
  {
    exists s, t, v, x :: OrderMatters(r, s, t, v, x)
  }

  // ------------------------------------------------------- what an interleaving leaves

  ghost predicate Touches(ws: seq<WordRequest>, x: nat)
    requires AllShaped(ws)
  {
    exists i :: 0 <= i < |ws| && Writes(ws[i], x)
  }

  lemma TouchesTail(ws: seq<WordRequest>, x: nat)
    requires AllShaped(ws) && ws != []
    ensures AllShaped(ws[1..]) && (Touches(ws, x) <==> Writes(ws[0], x) || Touches(ws[1..], x))
  {
    hide Writes;
    if Touches(ws, x) && !Writes(ws[0], x) {
      var i :| 0 <= i < |ws| && Writes(ws[i], x);
      assert ws[1..][i - 1] == ws[i];
    }
    if Touches(ws[1..], x) {
      var i :| 0 <= i < |ws[1..]| && Writes(ws[1..][i], x);
      assert ws[i + 1] == ws[1..][i];
    }
  }

  /** A byte that is written forgets what it held; one that is not keeps it. */
  lemma {:induction false} StoredForgets(v: bv8, u: bv8, ws: seq<WordRequest>, x: nat)
    requires AllShaped(ws)
    ensures Touches(ws, x) ==> Stored(v, ws, x) == Stored(u, ws, x)
    ensures !Touches(ws, x) ==> Stored(v, ws, x) == v
    decreases |ws|
  {
    hide Writes, Touches;
    if ws == [] {
      NothingTouches(x);
    } else {
      TouchesTail(ws, x);
      StoredForgets(WordAt(v, ws[0], x), WordAt(u, ws[0], x), ws[1..], x);
    }
  }

  lemma NothingTouches(x: nat)
    ensures !Touches([], x)
  {
  }

  /** An interleaving leaves in each byte the last write of one of the ports that touch it. */
  ghost predicate LeavesOne(v: bv8, s: seq<WordRequest>, a: seq<WordRequest>, b: seq<WordRequest>, x: nat)
    requires AllShaped(s) && AllShaped(a) && AllShaped(b)
  {
    && (!Touches(a, x) ==> Stored(v, s, x) == Stored(v, b, x))
    && (!Touches(b, x) ==> Stored(v, s, x) == Stored(v, a, x))
    && (Stored(v, s, x) == Stored(v, a, x) || Stored(v, s, x) == Stored(v, b, x))
  }

  lemma {:induction false} LastWriteStays(v: bv8, s: seq<WordRequest>, a: seq<WordRequest>, b: seq<WordRequest>, x: nat)
    requires Interleaves(s, a, b) && AllShaped(a) && AllShaped(b)
    ensures AllShaped(s) && LeavesOne(v, s, a, b, x)
    decreases |s|
  {
    hide Writes, Touches, WordAt;
    if s != [] {
      if a != [] && s[0] == a[0] && Interleaves(s[1..], a[1..], b) {
        LastWriteStays(WordAt(v, a[0], x), s[1..], a[1..], b, x);
        FromFirst(v, s, a, b, x);
      } else {
        LastWriteStays(WordAt(v, b[0], x), s[1..], a, b[1..], x);
        FromSecond(v, s, a, b, x);
      }
    }
  }

  lemma HeadUntouched(v: bv8, ws: seq<WordRequest>, x: nat)
    requires AllShaped(ws) && ws != []
    ensures !Touches(ws, x) ==> WordAt(v, ws[0], x) == v
  {
    TouchesTail(ws, x);
  }

  lemma FromFirst(v: bv8, s: seq<WordRequest>, a: seq<WordRequest>, b: seq<WordRequest>, x: nat)
    requires s != [] && a != [] && s[0] == a[0] && AllShaped(s[1..]) && AllShaped(a) && AllShaped(b)
    requires LeavesOne(WordAt(v, a[0], x), s[1..], a[1..], b, x)
    ensures AllShaped(s) && LeavesOne(v, s, a, b, x)
  {
    hide Writes, Touches, WordAt;
    assert s == [s[0]] + s[1..];
    TouchesTail(a, x);
    HeadUntouched(v, a, x);
    StoredForgets(WordAt(v, a[0], x), v, b, x);
  }

  lemma FromSecond(v: bv8, s: seq<WordRequest>, a: seq<WordRequest>, b: seq<WordRequest>, x: nat)
    requires s != [] && b != [] && s[0] == b[0] && AllShaped(s[1..]) && AllShaped(a) && AllShaped(b)
    requires LeavesOne(WordAt(v, b[0], x), s[1..], a, b[1..], x)
    ensures AllShaped(s) && LeavesOne(v, s, a, b, x)
  {
    hide Writes, Touches, WordAt;
    assert s == [s[0]] + s[1..];
    TouchesTail(b, x);
    HeadUntouched(v, b, x);
    StoredForgets(WordAt(v, b[0], x), v, a, x);
  }

  // --------------------------------------------------------------- when the order shows

  predicate LaneWrites(r: Simd, lane: nat, x: nat)
    requires Shaped(r) && lane < LANES
  {
    lane in r.mask && r.lanes[lane].address <= x < r.lanes[lane].address + 4 && r.lanes[lane].enables[x - r.lanes[lane].address]
  }

  /**
   Both groups write the byte, and their last lanes to do so write different values. This
   is a fact about the request alone, whatever the batches.
   */
  predicate GroupsClash(r: Simd, x: nat)
    requires Shaped(r)
  {
    && (LaneWrites(r, 0, x) || LaneWrites(r, 1, x)) && (LaneWrites(r, 2, x) || LaneWrites(r, 3, x))
    && GroupStored(0, r, 0, x) != GroupStored(0, r, 1, x)
  }

  /** A port touches the bytes its group's lanes write, and leaves what they leave. */
  lemma PortMeans(v: bv8, r: Simd, g: nat, x: nat)
    requires Shaped(r) && Aligned(r) && g < 2
    ensures AllShaped(Words(r, r.mask, g)) && Stored(v, Words(r, r.mask, g), x) == GroupStored(v, r, g, x)
    ensures Touches(Words(r, r.mask, g), x) <==> LaneWrites(r, 2 * g, x) || LaneWrites(r, 2 * g + 1, x)
  {
    hide GroupPlan, Words, Stored, Touches, Aligned;
    PortCarries(r, g);
    var ws := Words(r, r.mask, g);
    PlanMeans(v, r, g, x);
    PlanMeans(0, r, g, x);
    PlanMeans(1, r, g, x);
    StoredForgets(0, 1, ws, x);
    StoredForgets(1, 0, ws, x);
  }

  /** For every store, merging or not: two orders can differ exactly when the groups clash on some byte. */
  lemma OrderShowsExactly(r: Simd)
    requires Shaped(r) && Aligned(r)
    ensures OrderShows(r) <==> exists x: nat :: GroupsClash(r, x)
  {
    hide Words, Stored, Touches, GroupStored, LaneWrites, Interleaves, Aligned;
    var a, b := Words(r, r.mask, 0), Words(r, r.mask, 1);
    if OrderShows(r) {
      var s, t, v, x :| OrderMatters(r, s, t, v, x);
      PortMeans(0, r, 0, x);
      PortMeans(0, r, 1, x);
      LastWriteStays(v, s, a, b, x);
      LastWriteStays(v, t, a, b, x);
      StoredForgets(v, 0, a, x);
      StoredForgets(v, 0, b, x);
      assert GroupsClash(r, x);
    }
    if exists x: nat :: GroupsClash(r, x) {
      var x: nat :| GroupsClash(r, x);
      PortMeans(0, r, 0, x);
      PortMeans(0, r, 1, x);
      FirstThenSecond(a, b);
      SecondThenFirst(a, b);
      StoredTwice(0, a, b, x);
      StoredTwice(0, b, a, x);
      StoredForgets(Stored(0, a, x), 0, b, x);
      StoredForgets(Stored(0, b, x), 0, a, x);
      assert OrderMatters(r, a + b, b + a, 0, x);
    }
  }

  /** The ports hold two words that disagree on a byte. */
  lemma DisagreeAt(r: Simd) returns (i: nat, j: nat, x: nat)
    requires Shaped(r) && Aligned(r) && !PortsAgree(r)
    ensures var a, b := Words(r, r.mask, 0), Words(r, r.mask, 1);
            && i < |a| && j < |b| && WordShaped(a[i]) && WordShaped(b[j]) && Writes(a[i], x) && Writes(b[j], x)
            && a[i].data[x - a[i].address] != b[j].data[x - b[j].address]
  {
    hide Words;
    PlansShaped(r);
    var a, b := Words(r, r.mask, 0), Words(r, r.mask, 1);
    i, j :| 0 <= i < |a| && 0 <= j < |b| && !SameBytes(a[i], b[j]);
    var k :| 0 <= k < WORD_BYTES && a[i].enables[k] && b[j].enables[k] && a[i].data[k] != b[j].data[k];
    x := a[i].address + k;
  }

  /** Merged words write each byte once, so a disagreement is a clash. */
  lemma MergedClash(r: Simd)
    requires Shaped(r) && Aligned(r) && !r.noMerge && !PortsAgree(r)
    ensures exists x: nat :: GroupsClash(r, x)
  {
    hide GroupPlan, Words, Stored, Aligned, GroupStored, LaneWrites, PortsAgree;
    var i, j, x := DisagreeAt(r);
    PortCarries(r, 0);
    PortCarries(r, 1);
    PlanWrites(0, r, 0, i, x);
    PlanWrites(0, r, 1, j, x);
    PortMeans(0, r, 0, x);
    PortMeans(0, r, 1, x);
    assert Touches(Words(r, r.mask, 0), x) && Touches(Words(r, r.mask, 1), x);
    assert GroupsClash(r, x);
  }

  /**
   A store is refused for its order whenever its order shows. The converse, that a refused
   store's order shows, holds exactly when the groups clash on some byte, and always for
   stores that may merge: a store that forbids merging is refused without need when its
   ports disagree on a byte that both of them leave with one value.
   */
  lemma RefusedWhenOrderShows(r: Simd)
    requires Shaped(r) && Aligned(r)
    ensures OrderShows(r) ==> !PortsAgree(r)
    ensures !PortsAgree(r) && !OrderShows(r) <==> !PortsAgree(r) && forall x: nat :: !GroupsClash(r, x)
    ensures !r.noMerge ==> (!PortsAgree(r) <==> OrderShows(r))
  {
    hide Words, Stored, Interleaves, GroupsClash;
    PlansShaped(r);
    OrderShowsExactly(r);
    var a, b := Words(r, r.mask, 0), Words(r, r.mask, 1);
    if PortsAgree(r) {
      forall s, t, v, x ensures !OrderMatters(r, s, t, v, x) {
        if Interleaves(s, a, b) && Interleaves(t, a, b) {
          AnyOrder(v, s, a, b, x);
          AnyOrder(v, t, a, b, x);
        }
      }
    } else if !r.noMerge {
      MergedClash(r);
    }
  }

  // ----------------------------------------------------------- a refusal without need

  function ByteLane(value: bv8): Lane {
    Lane(0, [true, false, false, false], [value, 0, 0, 0], false, false)
  }

  /** Lanes 0 and 1 write byte 0 one after the other; lane 2 writes what lane 1 left. */
  const NEEDLESS: Simd := Simd({0, 1, 2}, true, true, [ByteLane(1), ByteLane(2), ByteLane(2), ByteLane(0)])

  /** This store is refused although every order of its words leaves the same bytes. */
  lemma RefusedWithoutNeed()
    ensures Shaped(NEEDLESS) && Aligned(NEEDLESS) && !PortsAgree(NEEDLESS) && !OrderShows(NEEDLESS)
  {
    hide Words, Interleaves, OrderShows, PortsAgree;
    var r := NEEDLESS;
    RefusedWhenOrderShows(r);
    assert !PortsAgree(r) by { NeedlessDisagrees(); }
    forall x: nat ensures !GroupsClash(r, x) {
      if x != 0 {
        assert !LaneWrites(r, 2, x) && !LaneWrites(r, 3, x);
      }
    }
  }

  lemma NeedlessDisagrees()
    ensures Shaped(NEEDLESS) && Aligned(NEEDLESS) && !PortsAgree(NEEDLESS)
  {
    hide MergeLane, Words, PortsAgree;
    var r := NEEDLESS;
    PlansShaped(r);
    PortCarries(r, 0);
    PortCarries(r, 1);
    var a, b := Words(r, r.mask, 0), Words(r, r.mask, 1);
    assert !Together(r, 0) && !Together(r, 1);
    assert a == [LaneWord(r, 0), LaneWord(r, 1)] && b == [LaneWord(r, 2)];
    NeedlessWords();
    assert !SameBytes(a[0], b[0]);
    assert !PortsAgree(r) by { AgreeMeans(r, 0, 0); }
  }

  lemma NeedlessWords()
    ensures LaneWord(NEEDLESS, 0).enables[0] && LaneWord(NEEDLESS, 0).data[0] == 1
    ensures LaneWord(NEEDLESS, 2).enables[0] && LaneWord(NEEDLESS, 2).data[0] == 2
  {
  }

  lemma AgreeMeans(r: Simd, i: nat, j: nat)
    requires Shaped(r) && Aligned(r) && i < |Words(r, r.mask, 0)| && j < |Words(r, r.mask, 1)|
    ensures WordShaped(Words(r, r.mask, 0)[i]) && WordShaped(Words(r, r.mask, 1)[j])
    ensures PortsAgree(r) ==> SameBytes(Words(r, r.mask, 0)[i], Words(r, r.mask, 1)[j])
  {
    hide Words, SameBytes;
    PlansShaped(r);
  }

  // -------------------------------------------------------------------------- loads

  /** A lane's four bytes of a returned word. */
  function Expand(l: Lane, word: seq<bv8>): (bytes: seq<bv8>)
    requires l.address % 4 == 0 && |word| == WORD_BYTES
    ensures |bytes| == 4
  {
    word[l.address % WORD_BYTES..l.address % WORD_BYTES + 4]
  }

  lemma LaneAsks(r: Simd, remaining: set<nat>, lane: nat)
    requires Shaped(r) && Aligned(r) && lane in MakeBatch(r, remaining).lanes
    ensures lane in r.mask && GroupWord(r, remaining, lane / 2).Some?
    ensures GroupWord(r, remaining, lane / 2).value.address == BaseOf(r.lanes[lane].address)
  {
    hide BaseOf, GroupWord;
  }

  lemma ExpandMeans(l: Lane, word: seq<bv8>, memory: nat -> bv8)
    requires l.address % 4 == 0 && |word| == WORD_BYTES
    ensures (forall k: nat | k < WORD_BYTES :: word[k] == memory(BaseOf(l.address) + k)) ==>
              forall k: nat | k < 4 :: Expand(l, word)[k] == memory(l.address + k)
  {
    var o, b := l.address % WORD_BYTES, BaseOf(l.address);
    assert o + 4 <= WORD_BYTES && l.address == b + o;
    assert forall k: nat | k < 4 :: Expand(l, word)[k] == word[o + k];
    hide BaseOf, Expand;
    if forall k: nat | k < WORD_BYTES :: word[k] == memory(b + k) {
      forall k: nat | k < 4 ensures Expand(l, word)[k] == memory(l.address + k) {
        assert word[o + k] == memory(b + (o + k)) && b + (o + k) == l.address + k;
      }
    }
  }

  lemma {:induction false} BatchAsks(r: Simd, remaining: set<nat>, i: nat, lane: nat)
    requires Shaped(r) && Aligned(r) && remaining <= r.mask
    requires i < |Batches(r, remaining)| && lane in Batches(r, remaining)[i].lanes
    ensures lane in r.mask && lane / 2 < |Batches(r, remaining)[i].words| && Batches(r, remaining)[i].words[lane / 2].Some?
    ensures Batches(r, remaining)[i].words[lane / 2].value.address == BaseOf(r.lanes[lane].address)
    decreases |remaining|
  {
    hide GroupLanes, GroupWord, BaseOf, Joins;
    SeedTaken(r, remaining);
    var b := MakeBatch(r, remaining);
    var rest := remaining - b.lanes;
    Smaller(rest, remaining);
    assert Batches(r, remaining) == [b] + Batches(r, rest);
    if i > 0 {
      BatchAsks(r, rest, i - 1, lane);
    } else {
      LaneAsks(r, remaining, lane);
    }
  }

  /** If the word a batch asks for comes back as memory holds it, every lane of the batch gets its own four bytes. */
  lemma LanesReadMemory(r: Simd, i: nat, lane: nat, word: seq<bv8>, memory: nat -> bv8)
    requires Shaped(r) && Aligned(r) && i < |Batches(r, r.mask)| && lane in Batches(r, r.mask)[i].lanes
    requires |word| == WORD_BYTES
    ensures lane in r.mask && lane / 2 < |Batches(r, r.mask)[i].words| && Batches(r, r.mask)[i].words[lane / 2].Some?
    ensures var w := Batches(r, r.mask)[i].words[lane / 2].value;
            (forall k: nat | k < WORD_BYTES :: word[k] == memory(w.address + k)) ==>
              forall k: nat | k < 4 :: Expand(r.lanes[lane], word)[k] == memory(r.lanes[lane].address + k)
  {
    hide Batches, BaseOf, Expand;
    BatchAsks(r, r.mask, i, lane);
    ExpandMeans(r.lanes[lane], word, memory);
  }
}
