/**
 Coalescing one four-lane request into word transfers (timing/memsys/coalescer.go):
 lanes 0-1 feed port 0 and lanes 2-3 port 1; each batch takes the lowest waiting
 lane of a group and every lane of that group in the same eight-byte word.
 */
module Coalescing {
  import opened CacheTypes

  const LANES: nat := 4
  const WORD_BYTES: nat := 8

  /** One LSU word: four bytes at a four-aligned address. */
  datatype Lane = Lane(address: nat, enables: seq<bool>, data: seq<bv8>, local: bool, noncacheable: bool)

  /** The byte fields have their widths by type in the source. */
  predicate LaneShaped(l: Lane) {
    |l.enables| == 4 && |l.data| == 4
  }

  datatype Simd = Simd(mask: set<nat>, write: bool, noMerge: bool, lanes: seq<Lane>)

  type Lanes = set<nat>

  /** Who asked: the transaction number, and everything else that names the residency. */
  datatype Identity = Identity(transaction: nat, residency: nat)

  datatype SimdRequest = SimdRequest(id: Identity, tag: nat, simd: Simd)

  /** A load batch's slot, and the number of that use of the slot. */
  datatype BatchId = BatchId(slot: nat, generation: nat)

  predicate Shaped(r: Simd) {
    |r.lanes| == LANES && (forall i | 0 <= i < LANES :: LaneShaped(r.lanes[i])) && forall i | i in r.mask :: i < LANES
  }

  /** One eight-byte transfer. */
  datatype WordRequest = WordRequest(address: nat, enables: seq<bool>, data: seq<bv8>, noncacheable: bool)

  predicate WordShaped(w: WordRequest) {
    |w.enables| == WORD_BYTES && |w.data| == WORD_BYTES
  }

  datatype Batch = Batch(lanes: set<nat>, words: seq<Option<WordRequest>>)

  function BaseOf(a: nat): (b: nat)
    ensures b % WORD_BYTES == 0 && b <= a < b + WORD_BYTES
  {
    a - a % WORD_BYTES
  }

  predicate Aligned(r: Simd)
    requires Shaped(r)
  {
    forall i | i in r.mask :: r.lanes[i].address % 4 == 0
  }

  // -------------------------------------------------------------------- merging

  /** The word after one lane's enabled bytes. */
  function MergeLane(w: WordRequest, l: Lane): (r: WordRequest)
    requires WordShaped(w) && LaneShaped(l) && l.address % 4 == 0
    ensures WordShaped(r) && r.address == w.address && r.noncacheable == w.noncacheable
  {
    var o := l.address % WORD_BYTES;
    w.(enables := seq(WORD_BYTES, k requires 0 <= k < WORD_BYTES => if o <= k < o + 4 && l.enables[k - o] then true else w.enables[k]),
       data := seq(WORD_BYTES, k requires 0 <= k < WORD_BYTES => if o <= k < o + 4 && l.enables[k - o] then l.data[k - o] else w.data[k]))
  }

  function EmptyWord(address: nat, noncacheable: bool): (w: WordRequest)
    ensures WordShaped(w) && w.address == address && w.noncacheable == noncacheable
  {
    WordRequest(address, [false, false, false, false, false, false, false, false], ZERO_WORD, noncacheable)
  }

  /** The waiting lane a group's batch starts from. */
  function Seed(r: Simd, remaining: set<nat>, g: nat): Option<nat> {
    if 2 * g in r.mask && 2 * g in remaining then Some(2 * g)
    else if 2 * g + 1 in r.mask && 2 * g + 1 in remaining then Some(2 * g + 1)
    else None
  }

  /** The lane travels with the seed. */
  predicate Joins(r: Simd, seed: nat, lane: nat)
    requires Shaped(r) && seed < LANES && lane < LANES
  {
    lane in r.mask && BaseOf(r.lanes[lane].address) == BaseOf(r.lanes[seed].address) && !(r.noMerge && lane != seed)
  }

  function GroupLanes(r: Simd, remaining: set<nat>, g: nat): set<nat>
    requires Shaped(r) && g < 2
  {
    match Seed(r, remaining, g)
    case None => {}
    case Some(s) => set l | l in {2 * g, 2 * g + 1} && Joins(r, s, l)
  }

  function GroupWord(r: Simd, remaining: set<nat>, g: nat): (w: Option<WordRequest>)
    requires Shaped(r) && Aligned(r) && g < 2
    ensures w.Some? == Seed(r, remaining, g).Some?
    ensures w.Some? ==> WordShaped(w.value) && w.value.address == BaseOf(r.lanes[Seed(r, remaining, g).value].address)
  {
    match Seed(r, remaining, g)
    case None => None
    case Some(s) =>
      var empty := EmptyWord(BaseOf(r.lanes[s].address), r.lanes[s].noncacheable);
      var low := if Joins(r, s, 2 * g) then MergeLane(empty, r.lanes[2 * g]) else empty;
      Some(if Joins(r, s, 2 * g + 1) then MergeLane(low, r.lanes[2 * g + 1]) else low)
  }

  function MakeBatch(r: Simd, remaining: set<nat>): Batch
    requires Shaped(r) && Aligned(r)
  {
    Batch(GroupLanes(r, remaining, 0) + GroupLanes(r, remaining, 1), [GroupWord(r, remaining, 0), GroupWord(r, remaining, 1)])
  }

  /** The batches of a request, in order, until no lane waits. */
  function Batches(r: Simd, remaining: set<nat>): seq<Batch>
    requires Shaped(r) && Aligned(r) && remaining <= r.mask
    decreases |remaining|
  {
    if remaining == {} then []
    else
      SeedTaken(r, remaining);
      var b := MakeBatch(r, remaining);
      Smaller(remaining - b.lanes, remaining);
      [b] + Batches(r, remaining - b.lanes)
  }

  lemma Smaller(a: set<nat>, b: set<nat>)
    ensures a < b ==> |a| < |b|
  {
    if a < b {
      assert b == a + (b - a) && |b - a| > 0;
    }
  }

  /** Every batch takes at least one waiting lane. */
  lemma SeedTaken(r: Simd, remaining: set<nat>)
    requires Shaped(r) && Aligned(r) && remaining <= r.mask && remaining != {}
    ensures remaining - MakeBatch(r, remaining).lanes < remaining
  {
    var x :| x in remaining;
    var g := x / 2;
    var s := Seed(r, remaining, g).value;
    assert s in GroupLanes(r, remaining, g) && s in remaining;
  }

  lemma BatchesNext(r: Simd, remaining: set<nat>)
    requires Shaped(r) && Aligned(r) && remaining <= r.mask && remaining != {}
    ensures Batches(r, remaining) == [MakeBatch(r, remaining)] + Batches(r, remaining - MakeBatch(r, remaining).lanes)
    ensures |remaining - MakeBatch(r, remaining).lanes| < |remaining|
  {
    hide MakeBatch;
    SeedTaken(r, remaining);
    Smaller(remaining - MakeBatch(r, remaining).lanes, remaining);
  }

  // ------------------------------------------------------------------ the loops

  method MergeBytes(w: WordRequest, l: Lane) returns (r: WordRequest)
    requires WordShaped(w) && LaneShaped(l) && l.address % 4 == 0
    ensures r == MergeLane(w, l)
  {
    var offset := l.address % WORD_BYTES;
    var enables, data := w.enables, w.data;
    var k := 0;
    while k < 4
      invariant k <= 4 && |enables| == WORD_BYTES && |data| == WORD_BYTES
      invariant forall i | 0 <= i < WORD_BYTES :: enables[i] == if offset <= i < offset + k && l.enables[i - offset] then true else w.enables[i]
      invariant forall i | 0 <= i < WORD_BYTES :: data[i] == if offset <= i < offset + k && l.enables[i - offset] then l.data[i - offset] else w.data[i]
    {
      if l.enables[k] {
        enables := enables[offset + k := true];
        data := data[offset + k := l.data[k]];
      }
      k := k + 1;
    }
    r := w.(enables := enables, data := data);
  }

  /** The group loop of a batch: seed, then the lanes of its word in ascending order. */
  method BuildBatch(r: Simd, remaining: set<nat>) returns (b: Batch)
    requires Shaped(r) && Aligned(r)
    ensures b == MakeBatch(r, remaining)
  {
    var lanes, words := {}, [];
    var group := 0;
    while group < 2
      invariant group <= 2 && |words| == group
      invariant lanes == (if group > 0 then GroupLanes(r, remaining, 0) else {}) + (if group > 1 then GroupLanes(r, remaining, 1) else {})
      invariant forall g | 0 <= g < group :: words[g] == GroupWord(r, remaining, g)
    {
      var seed := Seed(r, remaining, group);
      if seed.Some? {
        var s := seed.value;
        var w := EmptyWord(BaseOf(r.lanes[s].address), r.lanes[s].noncacheable);
        var taken := {};
        if Joins(r, s, 2 * group) {
          taken := taken + {2 * group};
          w := MergeBytes(w, r.lanes[2 * group]);
        }
        if Joins(r, s, 2 * group + 1) {
          taken := taken + {2 * group + 1};
          w := MergeBytes(w, r.lanes[2 * group + 1]);
        }
        assert taken == GroupLanes(r, remaining, group);
        lanes := lanes + taken;
        words := words + [Some(w)];
      } else {
        words := words + [None];
      }
      group := group + 1;
    }
    b := Batch(lanes, words);
  }
}
