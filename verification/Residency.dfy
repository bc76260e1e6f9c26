/**
 Which CTAs are resident, with which warps and which local-memory bytes
 (emu/core/cta.go). Admission of a group is all or nothing.
 */
module Residency {
  import opened CacheTypes
  import opened LocalMemory

  datatype Resident = Resident(size: nat, offset: nat, warps: seq<nat>)

  /** A CTA to admit: its aligned local-memory size and the warps chosen for it. */
  datatype Candidate = Candidate(size: nat, warps: seq<nat>)

  datatype State = State(ctas: map<nat, Resident>, byWarp: seq<Option<nat>>)

  function IntervalOf(r: Resident): Interval {
    Interval(r.offset, r.offset + r.size)
  }

  predicate PlacedOk(r: Resident) {
    r.offset + r.size <= SIZE && (r.size == 0 ==> r.offset == 0)
  }

  predicate Separate(a: Resident, b: Resident) {
    Apart(a.offset, a.size, IntervalOf(b))
  }

  /** Resident ranges lie inside the array and share no byte. */
  ghost predicate Ranges(ctas: map<nat, Resident>) {
    && (forall id | id in ctas :: id < WARPS && PlacedOk(ctas[id]))
    && (forall a, b | a in ctas && b in ctas && a != b :: Separate(ctas[a], ctas[b]))
  }

  /** The CTA's warps name it. */
  ghost predicate Owns(s: State, id: nat)
    requires |s.byWarp| == WARPS && id in s.ctas
  {
    forall w | w in s.ctas[id].warps :: w < WARPS && s.byWarp[w] == Some(id)
  }

  /** The warp's CTA names it. */
  ghost predicate OwnedBack(s: State, w: nat)
    requires |s.byWarp| == WARPS && w < WARPS
  {
    s.byWarp[w].Some? ==> s.byWarp[w].value in s.ctas && w in s.ctas[s.byWarp[w].value].warps
  }

  ghost predicate Valid(s: State) {
    && |s.byWarp| == WARPS && Ranges(s.ctas)
    && (forall id | id in s.ctas :: Owns(s, id)) && (forall w | 0 <= w < WARPS :: OwnedBack(s, w))
  }

  function EmptyState(): State {
    State(map[], seq(WARPS, _ => None))
  }

  // ---------------------------------------------------------------- admission

  /** The free CTA numbers from `from` on, lowest first. */
  function FreeIds(s: State, from: nat): (r: seq<nat>)
    ensures forall k | 0 <= k < |r| :: from <= r[k] < WARPS && r[k] !in s.ctas
    ensures forall i, j | 0 <= i < j < |r| :: r[i] < r[j]
    decreases WARPS - from
  {
    if from >= WARPS then [] else (if from in s.ctas then [] else [from]) + FreeIds(s, from + 1)
  }

  /** The occupied ranges, lowest CTA number first. */
  function Occupied(s: State, from: nat): (r: seq<Interval>)
    ensures forall i | i in r :: exists id :: id in s.ctas && id >= from && i == IntervalOf(s.ctas[id])
    ensures forall id | id in s.ctas && from <= id < WARPS :: IntervalOf(s.ctas[id]) in r
    decreases WARPS - from
  {
    if from >= WARPS then [] else (if from in s.ctas then [IntervalOf(s.ctas[from])] else []) + Occupied(s, from + 1)
  }

  /** Places the candidates one after another, each beside those before it. */
  function PlaceAll(cands: seq<Candidate>, intervals: seq<Interval>): (r: Option<seq<Resident>>)
    ensures r.Some? ==> |r.value| == |cands|
    decreases |cands|
  {
    if cands == [] then Some([])
    else
      var c := cands[0];
      match FirstFit(intervals, c.size)
      case None => None
      case Some(o) =>
        var rest := PlaceAll(cands[1..], intervals + [Interval(o, o + c.size)]);
        if rest.None? then None else Some([Resident(c.size, o, c.warps)] + rest.value)
  }

  /** The candidate's warps exist and are free. */
  predicate WarpFree(s: State, c: Candidate)
    requires |s.byWarp| == WARPS
  {
    forall w | w in c.warps :: w < WARPS && s.byWarp[w].None?
  }

  predicate NoCommonWarp(a: seq<nat>, b: seq<nat>) {
    forall w | w in a :: w !in b
  }

  /** No warp is taken, out of range or named twice. */
  predicate WarpsFree(s: State, cands: seq<Candidate>)
    requires |s.byWarp| == WARPS
  {
    && (forall k | 0 <= k < |cands| :: WarpFree(s, cands[k]))
    && (forall i, j | 0 <= i < j < |cands| :: NoCommonWarp(cands[i].warps, cands[j].warps))
  }

  function Install(s: State, id: nat, r: Resident): State
    requires |s.byWarp| == WARPS
  {
    State(s.ctas[id := r], seq(WARPS, w requires 0 <= w < WARPS => if w in r.warps then Some(id) else s.byWarp[w]))
  }

  function InstallAll(s: State, ids: seq<nat>, rs: seq<Resident>): State
    requires |s.byWarp| == WARPS && |rs| <= |ids|
    decreases |rs|
  {
    if rs == [] then s else InstallAll(Install(s, ids[0], rs[0]), ids[1..], rs[1..])
  }

  /** The state after admitting the whole group, or nothing when its resources are not free. */
  function Admit(s: State, cands: seq<Candidate>): Option<State>
    requires |s.byWarp| == WARPS
  {
    var free := FreeIds(s, 0);
    var placed := PlaceAll(cands, Occupied(s, 0));
    if |free| < |cands| || !WarpsFree(s, cands) || placed.None? then None else Some(InstallAll(s, free, placed.value))
  }

  // ---------------------------------------------------------------- placement

  ghost predicate AllProper(intervals: seq<Interval>) {
    forall k | 0 <= k < |intervals| :: Proper(intervals[k]) && intervals[k].end <= SIZE
  }

  /** The new residents lie inside, apart from what was there and from each other. */
  ghost predicate PlacedApart(rs: seq<Resident>, intervals: seq<Interval>) {
    && (forall k | 0 <= k < |rs| :: PlacedOk(rs[k]))
    && (forall k, i | 0 <= k < |rs| && i in intervals :: Apart(rs[k].offset, rs[k].size, i))
    && (forall i, j | 0 <= i < j < |rs| :: Separate(rs[i], rs[j]))
  }

  lemma {:induction false} PlaceAllApart(cands: seq<Candidate>, intervals: seq<Interval>)
    requires AllProper(intervals) && PlaceAll(cands, intervals).Some?
    ensures PlacedApart(PlaceAll(cands, intervals).value, intervals)
    decreases |cands|
  {
    hide FirstFit, PlacedApart, AllProper;
    if cands == [] {
      NonePlaced(intervals);
    } else {
      var c := cands[0];
      var o := FirstFit(intervals, c.size).value;
      PlaceOne(intervals, c.size);
      var more := intervals + [Interval(o, o + c.size)];
      PlaceAllApart(cands[1..], more);
      PlacedPush(Resident(c.size, o, c.warps), PlaceAll(cands[1..], more).value, intervals);
    }
  }

  lemma NonePlaced(intervals: seq<Interval>)
    ensures PlacedApart([], intervals)
  {
  }

  /** The residents are the candidates, in order. */
  ghost predicate PlacedFor(rs: seq<Resident>, cands: seq<Candidate>) {
    |rs| == |cands| && forall k | 0 <= k < |cands| :: rs[k].warps == cands[k].warps && rs[k].size == cands[k].size
  }

  lemma {:induction false} PlaceAllFor(cands: seq<Candidate>, intervals: seq<Interval>)
    requires PlaceAll(cands, intervals).Some?
    ensures PlacedFor(PlaceAll(cands, intervals).value, cands)
    decreases |cands|
  {
    hide FirstFit;
    if cands != [] {
      var c := cands[0];
      var o := FirstFit(intervals, c.size).value;
      PlaceAllFor(cands[1..], intervals + [Interval(o, o + c.size)]);
    }
  }

  lemma PlaceOne(intervals: seq<Interval>, size: nat)
    requires AllProper(intervals) && FirstFit(intervals, size).Some?
    ensures var o := FirstFit(intervals, size).value;
            && AllProper(intervals + [Interval(o, o + size)]) && o + size <= SIZE && (size == 0 ==> o == 0)
            && (forall i | i in intervals :: Apart(o, size, i))
  {
    FirstFitMeans(intervals, size);
    ZeroAtZero(intervals);
  }

  lemma PlacedPush(first: Resident, rest: seq<Resident>, intervals: seq<Interval>)
    requires PlacedOk(first) && (forall i | i in intervals :: Apart(first.offset, first.size, i))
    requires PlacedApart(rest, intervals + [IntervalOf(first)])
    ensures PlacedApart([first] + rest, intervals)
  {
    var all := [first] + rest;
    assert IntervalOf(first) in intervals + [IntervalOf(first)];
    forall i, j | 0 <= i < j < |all| ensures Separate(all[i], all[j]) {
      if i == 0 {
        assert Apart(rest[j - 1].offset, rest[j - 1].size, IntervalOf(first));
      } else {
        assert Separate(rest[i - 1], rest[j - 1]);
      }
    }
    forall k, i | 0 <= k < |all| && i in intervals ensures Apart(all[k].offset, all[k].size, i) {
      assert i in intervals + [IntervalOf(first)];
      if k > 0 {
        assert Apart(rest[k - 1].offset, rest[k - 1].size, i);
      }
    }
  }

  /** A CTA without local memory is placed at zero. */
  lemma ZeroAtZero(intervals: seq<Interval>)
    ensures FirstFit(intervals, 0) == Some(0)
  {
    assert Scan(Sorted(intervals), 0, 0) == 0;
  }

  lemma OccupiedProper(s: State)
    requires Valid(s)
    ensures AllProper(Occupied(s, 0))
  {
    var q := Occupied(s, 0);
    forall k | 0 <= k < |q| ensures Proper(q[k]) && q[k].end <= SIZE {
      assert q[k] in q;
    }
  }

  // ------------------------------------------------------------------ keeping

  /** The resident fits beside everyone in the state and its warps are free. */
  ghost predicate Joins(s: State, id: nat, r: Resident) {
    && |s.byWarp| == WARPS && id < WARPS && id !in s.ctas && PlacedOk(r)
    && (forall a | a in s.ctas :: Separate(r, s.ctas[a]))
    && (forall w | w in r.warps :: w < WARPS && s.byWarp[w].None?)
  }

  lemma InstallRanges(s: State, id: nat, r: Resident)
    requires Ranges(s.ctas) && Joins(s, id, r)
    ensures Ranges(s.ctas[id := r])
  {
    var c := s.ctas[id := r];
    forall a, b | a in c && b in c && a != b ensures Separate(c[a], c[b]) {
      if b == id {
        assert Separate(r, s.ctas[a]);
      }
    }
  }

  lemma InstallKeeps(s: State, id: nat, r: Resident)
    requires Valid(s) && Joins(s, id, r)
    ensures Valid(Install(s, id, r))
  {
    hide Ranges, Separate;
    var t := Install(s, id, r);
    InstallRanges(s, id, r);
    forall k | k in t.ctas ensures Owns(t, k) {
      assert k != id ==> Owns(s, k);
    }
    forall w | 0 <= w < WARPS ensures OwnedBack(t, w) {
      assert OwnedBack(s, w);
    }
  }

  lemma {:induction false} InstallAllKeeps(s: State, ids: seq<nat>, rs: seq<Resident>)
    requires Valid(s) && |rs| <= |ids|
    requires forall i, j | 0 <= i < j < |ids| :: ids[i] < ids[j]
    requires forall k | 0 <= k < |rs| :: Joins(s, ids[k], rs[k])
    requires forall i, j | 0 <= i < j < |rs| :: Separate(rs[i], rs[j]) && NoCommonWarp(rs[i].warps, rs[j].warps)
    ensures Valid(InstallAll(s, ids, rs))
    decreases |rs|
  {
    if rs != [] {
      InstallKeeps(s, ids[0], rs[0]);
      var t := Install(s, ids[0], rs[0]);
      var ids', rs' := ids[1..], rs[1..];
      forall k | 0 <= k < |rs'| ensures Joins(t, ids'[k], rs'[k]) {
        assert Joins(s, ids[k + 1], rs[k + 1]);
        assert Separate(rs[0], rs[k + 1]) && NoCommonWarp(rs[0].warps, rs[k + 1].warps);
      }
      InstallAllKeeps(t, ids', rs');
    }
  }

  lemma CandidateJoins(s: State, cands: seq<Candidate>, rs: seq<Resident>, ids: seq<nat>, q: seq<Interval>, k: nat)
    requires Valid(s) && WarpsFree(s, cands) && PlacedFor(rs, cands) && PlacedApart(rs, q) && k < |cands| <= |ids|
    requires forall i | 0 <= i < |ids| :: ids[i] < WARPS && ids[i] !in s.ctas
    requires forall id | id in s.ctas :: IntervalOf(s.ctas[id]) in q
    ensures Joins(s, ids[k], rs[k])
  {
    forall a | a in s.ctas ensures Separate(rs[k], s.ctas[a]) {
      assert IntervalOf(s.ctas[a]) in q;
    }
    assert WarpFree(s, cands[k]);
  }

  /** Admission keeps the ranges disjoint and the tables in step. */
  lemma AdmitKeeps(s: State, cands: seq<Candidate>)
    requires Valid(s) && Admit(s, cands).Some?
    ensures Valid(Admit(s, cands).value)
  {
    hide PlaceAll, Joins, PlacedApart, Separate, OwnedBack;
    var free, q := FreeIds(s, 0), Occupied(s, 0);
    OccupiedProper(s);
    PlaceAllApart(cands, q);
    PlaceAllFor(cands, q);
    var rs := PlaceAll(cands, q).value;
    forall k | 0 <= k < |rs| ensures Joins(s, free[k], rs[k]) {
      CandidateJoins(s, cands, rs, free, q, k);
    }
    PlacedPairs(rs, q);
    assert forall i, j | 0 <= i < j < |rs| :: NoCommonWarp(cands[i].warps, cands[j].warps);
    InstallAllKeeps(s, free, rs);
  }

  lemma PlacedPairs(rs: seq<Resident>, intervals: seq<Interval>)
    requires PlacedApart(rs, intervals)
    ensures forall i, j | 0 <= i < j < |rs| :: Separate(rs[i], rs[j])
  {
  }

  lemma {:induction false} InstallAllKeys(s: State, ids: seq<nat>, rs: seq<Resident>)
    requires |s.byWarp| == WARPS && |rs| <= |ids|
    ensures InstallAll(s, ids, rs).ctas.Keys == s.ctas.Keys + set k | 0 <= k < |rs| :: ids[k]
    decreases |rs|
  {
    if rs != [] {
      var t := Install(s, ids[0], rs[0]);
      InstallAllKeys(t, ids[1..], rs[1..]);
      var a, b := set k | 0 <= k < |rs| :: ids[k], set k | 0 <= k < |rs| - 1 :: ids[1..][k];
      assert a == {ids[0]} + b by {
        forall x | x in a ensures x in {ids[0]} + b {
          var k :| 0 <= k < |rs| && ids[k] == x;
          if k > 0 { assert ids[1..][k - 1] == x; }
        }
        forall x | x in b ensures x in a {
          var k :| 0 <= k < |rs| - 1 && ids[1..][k] == x;
          assert ids[k + 1] == x;
        }
        assert ids[0] in a;
      }
    }
  }

  function Reclaim(s: State, id: nat): State
    requires |s.byWarp| == WARPS && id in s.ctas
  {
    State(s.ctas - {id}, seq(WARPS, w requires 0 <= w < WARPS => if w in s.ctas[id].warps then None else s.byWarp[w]))
  }

  lemma ReclaimKeeps(s: State, id: nat)
    requires Valid(s) && id in s.ctas
    ensures Valid(Reclaim(s, id)) && Reclaim(s, id).ctas.Keys == s.ctas.Keys - {id}
  {
    var t := Reclaim(s, id);
    assert Owns(s, id);
    forall k | k in t.ctas ensures Owns(t, k) {
      assert Owns(s, k);
    }
    forall w | 0 <= w < WARPS ensures OwnedBack(t, w) {
      assert OwnedBack(s, w);
    }
  }

  // ----------------------------------------------------------------- isolation

  /** The bytes a CTA sees. */
  function View(bytes: seq<bv8>, r: Resident): seq<bv8>
    requires |bytes| == SIZE && PlacedOk(r)
  {
    bytes[r.offset..r.offset + r.size]
  }

  function CtaOf(s: State, w: nat): (r: Resident)
    requires Valid(s) && w < WARPS && s.byWarp[w].Some?
    ensures s.byWarp[w].value in s.ctas && r == s.ctas[s.byWarp[w].value] && PlacedOk(r)
  {
    assert OwnedBack(s, w);
    s.ctas[s.byWarp[w].value]
  }

  /** The warp's CTA covers the addressed range of the local window. */
  predicate RangeOk(s: State, w: nat, address: nat, length: nat)
    requires Valid(s)
  {
    w < WARPS && s.byWarp[w].Some? && WINDOW <= address && address + length <= WINDOW + CtaOf(s, w).size
  }

  function OffsetOf(s: State, w: nat, address: nat): nat
    requires Valid(s) && RangeOk(s, w, address, 0)
  {
    CtaOf(s, w).offset + address - WINDOW
  }

  function Patch(bytes: seq<bv8>, offset: nat, source: seq<bv8>): (r: seq<bv8>)
    requires offset + |source| <= |bytes|
    ensures |r| == |bytes|
  {
    bytes[..offset] + source + bytes[offset + |source|..]
  }

  /** A write through one warp changes its own CTA's view where addressed, and no other CTA's view at all. */
  lemma WriteIsolated(s: State, bytes: seq<bv8>, w: nat, address: nat, source: seq<bv8>)
    requires Valid(s) && |bytes| == SIZE && RangeOk(s, w, address, |source|)
    ensures OffsetOf(s, w, address) + |source| <= SIZE
    ensures var after, own := Patch(bytes, OffsetOf(s, w, address), source), s.byWarp[w].value;
            && View(after, CtaOf(s, w)) == Patch(View(bytes, CtaOf(s, w)), address - WINDOW, source)
            && (forall id | id in s.ctas && id != own :: View(after, s.ctas[id]) == View(bytes, s.ctas[id]))
  {
    var r, at, own := CtaOf(s, w), address - WINDOW, s.byWarp[w].value;
    PatchView(bytes, r, at, source);
    forall id | id in s.ctas && id != own
      ensures View(Patch(bytes, OffsetOf(s, w, address), source), s.ctas[id]) == View(bytes, s.ctas[id])
    {
      assert Separate(s.ctas[own], s.ctas[id]);
      PatchOutside(bytes, r.offset + at, source, s.ctas[id]);
    }
  }

  lemma PatchView(bytes: seq<bv8>, r: Resident, at: nat, source: seq<bv8>)
    requires |bytes| == SIZE && PlacedOk(r) && at + |source| <= r.size
    ensures View(Patch(bytes, r.offset + at, source), r) == Patch(View(bytes, r), at, source)
  {
    var a, b := View(Patch(bytes, r.offset + at, source), r), Patch(View(bytes, r), at, source);
    assert |a| == |b|;
    assert forall k | 0 <= k < |a| :: a[k] == b[k];
  }

  lemma PatchOutside(bytes: seq<bv8>, o: nat, source: seq<bv8>, r: Resident)
    requires |bytes| == SIZE && PlacedOk(r) && o + |source| <= SIZE
    requires source == [] || r.size == 0 || o + |source| <= r.offset || r.offset + r.size <= o
    ensures View(Patch(bytes, o, source), r) == View(bytes, r)
  {
    var p := Patch(bytes, o, source);
    forall k | r.offset <= k < r.offset + r.size ensures p[k] == bytes[k] {
      if k >= o + |source| {
        assert p[k] == bytes[o + |source|..][k - o - |source|];
      }
    }
    assert View(p, r) == View(bytes, r);
  }

  /** A read through one warp returns its own CTA's bytes. */
  lemma ReadOwn(s: State, bytes: seq<bv8>, w: nat, address: nat, length: nat)
    requires Valid(s) && |bytes| == SIZE && RangeOk(s, w, address, length)
    ensures var o, r := OffsetOf(s, w, address), CtaOf(s, w);
            && o + length <= SIZE
            && bytes[o..o + length] == View(bytes, r)[address - WINDOW..address - WINDOW + length]
  {
    var o, r, at := OffsetOf(s, w, address), CtaOf(s, w), address - WINDOW;
    var x, y := bytes[o..o + length], View(bytes, r)[at..at + length];
    assert forall k | 0 <= k < length :: x[k] == y[k];
  }

  /** One entry of an atomic batch. */
  datatype LocalWrite = LocalWrite(address: nat, source: seq<bv8>)

  predicate Overlap(a: LocalWrite, b: LocalWrite) {
    a.address < b.address + |b.source| && b.address < a.address + |a.source|
  }

  /** Every entry is in the warp's range and no two overlap. */
  ghost predicate BatchOk(s: State, w: nat, batch: seq<LocalWrite>)
    requires Valid(s)
  {
    && (forall k | 0 <= k < |batch| :: RangeOk(s, w, batch[k].address, |batch[k].source|))
    && (forall i, j | 0 <= i < j < |batch| :: !Overlap(batch[j], batch[i]))
  }

  predicate WithinView(size: nat, batch: seq<LocalWrite>) {
    forall k | 0 <= k < |batch| :: WINDOW <= batch[k].address && batch[k].address + |batch[k].source| <= WINDOW + size
  }

  /** A view after the first `n` entries of a batch. */
  function PatchAll(view: seq<bv8>, batch: seq<LocalWrite>, n: nat): (r: seq<bv8>)
    requires n <= |batch| && WithinView(|view|, batch)
    ensures |r| == |view|
  {
    if n == 0 then view else Patch(PatchAll(view, batch, n - 1), batch[n - 1].address - WINDOW, batch[n - 1].source)
  }

  /** The warp's own view has taken the first `n` entries; every other view is as it was. */
  ghost predicate BatchWritten(s: State, w: nat, before: seq<bv8>, after: seq<bv8>, batch: seq<LocalWrite>, n: nat)
    requires Valid(s) && |before| == |after| == SIZE && n <= |batch|
  {
    if batch == [] then after == before
    else
      && w < WARPS && s.byWarp[w].Some? && WithinView(CtaOf(s, w).size, batch)
      && View(after, CtaOf(s, w)) == PatchAll(View(before, CtaOf(s, w)), batch, n)
      && forall id | id in s.ctas && id != s.byWarp[w].value :: View(after, s.ctas[id]) == View(before, s.ctas[id])
  }

  /** The warp's own view has taken one write; every other view is as it was. */
  ghost predicate EntryWritten(s: State, w: nat, before: seq<bv8>, after: seq<bv8>, e: LocalWrite)
    requires Valid(s) && |before| == |after| == SIZE && RangeOk(s, w, e.address, |e.source|)
  {
    && View(after, CtaOf(s, w)) == Patch(View(before, CtaOf(s, w)), e.address - WINDOW, e.source)
    && forall id | id in s.ctas && id != s.byWarp[w].value :: View(after, s.ctas[id]) == View(before, s.ctas[id])
  }

  lemma BatchStep(s: State, w: nat, first: seq<bv8>, before: seq<bv8>, after: seq<bv8>, batch: seq<LocalWrite>, n: nat)
    requires Valid(s) && |first| == |before| == |after| == SIZE && n < |batch| && RangeOk(s, w, batch[n].address, |batch[n].source|)
    requires BatchWritten(s, w, first, before, batch, n) && EntryWritten(s, w, before, after, batch[n])
    ensures BatchWritten(s, w, first, after, batch, n + 1)
  {
  }

  lemma BatchInView(s: State, w: nat, batch: seq<LocalWrite>)
    requires Valid(s) && BatchOk(s, w, batch) && batch != []
    ensures w < WARPS && s.byWarp[w].Some? && WithinView(CtaOf(s, w).size, batch)
  {
    assert RangeOk(s, w, batch[0].address, |batch[0].source|);
    forall k | 0 <= k < |batch| ensures WINDOW <= batch[k].address && batch[k].address + |batch[k].source| <= WINDOW + CtaOf(s, w).size {
      assert RangeOk(s, w, batch[k].address, |batch[k].source|);
    }
  }

  // ---------------------------------------------------------------- equal sizes

  function TotalSize(cands: seq<Candidate>): nat {
    if cands == [] then 0 else cands[0].size + TotalSize(cands[1..])
  }

  ghost predicate Below(intervals: seq<Interval>, at: nat) {
    forall k | 0 <= k < |intervals| :: intervals[k].end <= at
  }

  /** Blocks that fit together are all placed behind what lies below `at`. */
  lemma {:induction false} BlocksFit(cands: seq<Candidate>, intervals: seq<Interval>, at: nat)
    requires AllProper(intervals) && Below(intervals, at) && at + TotalSize(cands) <= SIZE
    ensures PlaceAll(cands, intervals).Some?
    decreases |cands|
  {
    hide FirstFit, AllProper, Below, PlaceAll, TotalSize;
    PlaceNone(intervals);
    if cands != [] {
      TotalStep(cands);
      var size := cands[0].size;
      BlockFits(intervals, size, at);
      PlaceOne(intervals, size);
      var o := FirstFit(intervals, size).value;
      BlocksFit(cands[1..], intervals + [Interval(o, o + size)], at + size);
      PlaceAllStep(cands, intervals);
    }
  }

  lemma PlaceNone(intervals: seq<Interval>)
    ensures PlaceAll([], intervals) == Some([])
  {
  }

  lemma TotalStep(cands: seq<Candidate>)
    requires cands != []
    ensures TotalSize(cands) == cands[0].size + TotalSize(cands[1..])
  {
  }

  lemma PlaceAllStep(cands: seq<Candidate>, intervals: seq<Interval>)
    requires cands != [] && FirstFit(intervals, cands[0].size).Some?
    requires var o := FirstFit(intervals, cands[0].size).value;
             PlaceAll(cands[1..], intervals + [Interval(o, o + cands[0].size)]).Some?
    ensures PlaceAll(cands, intervals).Some?
  {
    hide FirstFit;
  }

  lemma BlockFits(intervals: seq<Interval>, size: nat, at: nat)
    requires AllProper(intervals) && Below(intervals, at) && at + size <= SIZE
    ensures FirstFit(intervals, size).Some?
    ensures var o := FirstFit(intervals, size).value; Below(intervals + [Interval(o, o + size)], at + size)
  {
    hide FirstFit;
    assert Fits(intervals, size, at);
    FirstFitMeans(intervals, size);
  }

  lemma EmptyTables()
    ensures var s := EmptyState(); Valid(s) && Occupied(s, 0) == [] && |FreeIds(s, 0)| == WARPS
  {
    var s := EmptyState();
    assert Occupied(s, 0) == [];
    assert FreeIds(s, 4) == [];
    assert FreeIds(s, 3) == [3] + FreeIds(s, 4);
    assert FreeIds(s, 2) == [2] + FreeIds(s, 3);
    assert FreeIds(s, 1) == [1] + FreeIds(s, 2);
    assert FreeIds(s, 0) == [0] + FreeIds(s, 1);
  }

  /** An empty manager admits any group of CTAs that fits at once. */
  lemma {:induction false} EmptyAdmits(cands: seq<Candidate>)
    requires |cands| <= WARPS && TotalSize(cands) <= SIZE
    requires WarpsFree(EmptyState(), cands)
    ensures Valid(EmptyState()) && Admit(EmptyState(), cands).Some?
  {
    hide FreeIds, Occupied, PlaceAll, Valid, TotalSize;
    EmptyTables();
    BlocksFit(cands, [], 0);
  }

  // ------------------------------------------------------------------ in place

  /** The placement loop of an admission. */
  method PlaceEach(cands: seq<Candidate>, occupied: seq<Interval>) returns (r: Option<seq<Resident>>)
    ensures r == PlaceAll(cands, occupied)
  {
    hide FirstFit;
    var intervals, placed := occupied, [];
    var k := 0;
    assert cands[0..] == cands;
    Joined([], PlaceAll(cands, occupied));
    while k < |cands|
      invariant k <= |cands| && |placed| == k
      invariant PlaceAll(cands, occupied) == After(placed, PlaceAll(cands[k..], intervals))
    {
      var c := cands[k];
      assert cands[k..][0] == c && cands[k..][1..] == cands[k + 1..];
      var o := AllocateFromIntervals(c.size, intervals);
      if o.None? {
        return None;
      }
      intervals := intervals + [Interval(o.value, o.value + c.size)];
      var next := Resident(c.size, o.value, c.warps);
      AfterAppend(placed, next, PlaceAll(cands[k + 1..], intervals));
      placed := placed + [next];
      k := k + 1;
    }
    Joined(placed, Some([]));
    return Some(placed);
  }

  function After(placed: seq<Resident>, rest: Option<seq<Resident>>): Option<seq<Resident>> {
    if rest.None? then None else Some(placed + rest.value)
  }

  lemma Joined(placed: seq<Resident>, rest: Option<seq<Resident>>)
    ensures After([], rest) == rest && After(placed, Some([])) == Some(placed)
  {
    assert rest.Some? ==> [] + rest.value == rest.value;
    assert placed + [] == placed;
  }

  lemma AfterAppend(placed: seq<Resident>, x: Resident, rest: Option<seq<Resident>>)
    ensures After(placed, if rest.None? then None else Some([x] + rest.value)) == After(placed + [x], rest)
  {
    assert rest.Some? ==> placed + ([x] + rest.value) == placed + [x] + rest.value;
  }

  /** The manager as the source keeps it: tables and one byte array, changed in place. */
  class CTAManager {
    var ctas: map<nat, Resident>
    var byWarp: seq<Option<nat>>
    const localMem: array<bv8>

    function Model(): State
      reads this
    {
      State(ctas, byWarp)
    }

    ghost predicate Sound()
      reads this, localMem
    {
      localMem.Length == SIZE && Valid(Model())
    }

    constructor ()
      ensures Sound() && Model() == EmptyState() && fresh(localMem)
    {
      ctas, byWarp := map[], seq(WARPS, _ => None);
      localMem := new bv8[SIZE](_ => 0);
    }

    /** Admits the whole group or changes nothing. */
    method AdmitGroup(cands: seq<Candidate>) returns (ok: bool)
      requires Sound()
      modifies this
      ensures Sound() && ok == Admit(old(Model()), cands).Some?
      ensures Model() == if ok then Admit(old(Model()), cands).value else old(Model())
      ensures localMem[..] == old(localMem[..])
    {
      ghost var s := Model();
      ok := false;
      var free, intervals := FreeIds(Model(), 0), Occupied(Model(), 0);
      if |free| < |cands| || !WarpsFree(Model(), cands) { return; }
      var placed := PlaceEach(cands, intervals);
      if placed.None? { return; }
      AdmitKeeps(s, cands);
      var next := InstallAll(Model(), free, placed.value);
      ctas, byWarp := next.ctas, next.byWarp;
      ok := true;
    }

    method ReclaimCTA(id: nat) returns (ok: bool)
      requires Sound()
      modifies this
      ensures Sound() && ok == old(id in ctas)
      ensures Model() == if ok then old(Reclaim(Model(), id)) else old(Model())
      ensures localMem[..] == old(localMem[..])
    {
      ok := id in ctas;
      if !ok { return; }
      ReclaimKeeps(Model(), id);
      var next := Reclaim(Model(), id);
      ctas, byWarp := next.ctas, next.byWarp;
    }

    /** Reads through a warp: its own CTA's bytes, or an error. */
    method ReadLocal(w: nat, address: nat, length: nat) returns (r: Option<seq<bv8>>)
      requires Sound()
      ensures r.Some? <==> RangeOk(Model(), w, address, length)
      ensures r.Some? ==> r.value == View(localMem[..], CtaOf(Model(), w))[address - WINDOW..address - WINDOW + length]
    {
      var found := Range(w, address, length);
      if found.None? { return None; }
      ReadOwn(Model(), localMem[..], w, address, length);
      var bytes := localMem[found.value..found.value + length];
      assert bytes == localMem[..][found.value..found.value + length];
      return Some(bytes);
    }

    /** Writes through a warp: the addressed bytes of its own CTA, or an error and nothing. */
    method WriteLocal(w: nat, address: nat, source: seq<bv8>) returns (ok: bool)
      requires Sound()
      modifies localMem
      ensures Sound() && ok == old(RangeOk(Model(), w, address, |source|))
      ensures !ok ==> localMem[..] == old(localMem[..])
      ensures ok ==> EntryWritten(Model(), w, old(localMem[..]), localMem[..], LocalWrite(address, source))
    {
      var found := Range(w, address, |source|);
      if found.None? { return false; }
      ghost var before := localMem[..];
      WriteIsolated(Model(), before, w, address, source);
      Copy(found.value, source);
      assert localMem[..] == Patch(before, found.value, source);
      return true;
    }

    /** Every entry in range, none overlapping an earlier one. */
    method ValidateBatch(w: nat, batch: seq<LocalWrite>) returns (ok: bool)
      requires Sound()
      ensures ok == BatchOk(Model(), w, batch)
    {
      var index := 0;
      while index < |batch|
        invariant index <= |batch|
        invariant forall k | 0 <= k < index :: RangeOk(Model(), w, batch[k].address, |batch[k].source|)
        invariant forall i, j | 0 <= i < j < index :: !Overlap(batch[j], batch[i])
      {
        var found := Range(w, batch[index].address, |batch[index].source|);
        if found.None? { return false; }
        if exists previous :: 0 <= previous < index && Overlap(batch[index], batch[previous]) { return false; }
        index := index + 1;
      }
      return true;
    }

    /** Validates every entry, lets the outside part of the batch go first, then writes all local entries or none. */
    method WriteLocalWithExternal(w: nat, batch: seq<LocalWrite>, external: bool) returns (ok: bool)
      requires Sound()
      modifies localMem
      ensures Sound() && ok == (BatchOk(Model(), w, batch) && external)
      ensures if ok then BatchWritten(Model(), w, old(localMem[..]), localMem[..], batch, |batch|)
              else localMem[..] == old(localMem[..])
    {
      var valid := ValidateBatch(w, batch);
      if !valid || !external { return false; }
      ghost var before := localMem[..];
      if batch == [] { return true; }
      BatchInView(Model(), w, batch);
      assert BatchWritten(Model(), w, before, localMem[..], batch, 0);
      hide BatchWritten, EntryWritten, Valid;
      var index := 0;
      while index < |batch|
        invariant index <= |batch| && localMem.Length == SIZE && BatchOk(Model(), w, batch)
        invariant BatchWritten(Model(), w, before, localMem[..], batch, index)
      {
        assert RangeOk(Model(), w, batch[index].address, |batch[index].source|);
        ghost var mid := localMem[..];
        var written := WriteLocal(w, batch[index].address, batch[index].source);
        BatchStep(Model(), w, before, mid, localMem[..], batch, index);
        index := index + 1;
      }
      return true;
    }

    /** Where a warp's range lies in the array. */
    method Range(w: nat, address: nat, length: nat) returns (r: Option<nat>)
      requires Sound()
      ensures r.Some? <==> RangeOk(Model(), w, address, length)
      ensures r.Some? ==> r.value == OffsetOf(Model(), w, address) && r.value + length <= SIZE
    {
      if w >= WARPS || byWarp[w].None? { return None; }
      var cta := CtaOf(Model(), w);
      if address < WINDOW || address + length > WINDOW + cta.size { return None; }
      return Some(cta.offset + address - WINDOW);
    }

    method Copy(offset: nat, source: seq<bv8>)
      requires offset + |source| <= localMem.Length
      modifies localMem
      ensures localMem[..] == Patch(old(localMem[..]), offset, source)
    {
      var i := 0;
      while i < |source|
        invariant i <= |source|
        invariant forall k | 0 <= k < localMem.Length ::
                    localMem[k] == if offset <= k < offset + i then source[k - offset] else old(localMem[k])
      {
        localMem[offset + i] := source[i];
        i := i + 1;
      }
    }
  }
}
