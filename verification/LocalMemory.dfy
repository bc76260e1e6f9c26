/**
 Local memory of resident CTAs (emu/core/cta.go): first-fit packing into one byte
 array, and the route by which each warp reaches its own CTA's bytes only.
 */
module LocalMemory {
  import opened CacheTypes

  const SIZE: nat := 16384
  const WARPS: nat := 4
  /** Where every CTA sees its local memory. */
  const WINDOW: nat := 0xffff_0000

  datatype Interval = Interval(start: nat, end: nat)

  /** An occupied range; a CTA without local memory sits at offset zero. */
  predicate Proper(i: Interval) {
    i.start < i.end || (i.start == 0 && i.end == 0)
  }

  /** `size` bytes at `offset` share no byte with the interval. */
  predicate Apart(offset: nat, size: nat, i: Interval) {
    size == 0 || i.start == i.end || offset + size <= i.start || i.end <= offset
  }

  ghost predicate Fits(intervals: seq<Interval>, size: nat, offset: nat) {
    offset + size <= SIZE && forall k | 0 <= k < |intervals| :: Apart(offset, size, intervals[k])
  }

  // -------------------------------------------------------------------- sorting

  ghost predicate ByStart(s: seq<Interval>) {
    forall i, j | 0 <= i < j < |s| :: s[i].start <= s[j].start
  }

  function Insert(x: Interval, s: seq<Interval>): (r: seq<Interval>)
    ensures multiset(r) == multiset(s) + multiset{x}
  {
    if s == [] then [x]
    else if x.start <= s[0].start then
      assert [x] + s == [x] + ([s[0]] + s[1..]);
      [x] + s
    else
      assert s == [s[0]] + s[1..];
      [s[0]] + Insert(x, s[1..])
  }

  function Sorted(s: seq<Interval>): (r: seq<Interval>)
    ensures multiset(r) == multiset(s)
  {
    if s == [] then []
    else
      assert s == [s[0]] + s[1..];
      Insert(s[0], Sorted(s[1..]))
  }

  lemma InsertMembers(x: Interval, s: seq<Interval>, y: Interval)
    ensures y in Insert(x, s) <==> y == x || y in s
  {
    assert y in multiset(Insert(x, s)) <==> y in multiset(s) + multiset{x};
  }

  lemma ByStartPush(x: Interval, s: seq<Interval>)
    requires ByStart(s) && forall y | y in s :: x.start <= y.start
    ensures ByStart([x] + s)
  {
  }

  lemma {:induction false} InsertByStart(x: Interval, s: seq<Interval>)
    requires ByStart(s)
    ensures ByStart(Insert(x, s))
  {
    if s != [] {
      if x.start > s[0].start {
        InsertByStart(x, s[1..]);
        forall y | y in Insert(x, s[1..]) ensures s[0].start <= y.start {
          InsertMembers(x, s[1..], y);
        }
        ByStartPush(s[0], Insert(x, s[1..]));
      } else {
        ByStartPush(x, s);
      }
    }
  }

  lemma {:induction false} SortedByStart(s: seq<Interval>)
    ensures ByStart(Sorted(s))
  {
    if s != [] {
      SortedByStart(s[1..]);
      InsertByStart(s[0], Sorted(s[1..]));
    }
  }

  lemma SameMembers(s: seq<Interval>, x: Interval)
    ensures x in Sorted(s) <==> x in s
  {
    assert x in multiset(Sorted(s)) <==> x in multiset(s);
  }

  // ------------------------------------------------------------------ first fit

  /** Moves past the occupied intervals until one leaves room before it. */
  function Scan(s: seq<Interval>, size: nat, offset: nat): nat {
    if s == [] || offset + size <= s[0].start then offset
    else Scan(s[1..], size, if s[0].end > offset then s[0].end else offset)
  }

  function FirstFit(intervals: seq<Interval>, size: nat): Option<nat> {
    var offset := Scan(Sorted(intervals), size, 0);
    if offset + size > SIZE then None else Some(offset)
  }

  method AllocateFromIntervals(size: nat, intervals: seq<Interval>) returns (r: Option<nat>)
    ensures r == FirstFit(intervals, size)
  {
    var s := Sorted(intervals);
    var offset: nat, k: nat := 0, 0;
    while k < |s|
      invariant k <= |s| && Scan(s, size, 0) == Scan(s[k..], size, offset)
    {
      if offset + size <= s[k].start {
        break;
      }
      if s[k].end > offset {
        offset := s[k].end;
      }
      k := k + 1;
    }
    if offset + size > SIZE {
      return None;
    }
    return Some(offset);
  }

  /** The scan stops after every interval it passed and before every one it did not, at the lowest such place. */
  lemma {:induction false} ScanMeans(s: seq<Interval>, size: nat, offset: nat, o: nat)
    requires ByStart(s) && size > 0 && forall k | 0 <= k < |s| :: Proper(s[k])
    ensures var r := Scan(s, size, offset);
            && r >= offset && (forall k | 0 <= k < |s| :: s[k].end <= r || r + size <= s[k].start)
            && (offset <= o && (forall k | 0 <= k < |s| :: Apart(o, size, s[k])) ==> r <= o)
  {
    if s != [] && offset + size > s[0].start {
      var next := if s[0].end > offset then s[0].end else offset;
      ScanMeans(s[1..], size, next, o);
      var r := Scan(s, size, offset);
      forall k | 0 <= k < |s| ensures s[k].end <= r || r + size <= s[k].start {
        assert k > 0 ==> s[k] == s[1..][k - 1];
      }
      if offset <= o && forall k | 0 <= k < |s| :: Apart(o, size, s[k]) {
        assert Apart(o, size, s[0]);
        assert next <= o;
        assert forall k | 0 <= k < |s| - 1 :: s[1..][k] == s[k + 1];
      }
    }
  }

  /**
   First fit returns the lowest offset at which the bytes share nothing with an occupied interval,
   and fails exactly when there is no such offset at all.
   */
  lemma FirstFitMeans(intervals: seq<Interval>, size: nat)
    requires forall k | 0 <= k < |intervals| :: Proper(intervals[k])
    ensures var r := FirstFit(intervals, size);
            && (r.Some? ==> Fits(intervals, size, r.value) && forall o: nat | Fits(intervals, size, o) :: r.value <= o)
            && (r.None? ==> forall o: nat :: !Fits(intervals, size, o))
  {
    var s := Sorted(intervals);
    SortedByStart(intervals);
    FitsSorted(intervals, size);
    forall k | 0 <= k < |s| ensures Proper(s[k]) {
      SameMembers(intervals, s[k]);
    }
    if size == 0 {
      assert Scan(s, size, 0) == 0;
      assert Fits(s, size, 0);
    } else {
      var r := Scan(s, size, 0);
      forall o: nat | Fits(s, size, o) ensures r <= o {
        ScanMeans(s, size, 0, o);
      }
      ScanMeans(s, size, 0, 0);
      assert r + size <= SIZE ==> Fits(s, size, r);
    }
  }

  lemma FitsSorted(intervals: seq<Interval>, size: nat)
    ensures forall o: nat :: Fits(Sorted(intervals), size, o) <==> Fits(intervals, size, o)
  {
    var s := Sorted(intervals);
    forall o: nat ensures Fits(s, size, o) <==> Fits(intervals, size, o) {
      if Fits(s, size, o) {
        forall k | 0 <= k < |intervals| ensures Apart(o, size, intervals[k]) {
          SameMembers(intervals, intervals[k]);
          var j :| 0 <= j < |s| && s[j] == intervals[k];
        }
      }
      if Fits(intervals, size, o) {
        forall k | 0 <= k < |s| ensures Apart(o, size, s[k]) {
          SameMembers(intervals, s[k]);
          var j :| 0 <= j < |intervals| && intervals[j] == s[k];
        }
      }
    }
  }
}
