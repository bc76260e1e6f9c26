/**
 The tag and data store of one bank (timing/memsys/cache_array.go): a set
 associative array with first-in first-out replacement.

 The operations are functions on the value `Array`. `Views` relates an array to
 the map from resident line addresses to their bytes, and the lemmas say what
 each operation does to that map. The class in CacheArrayClass.dfy updates its
 fields in place, as the source does, and is proved to follow the functions.
 */
module CacheArrays {
  import opened CacheTypes
  import opened CacheGeometry

  datatype Line = Line(valid: bool, dirty: bool, tag: nat, data: Sector)

  /** A detached copy of a dirty line that left the array. */
  datatype Eviction = Eviction(line: nat, data: Sector)

  datatype Array = Array(lines: seq<seq<Line>>, fifo: seq<nat>, initialized: seq<bool>)

  const NO_LINE: Line := Line(false, false, 0, ZERO_SECTOR)

  predicate Shaped(c: Spec, a: Array) {
    && |a.lines| == c.sets
    && |a.fifo| == c.sets
    && |a.initialized| == c.sets
    && (forall s | 0 <= s < c.sets :: |a.lines[s]| == c.ways)
    && (forall s | 0 <= s < c.sets :: a.fifo[s] < c.ways)
  }

  /** The first way at or after `from` that holds `tag`. */
  function FindWay(ways: seq<Line>, tag: nat, from: nat): (r: Option<nat>)
    requires from <= |ways|
    ensures r.Some? ==> from <= r.value < |ways| && ways[r.value].valid && ways[r.value].tag == tag
    ensures r.None? ==> forall w | from <= w < |ways| :: !(ways[w].valid && ways[w].tag == tag)
    decreases |ways| - from
  {
    if from == |ways| then None
    else if ways[from].valid && ways[from].tag == tag then Some(from)
    else FindWay(ways, tag, from + 1)
  }

  /** The address belongs to this bank and its set has been reset. */
  predicate Located(c: Spec, a: Array, address: nat)
    requires c.Valid() && Shaped(c, a)
  {
    BankOf(c, address) == c.bank && a.initialized[SetOf(c, address)]
  }

  function Lookup(c: Spec, a: Array, address: nat): (r: Option<nat>)
    requires c.Valid() && Shaped(c, a)
    ensures r.Some? ==> r.value < c.ways
  {
    FindWay(a.lines[SetOf(c, address)], TagOf(c, address), 0)
  }

  /** The `wordBytes` bytes starting at `offset`, padded to a transfer. */
  function WordAt(c: Spec, s: Sector, offset: nat): Word
    requires c.Valid() && offset + c.wordBytes <= SECTOR_BYTES
  {
    seq(8, i requires 0 <= i < 8 => if i < c.wordBytes then s[offset + i] else 0)
  }

  function ReadWord(c: Spec, s: Sector, address: nat): Word
    requires c.Valid()
  {
    WordAt(c, s, WordOffset(c, address))
  }

  /** A sector after the enabled bytes of one store. */
  function Merge(c: Spec, s: Sector, r: Request): Sector
    requires c.Valid()
  {
    var offset := WordOffset(c, r.address);
    seq(SECTOR_BYTES, i requires 0 <= i < SECTOR_BYTES =>
      if offset <= i < offset + c.wordBytes && r.enables[i - offset] then r.data[i - offset] else s[i])
  }

  function SetLine(a: Array, s: nat, w: nat, x: Line): Array
    requires s < |a.lines| && w < |a.lines[s]|
  {
    a.(lines := a.lines[s := a.lines[s][w := x]])
  }

  function Read(c: Spec, a: Array, r: Request): (Response, bool)
    requires c.Valid() && Shaped(c, a)
  {
    match Lookup(c, a, r.address)
    case None => (Response(r.id, ZERO_WORD, Ok), false)
    case Some(w) => (Response(r.id, ReadWord(c, a.lines[SetOf(c, r.address)][w].data, r.address), Ok), true)
  }

  function Write(c: Spec, a: Array, r: Request): (Array, bool)
    requires c.Valid() && Shaped(c, a)
  {
    match Lookup(c, a, r.address)
    case None => (a, false)
    case Some(w) =>
      var s := SetOf(c, r.address);
      var was := a.lines[s][w];
      (SetLine(a, s, w, was.(dirty := true, data := Merge(c, was.data, r))), true)
  }

  function Victim(c: Spec, a: Array, s: nat, w: nat): Option<Eviction>
    requires c.Valid() && Shaped(c, a) && s < c.sets && w < c.ways
  {
    var x := a.lines[s][w];
    if x.valid && x.dirty then Some(Eviction(LineAddress(c, s, x.tag), x.data)) else None
  }

  function FillLine(c: Spec, a: Array, address: nat, data: Sector): (Array, Option<Eviction>)
    requires c.Valid() && Shaped(c, a)
  {
    var s := SetOf(c, address);
    var found := Lookup(c, a, address);
    var w := if found.Some? then found.value else a.fifo[s];
    var evicted := if found.Some? then None else Victim(c, a, s, w);
    var b := SetLine(a, s, w, Line(true, false, TagOf(c, address), data));
    (b.(fifo := a.fifo[s := (a.fifo[s] + 1) % c.ways]), evicted)
  }

  function FlushWay(c: Spec, a: Array, s: nat, w: nat): (Array, Option<Eviction>)
    requires c.Valid() && Shaped(c, a) && s < c.sets && w < c.ways
  {
    (SetLine(a, s, w, a.lines[s][w].(valid := false, dirty := false)), Victim(c, a, s, w))
  }

  /** Every way of one set invalidated, for a cache that never writes back. */
  function FlushSet(c: Spec, a: Array, s: nat, n: nat): (r: Array)
    requires c.Valid() && Shaped(c, a) && s < c.sets && n <= c.ways
    ensures Shaped(c, r)
  {
    if n == 0 then a else FlushWay(c, FlushSet(c, a, s, n - 1), s, n - 1).0
  }

  function InitSet(c: Spec, a: Array, s: nat): Array
    requires Shaped(c, a) && s < c.sets
  {
    Array(a.lines[s := seq(c.ways, _ => NO_LINE)], a.fifo[s := 0], a.initialized[s := true])
  }

  function NewArray(c: Spec): (r: Array)
    requires c.Valid()
    ensures Shaped(c, r)
  {
    Array(seq(c.sets, _ => seq(c.ways, _ => NO_LINE)), seq(c.sets, _ => 0), seq(c.sets, _ => false))
  }

  // ---------------------------------------------------------------- the view

  /** Where a resident line sits, whether it is dirty, and its bytes. */
  datatype Cached = Cached(way: nat, dirty: bool, data: Sector)

  type View = map<nat, Cached>

  ghost predicate Shown(c: Spec, a: Array, v: View, s: nat, w: nat)
    requires c.Valid() && Shaped(c, a) && s < c.sets && w < c.ways
  {
    var x := a.lines[s][w];
    && (x.dirty ==> x.valid && c.writeback)
    && (x.valid ==>
          var l := LineAddress(c, s, x.tag);
          && Owned(c, l) && SetOf(c, l) == s && TagOf(c, l) == x.tag
          && l in v && v[l] == Cached(w, x.dirty, x.data))
  }

  ghost predicate Backed(c: Spec, a: Array, v: View, l: nat)
    requires c.Valid() && Shaped(c, a) && l in v
  {
    && Owned(c, l)
    && v[l].way < c.ways
    && var x := a.lines[SetOf(c, l)][v[l].way];
       x == Line(true, v[l].dirty, TagOf(c, l), v[l].data)
  }

  /** The map `v` is exactly what the array holds; in particular no tag occurs twice in a set. */
  ghost predicate Views(c: Spec, a: Array, v: View)
    requires c.Valid()
  {
    && Shaped(c, a)
    && (forall s, w | 0 <= s < c.sets && 0 <= w < c.ways :: Shown(c, a, v, s, w))
    && (forall l | l in v :: Backed(c, a, v, l))
  }

  /** A lookup finds a line exactly when the view has it, in the way the view names. */
  lemma LookupMeans(c: Spec, a: Array, v: View, address: nat)
    requires c.Valid() && Views(c, a, v)
    requires address < ADDRESS_SPACE && BankOf(c, address) == c.bank
    ensures Owned(c, LineOf(address))
    ensures Lookup(c, a, address) == if LineOf(address) in v then Some(v[LineOf(address)].way) else None
  {
    var l := LineOf(address);
    SameLine(c, address);
    var s, tag := SetOf(c, address), TagOf(c, address);
    AddressRoundTrip(c, address);
    var found := Lookup(c, a, address);
    if found.Some? {
      assert Shown(c, a, v, s, found.value);
    } else if l in v {
      assert Backed(c, a, v, l);
    }
  }

  lemma WriteMeans(c: Spec, a: Array, v: View, r: Request)
    requires c.Valid() && Views(c, a, v) && c.writeback
    requires BankOf(c, r.address) == c.bank
    ensures var l := LineOf(r.address);
            var (b, hit) := Write(c, a, r);
            && hit == (l in v)
            && (hit ==> Views(c, b, v[l := Cached(v[l].way, true, Merge(c, v[l].data, r))]))
            && (!hit ==> b == a)
  {
    var l := LineOf(r.address);
    LookupMeans(c, a, v, r.address);
    SameLine(c, r.address);
    if l in v {
      var b := Write(c, a, r).0;
      var v' := v[l := Cached(v[l].way, true, Merge(c, v[l].data, r))];
      var s := SetOf(c, l);
      AddressRoundTrip(c, l);
      assert Backed(c, a, v, l);
      forall t, w | 0 <= t < c.sets && 0 <= w < c.ways ensures Shown(c, b, v', t, w) {
        assert Shown(c, a, v, t, w);
      }
      forall k | k in v' ensures Backed(c, b, v', k) {
        assert Backed(c, a, v, k);
        if k != l && SetOf(c, k) == s && v[k].way == v[l].way {
          TagSeparates(c, k, l);
        }
      }
    }
  }

  lemma ReadMeans(c: Spec, a: Array, v: View, r: Request)
    requires c.Valid() && Views(c, a, v) && BankOf(c, r.address) == c.bank
    ensures var l := LineOf(r.address);
            var (rsp, hit) := Read(c, a, r);
            && rsp.id == r.id && rsp.status == Ok
            && hit == (l in v)
            && (hit ==> rsp.data == ReadWord(c, v[l].data, r.address))
  {
    LookupMeans(c, a, v, r.address);
    SameLine(c, r.address);
    if LineOf(r.address) in v {
      assert Backed(c, a, v, LineOf(r.address));
    }
  }

  /** The view with whatever one slot held removed. */
  ghost function Without(c: Spec, a: Array, v: View, s: nat, w: nat): View
    requires c.Valid() && Shaped(c, a) && s < c.sets && w < c.ways
  {
    if a.lines[s][w].valid then v - {LineAddress(c, s, a.lines[s][w].tag)} else v
  }

  /** An emptied slot leaves a view without its line. */
  lemma EmptySlotMeans(c: Spec, a: Array, v: View, s: nat, w: nat, x: Line)
    requires c.Valid() && Views(c, a, v) && s < c.sets && w < c.ways && !x.valid && !x.dirty
    ensures Views(c, SetLine(a, s, w, x), Without(c, a, v, s, w))
  {
    var b, v' := SetLine(a, s, w, x), Without(c, a, v, s, w);
    assert Shown(c, a, v, s, w);
    forall t, u | 0 <= t < c.sets && 0 <= u < c.ways ensures Shown(c, b, v', t, u) {
      assert Shown(c, a, v, t, u);
    }
    forall k | k in v' ensures Backed(c, b, v', k) {
      assert Backed(c, a, v, k);
      if SetOf(c, k) == s && v[k].way == w {
        AddressRoundTrip(c, k);
      }
    }
  }

  /** What the eviction of one slot carries: the dirty line that was there, if any. */
  lemma VictimMeans(c: Spec, a: Array, v: View, s: nat, w: nat)
    requires c.Valid() && Views(c, a, v) && s < c.sets && w < c.ways
    ensures var e := Victim(c, a, s, w);
            && (e.Some? ==> c.writeback && e.value.line in v && v[e.value.line].dirty && v[e.value.line].data == e.value.data)
            && (forall l | l in v && l !in Without(c, a, v, s, w) ::
                  if v[l].dirty then e == Some(Eviction(l, v[l].data)) else e == None)
            && (e.Some? ==> e.value.line !in Without(c, a, v, s, w))
  {
    assert Shown(c, a, v, s, w);
  }

  /** Filling an absent line replaces one slot; only a dirty occupant is evicted. */
  lemma FillMeans(c: Spec, a: Array, v: View, address: nat, data: Sector) returns (kept: View)
    requires c.Valid() && Views(c, a, v)
    requires address < ADDRESS_SPACE && BankOf(c, address) == c.bank && LineOf(address) !in v
    ensures var l := LineOf(address);
            var (b, e) := FillLine(c, a, address, data);
            && Owned(c, l)
            && kept.Keys <= v.Keys && (forall k | k in kept :: kept[k] == v[k])
            && (exists w :: Views(c, b, kept[l := Cached(w, false, data)]))
            && b.initialized == a.initialized
            && (e.Some? ==> c.writeback && e.value.line in v && e.value.line !in kept
                            && v[e.value.line].dirty && v[e.value.line].data == e.value.data)
            && (forall k | k in v && k !in kept ::
                  if v[k].dirty then e == Some(Eviction(k, v[k].data)) else e == None)
  {
    var l := LineOf(address);
    LookupMeans(c, a, v, address);
    SameLine(c, address);
    AddressRoundTrip(c, address);
    var s := SetOf(c, address);
    var w := a.fifo[s];
    kept := Without(c, a, v, s, w);
    VictimMeans(c, a, v, s, w);
    EmptySlotMeans(c, a, v, s, w, NO_LINE);
    var a' := SetLine(a, s, w, NO_LINE);
    var (b, e) := FillLine(c, a, address, data);
    var v' := kept[l := Cached(w, false, data)];
    assert b.lines[s] == a'.lines[s][w := Line(true, false, TagOf(c, address), data)];
    forall t, u | 0 <= t < c.sets && 0 <= u < c.ways ensures Shown(c, b, v', t, u) {
      assert Shown(c, a', kept, t, u);
    }
    forall k | k in v' ensures Backed(c, b, v', k) {
      if k != l {
        assert Backed(c, a', kept, k);
      }
    }
    assert Views(c, b, kept[l := Cached(w, false, data)]);
  }

  /** Flushing one way empties exactly that slot and evicts it when dirty. */
  lemma FlushMeans(c: Spec, a: Array, v: View, s: nat, w: nat) returns (kept: View)
    requires c.Valid() && Views(c, a, v) && s < c.sets && w < c.ways
    ensures var (b, e) := FlushWay(c, a, s, w);
            && Views(c, b, kept)
            && b.initialized == a.initialized
            && kept.Keys <= v.Keys && (forall k | k in kept :: kept[k] == v[k])
            && (e.Some? ==> c.writeback && e.value.line in v && e.value.line !in kept
                            && v[e.value.line].dirty && v[e.value.line].data == e.value.data)
            && (forall k | k in v && k !in kept ::
                  if v[k].dirty then e == Some(Eviction(k, v[k].data)) else e == None)
  {
    kept := Without(c, a, v, s, w);
    VictimMeans(c, a, v, s, w);
    EmptySlotMeans(c, a, v, s, w, a.lines[s][w].(valid := false, dirty := false));
  }

  lemma {:induction false} FlushSetMeans(c: Spec, a: Array, v: View, s: nat, n: nat) returns (kept: View)
    requires c.Valid() && Views(c, a, v) && s < c.sets && n <= c.ways && !c.writeback
    ensures var b := FlushSet(c, a, s, n);
            && Views(c, b, kept) && b.initialized == a.initialized
            && kept.Keys <= v.Keys && (forall k | k in kept :: kept[k] == v[k])
            && (forall k | k in v :: !v[k].dirty)
            && (forall t, w | 0 <= t < c.sets && 0 <= w < c.ways && t != s :: b.lines[t][w] == a.lines[t][w])
            && (forall w | 0 <= w < n :: !b.lines[s][w].valid)
            && (forall w | n <= w < c.ways :: b.lines[s][w] == a.lines[s][w])
  {
    forall k | k in v ensures !v[k].dirty {
      assert Backed(c, a, v, k);
      assert Shown(c, a, v, SetOf(c, k), v[k].way);
    }
    if n == 0 {
      kept := v;
    } else {
      var mid := FlushSetMeans(c, a, v, s, n - 1);
      kept := FlushMeans(c, FlushSet(c, a, s, n - 1), mid, s, n - 1);
    }
  }

  lemma InitMeans(c: Spec, a: Array, s: nat)
    requires c.Valid() && Views(c, a, map[]) && s < c.sets
    ensures Views(c, InitSet(c, a, s), map[])
  {
    var b := InitSet(c, a, s);
    forall t, u | 0 <= t < c.sets && 0 <= u < c.ways ensures Shown(c, b, map[], t, u) {
      assert Shown(c, a, map[], t, u);
    }
  }

  /** A view is empty exactly when no slot is valid. */
  lemma EmptyView(c: Spec, a: Array, v: View)
    requires c.Valid() && Views(c, a, v)
    ensures v == map[] <==> forall s, w | 0 <= s < c.sets && 0 <= w < c.ways :: !a.lines[s][w].valid
  {
    if v == map[] {
      forall s, w | 0 <= s < c.sets && 0 <= w < c.ways ensures !a.lines[s][w].valid {
        assert Shown(c, a, v, s, w);
      }
    } else {
      var l :| l in v;
      assert Backed(c, a, v, l);
    }
  }
}
