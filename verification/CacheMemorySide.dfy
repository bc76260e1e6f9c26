/**
 The memory side of a bank seen abstractly: the view of resident lines, the
 requests on their way to the backing store in order, the lines on their way
 back, and the misses still waiting. The lemmas say that evicting, writing,
 asking for, servicing and installing a line keep the bytes the memory holds.
 */
module CacheMemorySide {
  import opened CacheTypes
  import opened CacheArrays

  /** A serviced line read that has not reached the bank. */
  datatype Return = Return(line: nat, fill: Fill)

  /** The bytes of a line below the cache: its youngest write on the way, else the backing store. */
  function Lower(q: seq<LineRequest>, backing: Memory, l: nat): Sector {
    if q == [] then Get(backing, l)
    else
      var x := q[|q| - 1];
      if x.WriteLine? && x.line == l then x.data else Lower(q[..|q| - 1], backing, l)
  }

  /** The bytes of a line as the core sees them. */
  function Logical(v: View, q: seq<LineRequest>, backing: Memory, l: nat): Sector {
    if l in v then v[l].data else Lower(q, backing, l)
  }

  /** No request after position `i` concerns line `l`. */
  ghost predicate Untouched(q: seq<LineRequest>, i: int, l: nat) {
    forall j | i < j < |q| && 0 <= j :: q[j].line != l
  }

  ghost predicate CleanLines(q: seq<LineRequest>, backing: Memory, v: View) {
    forall l | l in v && !v[l].dirty :: v[l].data == Lower(q, backing, l)
  }

  /** A read on its way belongs to a waiting miss and is the last word on its line. */
  ghost predicate ReadsOrdered(q: seq<LineRequest>, v: View, want: map<nat, Handle>) {
    forall i | 0 <= i < |q| && q[i].ReadLine? ::
      && q[i].line in want && want[q[i].line] == q[i].handle
      && q[i].line !in v
      && Untouched(q, i, q[i].line)
  }

  ghost predicate ReturnOk(q: seq<LineRequest>, backing: Memory, v: View, l: nat, f: Fill) {
    && l !in v
    && Untouched(q, -1, l)
    && (f.status.Ok? ==> f.data == Get(backing, l))
  }

  /** A line on its way back holds the backing bytes, which nothing in flight will change. */
  ghost predicate ReturnsFresh(q: seq<LineRequest>, returned: seq<Return>, backing: Memory, v: View, want: map<nat, Handle>) {
    && (forall k | 0 <= k < |returned| ::
          && returned[k].line in want && want[returned[k].line] == returned[k].fill.handle
          && ReturnOk(q, backing, v, returned[k].line, returned[k].fill))
    && (forall j, k | 0 <= j < k < |returned| :: returned[j].line != returned[k].line)
  }

  /** Every waiting miss has its read in flight or its line returned. */
  ghost predicate Answered(q: seq<LineRequest>, returned: seq<Return>, want: map<nat, Handle>) {
    forall l | l in want ::
      || (exists i :: 0 <= i < |q| && q[i] == ReadLine(l, want[l]))
      || (exists k :: 0 <= k < |returned| && returned[k].line == l)
  }

  ghost predicate MemoryInv(q: seq<LineRequest>, returned: seq<Return>, backing: Memory, v: View, want: map<nat, Handle>) {
    && CleanLines(q, backing, v)
    && ReadsOrdered(q, v, want)
    && ReturnsFresh(q, returned, backing, v, want)
    && Answered(q, returned, want)
  }

  lemma {:induction false} LowerUntouched(q: seq<LineRequest>, backing: Memory, l: nat)
    requires Untouched(q, -1, l)
    ensures Lower(q, backing, l) == Get(backing, l)
  {
    if q != [] {
      assert forall j | 0 <= j < |q| - 1 :: q[..|q| - 1][j] == q[j];
      LowerUntouched(q[..|q| - 1], backing, l);
    }
  }

  lemma LowerAppend(q: seq<LineRequest>, x: LineRequest, backing: Memory, l: nat)
    ensures Lower(q + [x], backing, l) == if x.WriteLine? && x.line == l then x.data else Lower(q, backing, l)
  {
    assert (q + [x])[..|q|] == q;
  }

  /** The oldest write takes effect: no line changes below the cache. */
  lemma {:induction false} LowerServiceWrite(q: seq<LineRequest>, backing: Memory, l: nat)
    requires q != [] && q[0].WriteLine?
    ensures Lower(q[1..], backing[q[0].line := q[0].data], l) == Lower(q, backing, l)
  {
    if |q| > 1 {
      assert q[1..][..|q| - 2] == q[..|q| - 1][1..];
      LowerServiceWrite(q[..|q| - 1], backing, l);
    } else {
      assert q[..0] == [];
    }
  }

  lemma {:induction false} LowerServiceRead(q: seq<LineRequest>, backing: Memory, l: nat)
    requires q != [] && q[0].ReadLine?
    ensures Lower(q[1..], backing, l) == Lower(q, backing, l)
  {
    if |q| > 1 {
      assert q[1..][..|q| - 2] == q[..|q| - 1][1..];
      LowerServiceRead(q[..|q| - 1], backing, l);
    } else {
      assert q[..0] == [];
    }
  }

  lemma {:induction false} LowerAgrees(q: seq<LineRequest>, m: Memory, n: Memory, l: nat)
    requires Get(m, l) == Get(n, l)
    ensures Lower(q, m, l) == Lower(q, n, l)
  {
    if q != [] {
      LowerAgrees(q[..|q| - 1], m, n, l);
    }
  }

  // ------------------------------------------------------------- the events

  /** The oldest write in flight reaches the backing store. */
  lemma ServiceWrite(q: seq<LineRequest>, returned: seq<Return>, backing: Memory, v: View, want: map<nat, Handle>)
    requires MemoryInv(q, returned, backing, v, want) && q != [] && q[0].WriteLine?
    ensures MemoryInv(q[1..], returned, backing[q[0].line := q[0].data], v, want)
    ensures forall l :: Logical(v, q[1..], backing[q[0].line := q[0].data], l) == Logical(v, q, backing, l)
  {
    var q', m' := q[1..], backing[q[0].line := q[0].data];
    forall l ensures Lower(q', m', l) == Lower(q, backing, l) {
      LowerServiceWrite(q, backing, l);
    }
    ReadsTail(q, v, want);
    forall k | 0 <= k < |returned| ensures ReturnOk(q', m', v, returned[k].line, returned[k].fill) {
      assert ReturnOk(q, backing, v, returned[k].line, returned[k].fill);
      assert q[0].line != returned[k].line;
    }
    forall l | l in want && !(exists k :: 0 <= k < |returned| && returned[k].line == l)
      ensures exists i :: 0 <= i < |q'| && q'[i] == ReadLine(l, want[l])
    {
      var i :| 0 <= i < |q| && q[i] == ReadLine(l, want[l]);
      assert q'[i - 1] == ReadLine(l, want[l]);
    }
  }

  lemma ReadsTail(q: seq<LineRequest>, v: View, want: map<nat, Handle>)
    requires ReadsOrdered(q, v, want) && q != []
    ensures ReadsOrdered(q[1..], v, want)
  {
    var q' := q[1..];
    forall i | 0 <= i < |q'| && q'[i].ReadLine?
      ensures q'[i].line in want && want[q'[i].line] == q'[i].handle && q'[i].line !in v && Untouched(q', i, q'[i].line)
    {
      assert q'[i] == q[i + 1];
      forall j | i < j < |q'| ensures q'[j].line != q'[i].line {
        assert q[j + 1] == q'[j];
      }
    }
  }

  /** The oldest read in flight is served; a failed one returns zeroes. */
  lemma ServiceRead(q: seq<LineRequest>, returned: seq<Return>, backing: Memory, v: View, want: map<nat, Handle>, f: Fill)
    requires MemoryInv(q, returned, backing, v, want) && q != [] && q[0].ReadLine?
    requires f.handle == q[0].handle && (f.status.Ok? ==> f.data == Get(backing, q[0].line))
    ensures MemoryInv(q[1..], returned + [Return(q[0].line, f)], backing, v, want)
    ensures forall l :: Logical(v, q[1..], backing, l) == Logical(v, q, backing, l)
    ensures f.status.Ok? ==> f.data == Logical(v, q, backing, q[0].line)
  {
    var q', returned' := q[1..], returned + [Return(q[0].line, f)];
    forall l ensures Lower(q', backing, l) == Lower(q, backing, l) {
      LowerServiceRead(q, backing, l);
    }
    assert q[0].line !in v && Untouched(q, 0, q[0].line);
    assert forall j | 0 <= j < |q'| :: q'[j] == q[j + 1];
    LowerUntouched(q', backing, q[0].line);
    ReadsTail(q, v, want);
    forall k | 0 <= k < |returned'|
      ensures returned'[k].line in want && want[returned'[k].line] == returned'[k].fill.handle
      ensures ReturnOk(q', backing, v, returned'[k].line, returned'[k].fill)
      ensures k < |returned| ==> returned'[k].line != q[0].line
    {
      if k < |returned| {
        assert ReturnOk(q, backing, v, returned[k].line, returned[k].fill);
        assert q[0].line != returned[k].line;
      } else {
        assert Untouched(q, 0, q[0].line);
      }
    }
    forall l | l in want && !(exists k :: 0 <= k < |returned'| && returned'[k].line == l)
      ensures exists i :: 0 <= i < |q'| && q'[i] == ReadLine(l, want[l])
    {
      assert returned'[|returned|].line == q[0].line;
      assert forall k | 0 <= k < |returned| :: returned'[k] == returned[k];
      var i :| 0 <= i < |q| && q[i] == ReadLine(l, want[l]);
      assert q'[i - 1] == ReadLine(l, want[l]);
    }
  }

  /** Another bank's line changes in the backing store. */
  lemma OtherWrite(q: seq<LineRequest>, returned: seq<Return>, backing: Memory, v: View, want: map<nat, Handle>, l: nat, d: Sector)
    requires MemoryInv(q, returned, backing, v, want)
    requires l !in v && l !in want
    ensures MemoryInv(q, returned, backing[l := d], v, want)
    ensures forall k | k != l :: Logical(v, q, backing[l := d], k) == Logical(v, q, backing, k)
  {
    forall k | k != l ensures Lower(q, backing[l := d], k) == Lower(q, backing, k) {
      LowerAgrees(q, backing, backing[l := d], k);
    }
    forall k | 0 <= k < |returned| ensures ReturnOk(q, backing[l := d], v, returned[k].line, returned[k].fill) {
      assert ReturnOk(q, backing, v, returned[k].line, returned[k].fill);
      assert returned[k].line != l;
    }
  }

  /** A store hits a resident line: the memory changes there and nowhere else. */
  lemma WriteHit(q: seq<LineRequest>, returned: seq<Return>, backing: Memory, v: View, want: map<nat, Handle>, l: nat, x: Cached)
    requires MemoryInv(q, returned, backing, v, want) && l in v && x.dirty
    ensures MemoryInv(q, returned, backing, v[l := x], want)
    ensures forall k :: Logical(v[l := x], q, backing, k) == if k == l then x.data else Logical(v, q, backing, k)
  {
    var v' := v[l := x];
    forall k | 0 <= k < |returned| ensures ReturnOk(q, backing, v', returned[k].line, returned[k].fill) {
      assert ReturnOk(q, backing, v, returned[k].line, returned[k].fill);
    }
    forall k ensures Logical(v', q, backing, k) == if k == l then x.data else Logical(v, q, backing, k) {
    }
  }

  /** A root miss asks for its line. */
  lemma AskLine(q: seq<LineRequest>, returned: seq<Return>, backing: Memory, v: View, want: map<nat, Handle>, l: nat, h: Handle)
    requires MemoryInv(q, returned, backing, v, want) && l !in v && l !in want
    ensures MemoryInv(q + [ReadLine(l, h)], returned, backing, v, want[l := h])
    ensures forall k :: Logical(v, q + [ReadLine(l, h)], backing, k) == Logical(v, q, backing, k)
  {
    var x := ReadLine(l, h);
    var q', want' := q + [x], want[l := h];
    forall k ensures Lower(q', backing, k) == Lower(q, backing, k) {
      LowerAppend(q, x, backing, k);
    }
    forall i | 0 <= i < |q'| && q'[i].ReadLine?
      ensures q'[i].line in want' && want'[q'[i].line] == q'[i].handle && q'[i].line !in v && Untouched(q', i, q'[i].line)
    {
      if i < |q| {
        assert q'[i] == q[i] && q[i].line in want;
        assert Untouched(q, i, q[i].line);
      }
    }
    forall k | 0 <= k < |returned| ensures ReturnOk(q', backing, v, returned[k].line, returned[k].fill) {
      assert ReturnOk(q, backing, v, returned[k].line, returned[k].fill);
      assert returned[k].line != l;
    }
    forall k | k in want' && !(exists j :: 0 <= j < |returned| && returned[j].line == k)
      ensures exists i :: 0 <= i < |q'| && q'[i] == ReadLine(k, want'[k])
    {
      if k == l {
        assert q'[|q|] == ReadLine(k, want'[k]);
      } else {
        var i :| 0 <= i < |q| && q[i] == ReadLine(k, want[k]);
        assert q'[i] == ReadLine(k, want'[k]);
      }
    }
  }

  /** The evicted lines become a write on its way, clean ones need none. */
  function Evicted(e: Option<Eviction>): seq<LineRequest> {
    if e.Some? then [WriteLine(e.value.line, e.value.data)] else []
  }

  ghost predicate Evicts(v: View, kept: View, e: Option<Eviction>) {
    && kept.Keys <= v.Keys && (forall k | k in kept :: kept[k] == v[k])
    && (e.Some? ==> e.value.line in v && e.value.line !in kept && v[e.value.line].dirty && v[e.value.line].data == e.value.data)
    && (forall k | k in v && k !in kept :: if v[k].dirty then e == Some(Eviction(k, v[k].data)) else e == None)
  }

  /** Dropping lines, with the dirty one written back, changes no byte of the memory. */
  lemma Evict(q: seq<LineRequest>, returned: seq<Return>, backing: Memory, v: View, want: map<nat, Handle>,
              kept: View, e: Option<Eviction>)
    requires MemoryInv(q, returned, backing, v, want) && Evicts(v, kept, e)
    ensures MemoryInv(q + Evicted(e), returned, backing, kept, want)
    ensures forall l :: Logical(kept, q + Evicted(e), backing, l) == Logical(v, q, backing, l)
  {
    var q' := q + Evicted(e);
    if e.None? {
      assert q' == q;
    } else {
      forall l ensures Lower(q', backing, l) == if l == e.value.line then e.value.data else Lower(q, backing, l) {
        LowerAppend(q, Evicted(e)[0], backing, l);
      }
    }
    forall i | 0 <= i < |q'| && q'[i].ReadLine?
      ensures q'[i].line in want && want[q'[i].line] == q'[i].handle && q'[i].line !in kept && Untouched(q', i, q'[i].line)
    {
      assert q'[i] == q[i] && Untouched(q, i, q[i].line);
    }
    forall k | 0 <= k < |returned| ensures ReturnOk(q', backing, kept, returned[k].line, returned[k].fill) {
      assert ReturnOk(q, backing, v, returned[k].line, returned[k].fill);
    }
    forall l | l in want && !(exists j :: 0 <= j < |returned| && returned[j].line == l)
      ensures exists i :: 0 <= i < |q'| && q'[i] == ReadLine(l, want[l])
    {
      var i :| 0 <= i < |q| && q[i] == ReadLine(l, want[l]);
      assert q'[i] == ReadLine(l, want[l]);
    }
  }

  /** A good fill installs a clean line that already held these bytes below. */
  lemma Install(q: seq<LineRequest>, returned: seq<Return>, backing: Memory, v: View, want: map<nat, Handle>,
                l: nat, f: Fill, w: nat)
    requires MemoryInv(q, returned, backing, v, want)
    requires ReturnOk(q, backing, v, l, f) && f.status.Ok? && l !in want
    ensures MemoryInv(q, returned, backing, v[l := Cached(w, false, f.data)], want)
    ensures forall k :: Logical(v[l := Cached(w, false, f.data)], q, backing, k) == Logical(v, q, backing, k)
  {
    LowerUntouched(q, backing, l);
    var v' := v[l := Cached(w, false, f.data)];
    forall k | 0 <= k < |returned| ensures ReturnOk(q, backing, v', returned[k].line, returned[k].fill) {
      assert ReturnOk(q, backing, v, returned[k].line, returned[k].fill);
    }
  }

  /** A returned line is handed to the bank: its miss no longer waits. */
  lemma TakeReturn(q: seq<LineRequest>, returned: seq<Return>, backing: Memory, v: View, want: map<nat, Handle>, k: nat)
    requires MemoryInv(q, returned, backing, v, want) && k < |returned|
    ensures MemoryInv(q, returned[..k] + returned[k + 1..], backing, v, want - {returned[k].line})
    ensures ReturnOk(q, backing, v, returned[k].line, returned[k].fill)
  {
    TakeReturnReads(q, returned, backing, v, want, k);
    TakeReturnFresh(q, returned, backing, v, want, k);
    TakeReturnAnswered(q, returned, want, k);
  }

  lemma TakeReturnReads(q: seq<LineRequest>, returned: seq<Return>, backing: Memory, v: View, want: map<nat, Handle>, k: nat)
    requires ReadsOrdered(q, v, want) && ReturnsFresh(q, returned, backing, v, want) && k < |returned|
    ensures ReadsOrdered(q, v, want - {returned[k].line})
    ensures ReturnOk(q, backing, v, returned[k].line, returned[k].fill)
  {
    assert ReturnOk(q, backing, v, returned[k].line, returned[k].fill);
  }

  lemma TakeReturnFresh(q: seq<LineRequest>, returned: seq<Return>, backing: Memory, v: View, want: map<nat, Handle>, k: nat)
    requires ReturnsFresh(q, returned, backing, v, want) && k < |returned|
    ensures ReturnsFresh(q, returned[..k] + returned[k + 1..], backing, v, want - {returned[k].line})
  {
    var r := returned[..k] + returned[k + 1..];
    assert forall i | 0 <= i < |r| :: r[i] == returned[if i < k then i else i + 1];
  }

  lemma TakeReturnAnswered(q: seq<LineRequest>, returned: seq<Return>, want: map<nat, Handle>, k: nat)
    requires Answered(q, returned, want) && k < |returned|
    ensures Answered(q, returned[..k] + returned[k + 1..], want - {returned[k].line})
  {
    var r := returned[..k] + returned[k + 1..];
    assert forall j | 0 <= j < |returned| && j != k :: returned[j] == r[if j < k then j else j - 1];
  }
}
