/**
 The miss registers of one bank (timing/memsys/cache_mshr.go): a table of
 generation-tagged slots whose entries for one line are linked into a replay
 chain.

 One clock edge may finalize an entry, dequeue the replay head, start a fill and
 allocate a slot, all decided from the old table. `Apply` states the edge as the
 simple sequence finalize, dequeue, start, allocate. The class `CacheMSHR` does
 what the source does (one pass over the old table with a special case for a
 tail that is linked and dequeued together) and is proved to agree with it.
 */
module CacheMissRegisters {
  import opened CacheTypes

  datatype Entry = Entry(valid: bool, finalized: bool, generation: nat, line: nat,
                         request: Request, port: nat, next: Option<Handle>)

  datatype Mshr = Mshr(entries: seq<Entry>, ready: bool, free: nat, head: Option<Handle>)

  datatype Allocation = Allocation(request: Request, port: nat)
  datatype Finalization = Finalization(handle: Handle, release: bool, previous: Option<Handle>)
  datatype Events = Events(allocate: Option<Allocation>, finalize: Option<Finalization>,
                           fill: Option<Handle>, dequeue: bool)
  datatype Allocated = Allocated(handle: Handle, previous: Option<Handle>)

  const NO_ENTRY: Entry := Entry(false, false, 0, 0, NO_REQUEST, 0, None)
  const LAST_GENERATION: nat := 0xffff_ffff_ffff_ffff

  function NewMshr(size: nat): Mshr {
    Mshr(seq(size, _ => NO_ENTRY), false, 0, None)
  }

  /** The handle names a live entry of its own generation. */
  predicate Live(m: Mshr, h: Handle) {
    h.slot < |m.entries| && m.entries[h.slot].valid && m.entries[h.slot].generation == h.generation
  }

  function HandleOf(m: Mshr, slot: nat): Handle
    requires slot < |m.entries|
  {
    Handle(slot, m.entries[slot].generation)
  }

  predicate FinalizeOk(m: Mshr, f: Finalization) {
    && Live(m, f.handle)
    && !m.entries[f.handle.slot].finalized
    && (!f.release && f.previous.Some? ==>
          && Live(m, f.previous.value)
          && m.entries[f.previous.value.slot].line == m.entries[f.handle.slot].line
          && f.previous.value != f.handle
          && m.entries[f.previous.value.slot].next.None?)
  }

  predicate AllocateOk(m: Mshr) {
    && m.ready
    && m.free < |m.entries| && !m.entries[m.free].valid
    && m.entries[m.free].generation != LAST_GENERATION
  }

  /** Every check the source makes before it changes the table. */
  predicate EventsOk(m: Mshr, ev: Events) {
    && (ev.finalize.Some? ==> FinalizeOk(m, ev.finalize.value))
    && (ev.fill.Some? ==> Live(m, ev.fill.value) && m.entries[ev.fill.value.slot].finalized && m.head.None?)
    && (ev.dequeue ==>
          && m.head.Some? && Live(m, m.head.value) && m.entries[m.head.value.slot].finalized
          && (ev.finalize.Some? ==> ev.finalize.value.handle != m.head.value))
    && (ev.allocate.Some? ==> AllocateOk(m))
  }

  // ------------------------------------------------------- one edge, in order

  function Finalize(m: Mshr, f: Finalization): (r: Mshr)
    requires FinalizeOk(m, f)
    ensures |r.entries| == |m.entries|
  {
    var es := m.entries[f.handle.slot := m.entries[f.handle.slot].(finalized := true, valid := !f.release)];
    if f.release || f.previous.None? then m.(entries := es)
    else m.(entries := es[f.previous.value.slot := es[f.previous.value.slot].(next := Some(f.handle))])
  }

  function Dequeue(m: Mshr): (r: Mshr)
    requires m.head.Some? && m.head.value.slot < |m.entries|
    ensures |r.entries| == |m.entries|
  {
    var s := m.head.value.slot;
    m.(entries := m.entries[s := m.entries[s].(valid := false)], head := m.entries[s].next)
  }

  function Start(m: Mshr, h: Handle): Mshr {
    m.(head := Some(h))
  }

  function Allocate(m: Mshr, slot: nat, a: Allocation): (r: Mshr)
    requires slot < |m.entries|
    ensures |r.entries| == |m.entries|
  {
    m.(entries := m.entries[slot := Entry(true, false, m.entries[slot].generation + 1, LineOf(a.request.address),
                                          a.request, a.port, None)])
  }

  /** The first slot at or after `from` with no valid entry; `|es|` when there is none. */
  function FirstFree(es: seq<Entry>, from: nat): (r: nat)
    requires from <= |es|
    ensures from <= r <= |es|
    ensures r < |es| ==> !es[r].valid
    ensures forall i | from <= i < r :: es[i].valid
    decreases |es| - from
  {
    if from == |es| || !es[from].valid then from else FirstFree(es, from + 1)
  }

  /** The registered free index and whether there is one. */
  function Registered(m: Mshr): Mshr {
    var f := FirstFree(m.entries, 0);
    if f < |m.entries| then m.(free := f, ready := true) else m.(free := 0, ready := false)
  }

  /** A slot the new miss may follow: valid before the edge, of the same line, a tail after linking, not leaving. */
  predicate Follows(old_: seq<Entry>, linked: seq<Entry>, gone: Option<nat>, line: nat, i: nat)
    requires |old_| == |linked| && i < |old_|
  {
    old_[i].valid && old_[i].line == line && linked[i].next.None? && gone != Some(i)
  }

  /** The first such slot. */
  function Predecessor(old_: seq<Entry>, linked: seq<Entry>, gone: Option<nat>, line: nat, from: nat): (r: Option<nat>)
    requires |old_| == |linked| && from <= |old_|
    ensures r.Some? ==> from <= r.value < |old_| && Follows(old_, linked, gone, line, r.value)
    ensures r.None? ==> forall i | from <= i < |old_| :: !Follows(old_, linked, gone, line, i)
    decreases |old_| - from
  {
    if from == |old_| then None
    else if Follows(old_, linked, gone, line, from) then Some(from)
    else Predecessor(old_, linked, gone, line, from + 1)
  }

  function Finalized(m: Mshr, ev: Events): (r: Mshr)
    requires EventsOk(m, ev)
    ensures |r.entries| == |m.entries|
  {
    if ev.finalize.Some? then Finalize(m, ev.finalize.value) else m
  }

  function Dequeued(m: Mshr, ev: Events): (r: Mshr)
    requires EventsOk(m, ev)
    ensures |r.entries| == |m.entries|
  {
    var f := Finalized(m, ev);
    if ev.dequeue then Dequeue(f) else f
  }

  function Gone(m: Mshr, ev: Events): Option<nat>
    requires EventsOk(m, ev)
  {
    if ev.dequeue then Some(m.head.value.slot) else None
  }

  function Handed(m: Mshr, ev: Events): Option<Allocated>
    requires EventsOk(m, ev)
  {
    if ev.allocate.None? then None
    else
      var line := LineOf(ev.allocate.value.request.address);
      var p := Predecessor(m.entries, Finalized(m, ev).entries, Gone(m, ev), line, 0);
      Some(Allocated(Handle(m.free, m.entries[m.free].generation + 1),
                     if p.Some? then Some(HandleOf(m, p.value)) else None))
  }

  /** The table after one edge. */
  function Apply(m: Mshr, ev: Events): (r: Mshr)
    requires EventsOk(m, ev)
    ensures |r.entries| == |m.entries|
  {
    var d := Dequeued(m, ev);
    var s := if ev.fill.Some? then Start(d, ev.fill.value) else d;
    var a := if ev.allocate.Some? then Allocate(s, m.free, ev.allocate.value) else s;
    Registered(a)
  }

  /** The number of live entries. */
  function Occupancy(es: seq<Entry>): (r: nat)
    ensures r <= |es|
  {
    if es == [] then 0 else Occupancy(es[..|es| - 1]) + (if es[|es| - 1].valid then 1 else 0)
  }

  /** Changing one slot changes the count by that slot alone. */
  lemma {:induction false} OccupancyUpdate(es: seq<Entry>, i: nat, e: Entry)
    requires i < |es|
    ensures Occupancy(es[i := e]) == Occupancy(es) - (if es[i].valid then 1 else 0) + (if e.valid then 1 else 0)
  {
    var n := |es| - 1;
    if i == n {
      assert es[i := e][..n] == es[..n];
    } else {
      assert es[i := e][..n] == es[..n][i := e];
      OccupancyUpdate(es[..n], i, e);
    }
  }

  /** A table that is not full has a free slot, so its registered index is usable. */
  lemma {:induction false} NotFull(es: seq<Entry>)
    requires Occupancy(es) < |es|
    ensures exists i :: 0 <= i < |es| && !es[i].valid
  {
    var n := |es| - 1;
    if es[n].valid {
      NotFull(es[..n]);
      var i :| 0 <= i < n && !es[..n][i].valid;
      assert !es[i].valid;
    }
  }

  lemma {:induction false} NoneLive(es: seq<Entry>)
    ensures Occupancy(es) == 0 <==> forall i | 0 <= i < |es| :: !es[i].valid
  {
    if es != [] {
      var n := |es| - 1;
      NoneLive(es[..n]);
      assert forall i | 0 <= i < n :: es[..n][i] == es[i];
      if forall i | 0 <= i < |es| :: !es[i].valid {
        assert !es[n].valid;
      }
    }
  }

  /** The table after an edge's events, as one pass over the old table builds it. */
  lemma AppliedIs(m: Mshr, ev: Events, next: seq<Entry>, h: Option<Handle>)
    requires EventsOk(m, ev) && m.free < |m.entries|
    requires h == if ev.fill.Some? then ev.fill else Dequeued(m, ev).head
    requires next == if ev.allocate.None? then Dequeued(m, ev).entries
                     else Dequeued(m, ev).entries[m.free := Entry(true, false, m.entries[m.free].generation + 1, LineOf(ev.allocate.value.request.address),
                                                                  ev.allocate.value.request, ev.allocate.value.port, None)]
    ensures Apply(m, ev) == Registered(Mshr(next, m.ready, m.free, h))
  {
    hide FirstFree, LineOf;
  }

  // ------------------------------------------------------------- in place

  /** The register file as the source keeps it: fields replaced at the end of a checked edge. */
  class CacheMSHR {
    var entries: seq<Entry>
    var ready: bool
    var free: nat
    var head: Option<Handle>

    function Model(): Mshr
      reads this
    {
      Mshr(entries, ready, free, head)
    }

    constructor (size: nat)
      ensures Model() == NewMshr(size)
    {
      entries, ready, free, head := seq(size, _ => NO_ENTRY), false, 0, None;
    }

    /** Steps the table when every check passes; otherwise reports an error and changes nothing. */
    method Step(ev: Events) returns (ok: bool, result: Option<Allocated>)
      requires free < |entries|
      modifies this
      ensures ok <==> old(EventsOk(Model(), ev))
      ensures ok ==> Model() == old(Apply(Model(), ev)) && result == old(Handed(Model(), ev))
      ensures ok ==> free < |entries|
      ensures !ok ==> Model() == old(Model()) && result == None
    {
      hide EventsOk, Apply, Dequeued, Finalized, Predecessor, FirstFree;
      ok, result := false, None;
      var pass := Check(ev);
      if !pass { return; }
      ok := true;
      var next, h := Advance(ev);
      if ev.allocate.Some? {
        var a := ev.allocate.value;
        var line := LineOf(a.request.address);
        var previous := FindPredecessor(ev, next, line);
        var handle := Handle(free, entries[free].generation + 1);
        result := Some(Allocated(handle, previous));
        next := next[free := Entry(true, false, handle.generation, line, a.request, a.port, None)];
      }
      var f, r := FindFree(next);
      AppliedIs(Model(), ev, next, h);
      entries, head, free, ready := next, h, f, r;
    }

    /** The table and head after finalize and dequeue, in one pass over the old table. */
    method Advance(ev: Events) returns (next: seq<Entry>, h: Option<Handle>)
      requires EventsOk(Model(), ev)
      ensures next == Dequeued(Model(), ev).entries
      ensures h == if ev.fill.Some? then ev.fill else Dequeued(Model(), ev).head
      ensures forall i | 0 <= i < |next| :: next[i].next == Finalized(Model(), ev).entries[i].next
    {
      next, h := entries, head;
      if ev.fill.Some? { h := ev.fill; }
      if ev.dequeue {
        var leaving := entries[head.value.slot];
        next := next[head.value.slot := next[head.value.slot].(valid := false)];
        h := leaving.next;
        // The new child is allocated already, but the old table does not show the link yet.
        if h.None? && ev.finalize.Some? && !ev.finalize.value.release && ev.finalize.value.previous == head {
          h := Some(ev.finalize.value.handle);
        }
      }
      if ev.finalize.Some? {
        next := Link(next, ev.finalize.value);
      }
      assert forall i | 0 <= i < |next| :: next[i] == Dequeued(Model(), ev).entries[i];
    }

    method Check(ev: Events) returns (pass: bool)
      requires free < |entries|
      ensures pass == EventsOk(Model(), ev)
    {
      pass := false;
      if ev.finalize.Some? {
        var f := ev.finalize.value;
        if !Live(Model(), f.handle) || entries[f.handle.slot].finalized { return; }
        if !f.release && f.previous.Some? {
          var p := f.previous.value;
          if !Live(Model(), p) { return; }
          if entries[p.slot].line != entries[f.handle.slot].line || p == f.handle || entries[p.slot].next.Some? { return; }
        }
      }
      if ev.fill.Some? {
        if !Live(Model(), ev.fill.value) { return; }
        if !entries[ev.fill.value.slot].finalized || head.Some? { return; }
      }
      if ev.dequeue {
        if head.None? { return; }
        if !Live(Model(), head.value) || !entries[head.value.slot].finalized { return; }
        if ev.finalize.Some? && ev.finalize.value.handle == head.value { return; }
      }
      if ev.allocate.Some? {
        if !ready || entries[free].valid { return; }
        if entries[free].generation == LAST_GENERATION { return; }
      }
      pass := true;
    }

    method FindPredecessor(ev: Events, next: seq<Entry>, line: nat) returns (previous: Option<Handle>)
      requires EventsOk(Model(), ev) && |next| == |entries|
      requires forall i | 0 <= i < |next| :: next[i].next == Finalized(Model(), ev).entries[i].next
      ensures var p := Predecessor(entries, Finalized(Model(), ev).entries, Gone(Model(), ev), line, 0);
              previous == if p.Some? then Some(HandleOf(Model(), p.value)) else None
    {
      var slot := 0;
      while slot < |entries|
        invariant slot <= |entries|
        invariant Predecessor(entries, Finalized(Model(), ev).entries, Gone(Model(), ev), line, 0)
               == Predecessor(entries, Finalized(Model(), ev).entries, Gone(Model(), ev), line, slot)
      {
        var e := entries[slot];
        if e.valid && e.line == line && next[slot].next.None? && !(ev.dequeue && slot == head.value.slot) {
          return Some(Handle(slot, e.generation));
        }
        slot := slot + 1;
      }
      previous := None;
    }
  }

  method Link(es: seq<Entry>, f: Finalization) returns (next: seq<Entry>)
    requires f.handle.slot < |es|
    requires f.previous.Some? && !f.release ==> f.previous.value.slot < |es| && f.previous.value.slot != f.handle.slot
    ensures |next| == |es|
    ensures forall i | 0 <= i < |es| :: next[i] ==
              if i == f.handle.slot then es[i].(finalized := true, valid := es[i].valid && !f.release)
              else if !f.release && f.previous.Some? && i == f.previous.value.slot then es[i].(next := Some(f.handle))
              else es[i]
  {
    next := es[f.handle.slot := es[f.handle.slot].(finalized := true)];
    if f.release {
      next := next[f.handle.slot := next[f.handle.slot].(valid := false)];
    } else if f.previous.Some? {
      var p := f.previous.value.slot;
      next := next[p := next[p].(next := Some(f.handle))];
    }
  }

  method FindFree(es: seq<Entry>) returns (free: nat, ready: bool)
    ensures ready == (FirstFree(es, 0) < |es|)
    ensures free == if ready then FirstFree(es, 0) else 0
  {
    var slot := 0;
    while slot < |es|
      invariant slot <= |es|
      invariant FirstFree(es, 0) == FirstFree(es, slot)
    {
      if !es[slot].valid {
        return slot, true;
      }
      slot := slot + 1;
    }
    free, ready := 0, false;
  }
}
