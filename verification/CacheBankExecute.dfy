/** The stages that give s0 its turn at the array and load the next operation keep the bank's invariant. */
module CacheBankExecute {
  import opened CacheTypes
  import opened CacheGeometry
  import opened CacheArrays
  import opened CacheMissRegisters
  import opened CacheChains
  import opened CacheMemorySide
  import opened CacheBanks
  import opened CacheBankSystem

  /** What the register file hands a core operation: a free slot, and the chain tail when its line is absent. */
  ghost predicate HandedOk(b: Bank, v: View, chains: Chains, handed: Option<Allocated>) {
    && (handed.Some? <==> b.s0.Some? && b.s0.value.CoreOp?)
    && (handed.Some? ==>
          var l := LineOf(b.s0.value.request.address);
          var h := handed.value.handle;
          && h.slot < |b.mshr.entries| && !b.mshr.entries[h.slot].valid
          && h.generation == b.mshr.entries[h.slot].generation + 1
          && (l !in v ==>
                if handed.value.previous.None? then l !in chains
                else l in chains && handed.value.previous.value == TailOf(b.mshr, chains[l])))
  }

  ghost predicate Turn(c: Spec, b: Bank, x: Aux, latch: Latch, handed: Option<Allocated>)
    requires c.Valid()
  {
    && Structure(c, b, x, latch)
    && !latch.Unset? && b.s1.None?
    && HandedOk(b, x.view, x.chains, handed)
    && (b.s0.Some? && b.s0.value.InitOp? ==> x.view == map[])
  }

  lemma TurnAllowed(c: Spec, b: Bank, x: Aux, latch: Latch, handed: Option<Allocated>)
    requires c.Valid() && Turn(c, b, x, latch, handed)
    ensures ExecuteOk(c, b)
    ensures handed.Some? ==> handed.value.handle.slot < |b.mshr.entries|
    ensures handed.Some? ==> b.s0.Some? && b.s0.value.CoreOp?
  {
  }

  /** The chains and counts when a core operation takes its slot. */
  lemma AllocateKeeps(c: Spec, b: Bank, x: Aux, handed: Allocated)
    requires c.Valid() && b.s0.Some? && b.s0.value.CoreOp? && b.s1.None?
    requires EntriesOk(c, b.mshr) && ChainInv(b.mshr, x.chains, None) && CountOk(c, b)
    requires RequestOk(c, b.s0.value.request)
    requires HandedOk(b, x.view, x.chains, Some(handed))
    ensures var m := Allocate(b.mshr, handed.handle.slot, Allocation(b.s0.value.request, b.s0.value.port));
            && EntriesOk(c, m) && ChainInv(m, x.chains, Some(handed.handle.slot))
            && Want(m, x.chains) == Want(b.mshr, x.chains) && HeadLine(m) == HeadLine(b.mshr)
            && Occupancy(m.entries) == b.reserved
            && Live(m, handed.handle)
            && (LineOf(b.s0.value.request.address) !in x.view ==>
                  Expects(m, x.chains, Finalization(handed.handle, false, handed.previous)))
  {
    var a := Allocation(b.s0.value.request, b.s0.value.port);
    var m := Allocate(b.mshr, handed.handle.slot, a);
    AllocateSlot(b.mshr, x.chains, handed.handle.slot, a);
    OccupancyUpdate(b.mshr.entries, handed.handle.slot, m.entries[handed.handle.slot]);
    var l := LineOf(b.s0.value.request.address);
    if l in x.chains {
      assert ChainOk(b.mshr, l, x.chains[l]);
    }
  }

  /** The view after s0's turn. */
  ghost predicate ViewAfter(c: Spec, b: Bank, v: View, w: View)
    requires c.Valid()
  {
    match b.s0
    case None => w == v
    case Some(op) =>
      match op
      case InitOp(_) => w == v
      case CoreOp(_, _) => StoreView(c, b.s0.value.request, v, w)
      case ReplayOp(_, _, f) => if f.status.Failed? then w == v else StoreView(c, b.s0.value.request, v, w)
      case FillOp(l, f) => f.status.Failed? ==> w == v
      case FlushOp(_, _) => true
  }

  ghost predicate StoreView(c: Spec, r: Request, v: View, w: View)
    requires c.Valid()
  {
    var l := LineOf(r.address);
    if r.write && l in v then w == v[l := Cached(v[l].way, true, Merge(c, v[l].data, r))] else w == v
  }

  lemma AccessTurn(c: Spec, a: Array, v: View, op: Op, handed: Option<Allocated>) returns (w: View)
    requires c.Valid() && Views(c, a, v) && Access(op) && RequestOk(c, op.request)
    ensures var (b, k) := AccessArray(c, a, op, handed);
            && Views(c, b, w) && b.initialized == a.initialized
            && StoreView(c, op.request, v, w) && w.Keys == v.Keys
            && k.Some? && k.value.op == op && k.value.allocation == handed && k.value.victim.None?
            && (k.value.hit <==> LineOf(op.request.address) in v)
            && k.value.reply.status == Ok
            && (k.value.hit && !op.request.write ==>
                  k.value.reply == Response(op.request.id, ReadWord(c, v[LineOf(op.request.address)].data, op.request.address), Ok))
            && (op.request.write ==> Write(c, a, op.request).1 == k.value.hit)
  {
    w := v;
    if op.request.write {
      WriteMeans(c, a, v, op.request);
      var l := LineOf(op.request.address);
      if l in v {
        w := v[l := Cached(v[l].way, true, Merge(c, v[l].data, op.request))];
      }
    } else {
      ReadMeans(c, a, v, op.request);
    }
  }

  lemma AccessTurnContents(c: Spec, initial: Memory, q: seq<LineRequest>, returned: seq<Return>, backing: Memory,
                           v: View, want: map<nat, Handle>, log: seq<Request>, r: Request, w: View)
    requires c.Valid() && MemoryInv(q, returned, backing, v, want) && StoreView(c, r, v, w)
    requires forall l | Owned(c, l) :: Logical(v, q, backing, l) == Stored(c, initial, log, l)
    ensures MemoryInv(q, returned, backing, w, want)
    ensures var stored := if r.write && LineOf(r.address) in v then [r] else [];
            forall l | Owned(c, l) :: Logical(w, q, backing, l) == Stored(c, initial, log + stored, l)
  {
    var l := LineOf(r.address);
    if r.write && l in v {
      WriteHit(q, returned, backing, v, want, l, w[l]);
      forall k | Owned(c, k) ensures Logical(w, q, backing, k) == Stored(c, initial, log + [r], k) {
        StoredAppend(c, initial, log, r, k);
      }
    } else {
      assert log + [] == log;
    }
  }

  lemma CoreTurn(c: Spec, initial: Memory, s: Sys, x: Aux, latch: Latch, handed: Option<Allocated>) returns (w: View)
    requires c.Valid() && Turn(c, s.bank, x, latch, handed) && Contents(c, initial, s, x)
    requires s.bank.s0.Some? && s.bank.s0.value.CoreOp?
    ensures ExecuteOk(c, s.bank) && handed.Some? && handed.value.handle.slot < |s.bank.mshr.entries|
    ensures var t, y := SysExecute(c, s, handed), x.(view := w);
            && Structure(c, t.bank, y, latch) && Contents(c, initial, t, y)
            && ViewAfter(c, s.bank, x.view, w)
  {
    hide ChainInv, EntriesOk, Views, AllocateOk;
    var op := s.bank.s0.value;
    TurnAllowed(c, s.bank, x, latch, handed);
    w := AccessTurn(c, s.bank.store, x.view, op, handed);
    AllocateKeeps(c, s.bank, x, handed.value);
    AccessTurnContents(c, initial, InFlight(s), s.returned, s.backing, x.view, Want(s.bank.mshr, x.chains), s.log, op.request, w);
    assert InFlight(SysExecute(c, s, handed)) == InFlight(s);
  }

  lemma ReplayTurn(c: Spec, initial: Memory, s: Sys, x: Aux, latch: Latch) returns (w: View)
    requires c.Valid() && Turn(c, s.bank, x, latch, None) && Contents(c, initial, s, x)
    requires s.bank.s0.Some? && s.bank.s0.value.ReplayOp? && s.bank.s0.value.fill.status.Ok?
    ensures ExecuteOk(c, s.bank)
    ensures var t, y := SysExecute(c, s, None), x.(view := w);
            && Structure(c, t.bank, y, latch) && Contents(c, initial, t, y)
            && ViewAfter(c, s.bank, x.view, w)
  {
    var op := s.bank.s0.value;
    w := AccessTurn(c, s.bank.store, x.view, op, None);
    AccessTurnContents(c, initial, InFlight(s), s.returned, s.backing, x.view, Want(s.bank.mshr, x.chains), s.log, op.request, w);
    assert InFlight(SysExecute(c, s, None)) == InFlight(s);
  }

  /** A replay whose fill failed leaves the array and the log alone. */
  lemma FailedReplayTurn(c: Spec, initial: Memory, s: Sys, x: Aux, latch: Latch)
    requires c.Valid() && Turn(c, s.bank, x, latch, None) && Contents(c, initial, s, x)
    requires s.bank.s0.Some? && s.bank.s0.value.ReplayOp? && s.bank.s0.value.fill.status.Failed?
    ensures ExecuteOk(c, s.bank)
    ensures var t := SysExecute(c, s, None);
            Structure(c, t.bank, x, latch) && Contents(c, initial, t, x)
  {
    assert s.log + [] == s.log;
    assert InFlight(SysExecute(c, s, None)) == InFlight(s);
  }

  lemma IdleTurn(c: Spec, initial: Memory, s: Sys, x: Aux, latch: Latch)
    requires c.Valid() && Turn(c, s.bank, x, latch, None) && Contents(c, initial, s, x)
    requires s.bank.s0.None? || s.bank.s0.value.InitOp?
    ensures ExecuteOk(c, s.bank)
    ensures var t := SysExecute(c, s, None);
            Structure(c, t.bank, x, latch) && Contents(c, initial, t, x)
  {
    assert s.log + [] == s.log;
    if s.bank.s0.Some? {
      InitMeans(c, s.bank.store, s.bank.s0.value.set_);
    }
    assert InFlight(SysExecute(c, s, None)) == InFlight(s);
  }

  /** A failed fill leaves the array alone. */
  lemma FailedFillTurn(c: Spec, initial: Memory, s: Sys, x: Aux, latch: Latch)
    requires c.Valid() && Turn(c, s.bank, x, latch, None) && Contents(c, initial, s, x)
    requires s.bank.s0.Some? && s.bank.s0.value.FillOp? && s.bank.s0.value.fill.status.Failed?
    ensures ExecuteOk(c, s.bank)
    ensures var t := SysExecute(c, s, None);
            Structure(c, t.bank, x, latch) && Contents(c, initial, t, x)
  {
    assert s.log + [] == s.log;
    assert InFlight(SysExecute(c, s, None)) == InFlight(s);
  }

  /** A good fill installs its line and sends a dirty occupant on its way. */
  lemma GoodFillTurn(c: Spec, initial: Memory, s: Sys, x: Aux, latch: Latch) returns (w: View)
    requires c.Valid() && Turn(c, s.bank, x, latch, None) && Contents(c, initial, s, x)
    requires s.bank.s0.Some? && s.bank.s0.value.FillOp? && s.bank.s0.value.fill.status.Ok?
    ensures ExecuteOk(c, s.bank)
    ensures var t, y := SysExecute(c, s, None), x.(view := w);
            Structure(c, t.bank, y, latch) && Contents(c, initial, t, y)
  {
    hide AccessArray, Allocate, Backed, BankOf, ChainInv, EntriesOk, Evicted, Expects, FillLine, FinalizationOf, FlushSet,
         FlushWay, Get, HandedOk, HeadLine, InitSet, Live, Logical, MemoryInv, Occupancy, QueueOwned, RequestOk, Shaped,
         Shown, Stored, Untouched, Want, Write;
    var FillOp(l, f) := s.bank.s0.value;
    var t := SysExecute(c, s, None);
    var q := InFlight(s);
    assert s.log + [] == s.log;
    assert LineOf(l) == l;
    var kept := FillMeans(c, s.bank.store, x.view, l, f.data);
    var (a, e) := FillLine(c, s.bank.store, l, f.data);
    var way :| Views(c, a, kept[l := Cached(way, false, f.data)]);
    w := kept[l := Cached(way, false, f.data)];
    FillContents(c, initial, s, x, l, f, kept, e, way);
    assert InFlight(t) == q + Evicted(e);
  }

  lemma FillContents(c: Spec, initial: Memory, s: Sys, x: Aux, l: nat, f: Fill, kept: View, e: Option<Eviction>, way: nat)
    requires c.Valid() && Contents(c, initial, s, x) && s.bank.s0 == Some(FillOp(l, f)) && f.status.Ok?
    requires Views(c, s.bank.store, x.view) && Evicts(x.view, kept, e)
    ensures var q, want := InFlight(s) + Evicted(e), Want(s.bank.mshr, x.chains);
            var w := kept[l := Cached(way, false, f.data)];
            && MemoryInv(q, s.returned, s.backing, w, want)
            && QueueOwned(c, q)
            && (forall k | Owned(c, k) :: Logical(w, q, s.backing, k) == Stored(c, initial, s.log, k))
  {
    var q, want := InFlight(s), Want(s.bank.mshr, x.chains);
    Evict(q, s.returned, s.backing, x.view, want, kept, e);
    var q' := q + Evicted(e);
    assert ReturnOk(q', s.backing, kept, l, f);
    Install(q', s.returned, s.backing, kept, want, l, f, way);
    EvictedOwned(c, s.bank.store, x.view, q, kept, e);
  }

  lemma EvictedOwned(c: Spec, a: Array, v: View, q: seq<LineRequest>, kept: View, e: Option<Eviction>)
    requires c.Valid() && Views(c, a, v) && QueueOwned(c, q) && Evicts(v, kept, e)
    ensures QueueOwned(c, q + Evicted(e))
  {
    if e.Some? {
      assert Backed(c, a, v, e.value.line);
    }
  }

  /** Flushing a slot changes no byte of the memory. */
  lemma FlushTurn(c: Spec, initial: Memory, s: Sys, x: Aux, latch: Latch) returns (w: View)
    requires c.Valid() && Turn(c, s.bank, x, latch, None) && Contents(c, initial, s, x)
    requires s.bank.s0.Some? && s.bank.s0.value.FlushOp?
    ensures ExecuteOk(c, s.bank)
    ensures var t, y := SysExecute(c, s, None), x.(view := w);
            && Structure(c, t.bank, y, latch) && Contents(c, initial, t, y)
  {
    hide AccessArray, Allocate, Backed, ChainsOk, EntriesOk, Evicted, Expects, FillLine, FinalizationOf, FlushSet, FlushWay,
         HandedOk, InitSet, LineOf, Logical, MemoryInv, Occupancy, Owned, Placed, QueueOwned, RequestOk, ReturnOk, Serves,
         Shaped, Shown, Stored, Want, Write;
    var FlushOp(n, k) := s.bank.s0.value;
    var t := SysExecute(c, s, None);
    var q, want := InFlight(s), Want(s.bank.mshr, x.chains);
    var e := None;
    assert s.log + [] == s.log;
    if c.writeback {
      e := FlushWay(c, s.bank.store, n, k).1;
      w := FlushMeans(c, s.bank.store, x.view, n, k);
    } else {
      w := FlushSetMeans(c, s.bank.store, x.view, n, c.ways);
    }
    NoneLive(s.bank.mshr.entries);
    Evict(q, s.returned, s.backing, x.view, want, w, e);
    EvictedOwned(c, s.bank.store, x.view, q, w, e);
    assert InFlight(t) == q + Evicted(e);
  }

  /** s0's turn at the array keeps the invariant whatever s0 holds. */
  lemma ExecuteKeeps(c: Spec, initial: Memory, s: Sys, x: Aux, latch: Latch, handed: Option<Allocated>) returns (w: View)
    requires c.Valid() && Turn(c, s.bank, x, latch, handed) && Contents(c, initial, s, x)
    ensures ExecuteOk(c, s.bank)
    ensures handed.Some? ==> handed.value.handle.slot < |s.bank.mshr.entries| && s.bank.s0.Some? && s.bank.s0.value.CoreOp?
    ensures var t, y := SysExecute(c, s, handed), x.(view := w);
            && Structure(c, t.bank, y, latch) && Contents(c, initial, t, y)
            && ViewAfter(c, s.bank, x.view, w)
  {
    TurnAllowed(c, s.bank, x, latch, handed);
    if s.bank.s0.None? || s.bank.s0.value.InitOp? {
      IdleTurn(c, initial, s, x, latch);
      w := x.view;
    } else {
      match s.bank.s0.value
      case CoreOp(_, _) => w := CoreTurn(c, initial, s, x, latch, handed);
      case ReplayOp(_, _, f) =>
        if f.status.Ok? {
          w := ReplayTurn(c, initial, s, x, latch);
        } else {
          w := x.view;
          FailedReplayTurn(c, initial, s, x, latch);
        }
      case FillOp(_, f) =>
        if f.status.Ok? {
          w := GoodFillTurn(c, initial, s, x, latch);
        } else {
          w := x.view;
          FailedFillTurn(c, initial, s, x, latch);
        }
      case FlushOp(_, _) => w := FlushTurn(c, initial, s, x, latch);
    }
  }
}
