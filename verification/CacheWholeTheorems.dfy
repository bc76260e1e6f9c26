/**
 The whole data cache over its runs (timing/memsys/cache.go): as long as no write has failed,
 what happens to each bank is a run of that bank, so the theorems about one bank hold for
 every bank of the cache; and a flush reply without an error means that every bank was
 walked and the backing store holds the whole memory.
 */
module CacheWholeTheorems {
  import opened CacheTypes
  import opened CacheGeometry
  import opened CacheArrays
  import opened CacheMissRegisters
  import opened CacheChains
  import opened CacheMemorySide
  import opened CacheBanks
  import opened CacheBankSystem
  import opened CacheBankEdge
  import opened CacheBankFlush
  import opened CacheBankRuns
  import opened CacheBankTheorems
  import opened CacheBankWalk
  import opened CacheWhole
  import opened CacheWholeFlush

  // ---------------------------------------------------------------- one bank's run

  /** What a step of the whole cache is to bank `i`. */
  function Seen(w: Whole, a: Step, i: nat): Action {
    match a
    case Tick(y) => if i < |y.inputs| && i < |y.which| then Clock(y.inputs[i], y.which[i]) else Rest
    case Forward(_) => Rest
    case Accept(_) => Rest
    case Reply => Rest
    case Service(status) =>
      if w.backend == [] || w.backend[0].packet.Ticket? then Rest
      else if w.backend[0].bank == i then CacheBankRuns.Serve(status)
      else
        match w.backend[0].packet.request
        case WriteLine(l, d) => Elsewhere(l, d)
        case ReadLine(_, _) => Rest
  }

  lemma SeenService(c: Spec, initial: Memory, w: Whole, xs: seq<Aux>, status: Status, v: Whole, i: nat)
    requires Sized(c, w) && Sized(c, v) && Good(c, initial, w, xs) && Services(c, w, status, v) && v.fault.Ok? && i < c.banks
    ensures Next(For(c, i), w.banks[i], Seen(w, Service(status), i), v.banks[i])
  {
    hide FullInv, ControlOk, Runnable, InputOk, EventsOk, EventsOf, SysEdge, Owned;
    if w.backend[0].packet.LinePacket? {
      var j, r := w.backend[0].bank, w.backend[0].packet.request;
      assert r.ReadLine? || status.Ok?;
      PendingHead(w.backend, j);
      assert PortOk(w, j);
      assert w.banks[j].port[0] == r;
      assert w.banks[i].backing == w.backing && w.banks[j].backing == w.backing;
      if j != i {
        assert FullInv(For(c, j), initial, w.banks[j], xs[j]);
        FullContents(For(c, j), initial, w.banks[j], xs[j]);
        HeadOwned(For(c, j), initial, w.banks[j], xs[j]);
        OtherOwned(c, j, i, r.line);
        assert v.banks[i] == w.banks[i].(backing := v.backing);
      }
    }
  }

  lemma FullContents(c: Spec, initial: Memory, s: Sys, x: Aux)
    requires c.Valid() && FullInv(c, initial, s, x)
    ensures Contents(c, initial, s, x)
  {
  }

  /** Every step, as long as no write fails, is an action of every bank. */
  lemma SeenStep(c: Spec, initial: Memory, w: Whole, xs: seq<Aux>, a: Step, v: Whole, i: nat)
    requires Sized(c, w) && Sized(c, v) && Good(c, initial, w, xs) && Steps(c, w, a, v) && v.fault.Ok? && i < c.banks
    ensures Next(For(c, i), w.banks[i], Seen(w, a, i), v.banks[i])
  {
    hide Good, Next, Services;
    match a {
      case Tick(y) => assert Next(For(c, i), w.banks[i], Clock(y.inputs[i], y.which[i]), v.banks[i]);
      case Service(status) => SeenService(c, initial, w, xs, status, v, i);
      case Forward(_) => RestsNext(For(c, i), w.banks[i]);
      case Accept(_) => RestsNext(For(c, i), w.banks[i]);
      case Reply => RestsNext(For(c, i), w.banks[i]);
    }
  }

  lemma RestsNext(c: Spec, s: Sys)
    requires c.Valid()
    ensures Next(c, s, Rest, s)
  {
  }

  /** The states of bank `i` up to state `k`, and what it saw. */
  function BankStates(run: seq<Whole>, i: nat, k: nat): seq<Sys>
    requires k < |run| && forall m | 0 <= m < |run| :: i < |run[m].banks|
  {
    seq(k + 1, m requires 0 <= m <= k => run[m].banks[i])
  }

  function BankActs(run: seq<Whole>, steps: seq<Step>, i: nat, k: nat): seq<Action>
    requires k <= |steps| && k < |run|
  {
    seq(k, m requires 0 <= m < k => Seen(run[m], steps[m], i))
  }

  lemma {:induction false} FaultStays(c: Spec, initial: Memory, run: seq<Whole>, steps: seq<Step>, m: nat, k: nat)
    requires c.Valid() && c.writeback && IsWholeRun(c, initial, run, steps) && m <= k < |run| && run[k].fault.Ok?
    ensures run[m].fault.Ok?
    decreases k
  {
    hide Next, Sized;
    if m < k {
      assert Sized(c, run[k - 1]) && Steps(c, run[k - 1], steps[k - 1], run[k]);
      assert run[k - 1].fault.Ok?;
      FaultStays(c, initial, run, steps, m, k - 1);
    }
  }

  lemma GoodUntil(c: Spec, initial: Memory, run: seq<Whole>, steps: seq<Step>, m: nat, k: nat) returns (xs: seq<Aux>)
    requires c.Valid() && c.writeback && IsWholeRun(c, initial, run, steps) && m <= k < |run| && run[k].fault.Ok?
    ensures Sized(c, run[m]) && Good(c, initial, run[m], xs)
  {
    hide Good, IsWholeRun, Sized;
    FaultStays(c, initial, run, steps, m, k);
    xs := GoodAt(c, initial, run, steps, m);
  }

  /** Up to a state in which no write has failed, every bank of the cache makes a run of that bank. */
  lemma BankRun(c: Spec, initial: Memory, run: seq<Whole>, steps: seq<Step>, k: nat, i: nat)
    requires c.Valid() && c.writeback && IsWholeRun(c, initial, run, steps) && k < |run| && run[k].fault.Ok? && i < c.banks
    ensures |run| == |steps| + 1 && forall m | 0 <= m < |run| :: i < |run[m].banks|
    ensures For(c, i).Valid() && IsRun(For(c, i), initial, BankStates(run, i, k), BankActs(run, steps, i, k))
  {
    hide Good, Next, Steps, FullInv;
    assert forall m | 0 <= m < |run| :: Sized(c, run[m]);
    var states, acts := BankStates(run, i, k), BankActs(run, steps, i, k);
    forall m | 0 <= m < |acts| ensures Next(For(c, i), states[m], acts[m], states[m + 1]) {
      var xs := GoodUntil(c, initial, run, steps, m, k);
      FaultStays(c, initial, run, steps, m + 1, k);
      assert Sized(c, run[m + 1]) && Steps(c, run[m], steps[m], run[m + 1]);
      SeenStep(c, initial, run[m], xs, steps[m], run[m + 1], i);
    }
    assert states[0] == InitSys(For(c, i), initial);
  }

  // -------------------------------------------------------- the bank theorems, carried over

  /** Every line of the cache always reads as the initial memory with its bank's stores applied in order. */
  lemma WholeMemory(c: Spec, initial: Memory, run: seq<Whole>, steps: seq<Step>, k: nat, i: nat, l: nat)
    requires c.Valid() && c.writeback && IsWholeRun(c, initial, run, steps) && k < |run| && run[k].fault.Ok?
    requires i < c.banks && Owned(For(c, i), l)
    ensures i < |run[k].banks| && Shaped(For(c, i), run[k].banks[i].bank.store)
    ensures CoreLine(For(c, i), run[k].banks[i], l) == Stored(For(c, i), initial, run[k].banks[i].log, l)
  {
    hide IsWholeRun, IsRun, CoreLine, Stored, Owned;
    BankRun(c, initial, run, steps, k, i);
    LogicalMemory(For(c, i), initial, BankStates(run, i, k), BankActs(run, steps, i, k), k, l);
  }

  /** Every good load answer of the cache is the requested word of the memory at some state between acceptance and answer. */
  lemma WholeLoadsReadMemory(c: Spec, initial: Memory, run: seq<Whole>, steps: seq<Step>, k: nat, i: nat, d: nat)
    returns (a: nat, j: nat, e: nat)
    requires c.Valid() && c.writeback && IsWholeRun(c, initial, run, steps) && k < |run| && run[k].fault.Ok? && i < c.banks
    requires i < |run[k].banks| && d < |run[k].banks[i].done|
    requires run[k].banks[i].done[d].load && run[k].banks[i].done[d].status.Ok?
    ensures a < j <= e < k && forall m | 0 <= m < |run| :: i < |run[m].banks|
    ensures var id := run[k].banks[i].done[d].id;
            && id !in run[a].banks[i].issued && id in run[a + 1].banks[i].issued
            && |run[e].banks[i].done| <= d < |run[e + 1].banks[i].done| && run[e + 1].banks[i].done[d] == run[k].banks[i].done[d]
            && Shaped(For(c, i), run[j].banks[i].bank.store)
            && var r := run[a + 1].banks[i].issued[id].request;
               run[k].banks[i].done[d].data == ReadWord(For(c, i), CoreLine(For(c, i), run[j].banks[i], LineOf(r.address)), r.address)
  {
    hide IsWholeRun, IsRun, CoreLine, ReadWord, LineOf;
    BankRun(c, initial, run, steps, k, i);
    a, j, e := LoadsReadMemory(For(c, i), initial, BankStates(run, i, k), BankActs(run, steps, i, k), k, d);
  }

  /** No request of the cache is answered twice, every answer is to an accepted request, and an idle bank owes none. */
  lemma WholeExactlyOnce(c: Spec, initial: Memory, run: seq<Whole>, steps: seq<Step>, k: nat, i: nat)
    requires c.Valid() && c.writeback && IsWholeRun(c, initial, run, steps) && k < |run| && run[k].fault.Ok? && i < c.banks
    ensures i < |run[k].banks|
    ensures var s := run[k].banks[i];
            && (forall x, y | 0 <= x < y < |s.done| :: s.done[x].id != s.done[y].id)
            && (forall d | 0 <= d < |s.done| :: s.done[d].id in s.issued)
            && (Empty(s.bank) && s.bank.reserved == 0 ==> (set d | d in s.done :: d.id) == s.issued.Keys)
  {
    hide IsWholeRun, IsRun;
    BankRun(c, initial, run, steps, k, i);
    ExactlyOnce(For(c, i), initial, BankStates(run, i, k), BankActs(run, steps, i, k), k);
  }

  /** In every bank the live miss registers form one chain and one fetch per missing line. */
  lemma WholeMissChains(c: Spec, initial: Memory, run: seq<Whole>, steps: seq<Step>, k: nat, i: nat) returns (chains: Chains)
    requires c.Valid() && c.writeback && IsWholeRun(c, initial, run, steps) && k < |run| && run[k].fault.Ok? && i < c.banks
    ensures i < |run[k].banks|
    ensures var s := run[k].banks[i];
            && ChainInv(s.bank.mshr, chains, OpenSlot(s.bank)) && (forall l :: OneFetch(s, chains, l))
            && s.bank.reserved == Occupancy(s.bank.mshr.entries) + (if s.bank.s0.Some? && s.bank.s0.value.CoreOp? then 1 else 0)
            && s.bank.reserved <= c.registers
  {
    hide IsWholeRun, IsRun, ChainInv, OneFetch, Occupancy;
    BankRun(c, initial, run, steps, k, i);
    chains := MissChains(For(c, i), initial, BankStates(run, i, k), BankActs(run, steps, i, k), k);
  }

  // ------------------------------------------------------------------- the walk of a flush

  /** The slots bank `i` was sent to flush between two states. */
  function FlushedBetween(c: Spec, run: seq<Whole>, steps: seq<Step>, i: nat, p: nat, k: nat): seq<(nat, nat)>
    requires For(c, i).Valid() && p <= k < |run| && k <= |steps| && forall m | 0 <= m < |run| :: i < |run[m].banks|
  {
    FlushedIn(For(c, i), BankStates(run, i, k), BankActs(run, steps, i, k), p, k)
  }

  /** What is flushed up to a state does not depend on what follows. */
  lemma {:induction false} FlushedPrefix(c: Spec, states: seq<Sys>, acts: seq<Action>, more: seq<Sys>, moreActs: seq<Action>, p: nat, m: nat)
    requires c.Valid() && |states| == |acts| + 1 && |more| == |moreActs| + 1 && p <= m <= |acts| && states <= more && acts <= moreActs
    ensures FlushedIn(c, states, acts, p, m) == FlushedIn(c, more, moreActs, p, m)
    decreases m
  {
    hide Flushed;
    if p < m {
      FlushedPrefix(c, states, acts, more, moreActs, p, m - 1);
    }
  }

  lemma FlushedStep(c: Spec, run: seq<Whole>, steps: seq<Step>, i: nat, p: nat, k: nat)
    requires For(c, i).Valid() && p < k < |run| && k <= |steps| && forall m | 0 <= m < |run| :: i < |run[m].banks|
    ensures FlushedBetween(c, run, steps, i, p, k) ==
            FlushedBetween(c, run, steps, i, p, k - 1) + Flushed(For(c, i), run[k - 1].banks[i], Seen(run[k - 1], steps[k - 1], i))
  {
    hide Flushed;
    FlushedPrefix(For(c, i), BankStates(run, i, k - 1), BankActs(run, steps, i, k - 1),
                  BankStates(run, i, k), BankActs(run, steps, i, k), p, k - 1);
  }

  /** Where bank `i` stands in a flush: still at it, or done with its walk, or answered by the reset scan. */
  ghost predicate Walking(c: Spec, w: Whole, i: nat, scanned: bool, sent: seq<(nat, nat)>)
    requires Sized(c, w) && i < c.banks
  {
    if w.control == Banks && !w.flushDone[i] then Standing(For(c, i), w.banks[i].bank, scanned, sent)
    else w.banks[i].bank.flushing == FlushIdle && sent == if scanned then WalkSlots(For(c, i), FlushCount(c)) else []
  }

  lemma NoWalkNoFlush(c: Spec, s: Sys, a: Action)
    requires c.Valid() && s.bank.flushing != FlushWalk
    ensures Flushed(c, s, a) == []
  {
  }

  /** A tick under a flush. */
  lemma TickWalks(c: Spec, w: Whole, y: Cycle, v: Whole, i: nat, scanned: bool, sent: seq<(nat, nat)>)
    requires Sized(c, w) && Ticks(c, w, y, v) && i < c.banks && ControlOk(c, v)
    requires w.control == Banks || w.control == Tail || w.control == TicketSent || w.control == Replying
    requires v.control != Idle && Walking(c, w, i, scanned, sent)
    requires w.banks[i].bank.flushing == FlushWait && !scanned ==> !Empty(w.banks[i].bank)
    ensures Walking(c, v, i, scanned, sent + Flushed(For(c, i), w.banks[i], Clock(y.inputs[i], y.which[i])))
  {
    hide Flushed, Cleared, Runnable, EventsOk, SysEdge, InputOk, EventsOf, NoTicket, TicketOnItsWay, Offered;
    var s, t, a := w.banks[i], v.banks[i], Clock(y.inputs[i], y.which[i]);
    assert Next(For(c, i), s, a, t);
    if w.control == Banks && !w.flushDone[i] && s.bank.flushing != FlushDone {
      EdgeStands(For(c, i), s, y.inputs[i], y.which[i], scanned, sent);
    } else {
      NoWalkNoFlush(For(c, i), s, a);
      assert sent + [] == sent;
      assert t.bank.flushing == FlushIdle by { RestingBank(c, v, i); }
    }
  }

  lemma RestingBank(c: Spec, w: Whole, i: nat)
    requires Sized(c, w) && ControlOk(c, w) && i < c.banks
    requires (w.control == Banks && w.flushDone[i]) || w.control == Tail || w.control == TicketSent || w.control == Replying
    ensures w.banks[i].bank.flushing == FlushIdle
  {
    hide Cleared;
    assert Rested(For(c, i), w.banks[i].bank);
  }

  /** The pulse of a flush, in every bank. */
  lemma PulseWalks(c: Spec, w: Whole, y: Cycle, v: Whole, i: nat)
    requires Sized(c, w) && Ticks(c, w, y, v) && i < c.banks && ControlOk(c, w) && w.control == Pulse
    requires w.banks[i].bank.initNext <= c.sets
    ensures Walking(c, v, i, w.banks[i].bank.initNext == c.sets, Flushed(For(c, i), w.banks[i], Clock(y.inputs[i], y.which[i])))
  {
    hide Flushed, Runnable, EventsOk, SysEdge, EventsOf, NoTicket, Offered;
    assert Next(For(c, i), w.banks[i], Clock(y.inputs[i], y.which[i]), v.banks[i]);
    assert w.banks[i].bank.flushing == FlushIdle && !w.flushDone[i];
    PulseStands(For(c, i), w.banks[i], y.inputs[i], y.which[i]);
  }

  lemma OtherStepWalks(c: Spec, w: Whole, a: Step, v: Whole, i: nat, scanned: bool, sent: seq<(nat, nat)>)
    requires Sized(c, w) && Sized(c, v) && Steps(c, w, a, v) && !a.Tick? && i < c.banks && Walking(c, w, i, scanned, sent)
    requires v.fault.Ok?
    ensures Walking(c, v, i, scanned, sent + Flushed(For(c, i), w.banks[i], Seen(w, a, i)))
  {
    hide Standing, WalkSlots;
    assert v.banks[i].bank == w.banks[i].bank;
    assert Flushed(For(c, i), w.banks[i], Seen(w, a, i)) == [];
    assert sent + [] == sent;
  }

  /** The pulse at `p` is the one of the flush under way at `k`. */
  ghost predicate PulseOf(run: seq<Whole>, steps: seq<Step>, p: nat, k: nat)
    requires |run| == |steps| + 1
  {
    && p < k < |run| && run[p].control == Pulse && steps[p].Tick?
    && forall m | p < m <= k :: run[m].control != Pulse && run[m].control != Idle
  }

  lemma {:induction false} WalkingAt(c: Spec, initial: Memory, run: seq<Whole>, steps: seq<Step>, p: nat, k: nat, i: nat)
    requires c.Valid() && c.writeback && IsWholeRun(c, initial, run, steps) && PulseOf(run, steps, p, k) && run[k].fault.Ok? && i < c.banks
    ensures For(c, i).Valid() && Sized(c, run[k]) && forall m | 0 <= m < |run| :: i < |run[m].banks|
    ensures Walking(c, run[k], i, run[p].banks[i].bank.initNext == c.sets, FlushedBetween(c, run, steps, i, p, k))
    decreases k
  {
    hide Walking, Good, Flushed, Steps, FlushedIn;
    assert forall m | 0 <= m < |run| :: Sized(c, run[m]);
    FlushedStep(c, run, steps, i, p, k);
    var m := k - 1;
    assert Steps(c, run[m], steps[m], run[k]);
    var scanned := run[p].banks[i].bank.initNext == c.sets;
    if m == p {
      FirstWalks(c, initial, run, steps, p, i);
    } else {
      FaultStays(c, initial, run, steps, m, k);
      WalkingAt(c, initial, run, steps, p, m, i);
      NextWalks(c, initial, run, steps, p, m, i, scanned, FlushedBetween(c, run, steps, i, p, m));
    }
  }

  lemma FirstWalks(c: Spec, initial: Memory, run: seq<Whole>, steps: seq<Step>, p: nat, i: nat)
    requires c.Valid() && c.writeback && IsWholeRun(c, initial, run, steps) && PulseOf(run, steps, p, p + 1) && run[p + 1].fault.Ok? && i < c.banks
    ensures For(c, i).Valid() && Sized(c, run[p + 1]) && forall m | 0 <= m < |run| :: i < |run[m].banks|
    ensures Walking(c, run[p + 1], i, run[p].banks[i].bank.initNext == c.sets, FlushedBetween(c, run, steps, i, p, p + 1))
  {
    hide Walking, Flushed, Ticks, BanksOk, PortsOk, ControlOk;
    assert forall m | 0 <= m < |run| :: Sized(c, run[m]);
    assert Steps(c, run[p], steps[p], run[p + 1]);
    var xs := GoodUntil(c, initial, run, steps, p, p + 1);
    BankRun(c, initial, run, steps, p + 1, i);
    ScanBound(For(c, i), initial, BankStates(run, i, p + 1), BankActs(run, steps, i, p + 1), p);
    var y := steps[p].y;
    PulseWalks(c, run[p], y, run[p + 1], i);
    TickInputs(c, run[p], y, run[p + 1], i);
    FlushedStep(c, run, steps, i, p, p + 1);
    assert FlushedBetween(c, run, steps, i, p, p) == [];
    assert [] + Flushed(For(c, i), run[p].banks[i], Clock(y.inputs[i], y.which[i]))
        == Flushed(For(c, i), run[p].banks[i], Clock(y.inputs[i], y.which[i]));
  }

  lemma TickInputs(c: Spec, w: Whole, y: Cycle, v: Whole, i: nat)
    requires Sized(c, w) && Ticks(c, w, y, v) && i < c.banks
    ensures i < |y.inputs| && i < |y.which| && Seen(w, Tick(y), i) == Clock(y.inputs[i], y.which[i])
  {
  }

  lemma NextWalks(c: Spec, initial: Memory, run: seq<Whole>, steps: seq<Step>, p: nat, m: nat, i: nat, scanned: bool, sent: seq<(nat, nat)>)
    requires c.Valid() && c.writeback && IsWholeRun(c, initial, run, steps) && m + 1 < |run| && run[m + 1].fault.Ok? && i < c.banks
    requires Sized(c, run[m]) && Walking(c, run[m], i, scanned, sent)
    requires run[m].control != Pulse && run[m].control != Idle && run[m + 1].control != Idle
    ensures Sized(c, run[m + 1])
    ensures Walking(c, run[m + 1], i, scanned, sent + Flushed(For(c, i), run[m].banks[i], Seen(run[m], steps[m], i)))
  {
    hide Flushed, BanksOk, PortsOk, ControlOk, Ticks, Services, Standing;
    assert Sized(c, run[m + 1]) && Steps(c, run[m], steps[m], run[m + 1]);
    var xs := GoodUntil(c, initial, run, steps, m + 1, m + 1);
    if steps[m].Tick? {
      BusyWhileScanned(c, initial, run, steps, m, i, scanned, sent);
      TickInputs(c, run[m], steps[m].y, run[m + 1], i);
      TickWalks(c, run[m], steps[m].y, run[m + 1], i, scanned, sent);
    } else {
      OtherStepWalks(c, run[m], steps[m], run[m + 1], i, scanned, sent);
    }
  }

  lemma BusyWhileScanned(c: Spec, initial: Memory, run: seq<Whole>, steps: seq<Step>, m: nat, i: nat, scanned: bool, sent: seq<(nat, nat)>)
    requires c.Valid() && c.writeback && IsWholeRun(c, initial, run, steps) && m + 1 < |run| && run[m + 1].fault.Ok? && i < c.banks
    requires Sized(c, run[m]) && Walking(c, run[m], i, scanned, sent)
    ensures run[m].banks[i].bank.flushing == FlushWait && !scanned ==> !Empty(run[m].banks[i].bank)
  {
    hide IsWholeRun, IsRun;
    BankRun(c, initial, run, steps, m + 1, i);
    if run[m].banks[i].bank.flushing == FlushWait {
      WaitingBusy(For(c, i), initial, BankStates(run, i, m + 1), BankActs(run, steps, i, m + 1), m, scanned, sent);
    }
  }

  /** Every flush under way began with a pulse. */
  lemma {:induction false} PulseBefore(c: Spec, initial: Memory, run: seq<Whole>, steps: seq<Step>, k: nat) returns (p: nat)
    requires c.Valid() && c.writeback && IsWholeRun(c, initial, run, steps) && k < |run| && run[k].control != Idle && run[k].control != Pulse
    ensures |run| == |steps| + 1 && PulseOf(run, steps, p, k)
    decreases k
  {
    hide Next, Services, Flags;
    assert k > 0;
    var m := k - 1;
    assert Sized(c, run[m]) && Steps(c, run[m], steps[m], run[k]);
    assert steps[m].Service? ==> run[k].control == run[m].control by { ServiceControls(c, run[m], steps[m], run[k]); }
    if run[m].control == Pulse {
      p := m;
    } else {
      p := PulseBefore(c, initial, run, steps, m);
    }
  }

  lemma ServiceControls(c: Spec, w: Whole, a: Step, v: Whole)
    requires Sized(c, w) && Steps(c, w, a, v)
    ensures a.Service? ==> v.control == w.control
  {
  }

  // ----------------------------------------------------------------------- the flush reply

  /** Bank `i` holds nothing and owes nothing, and its lines of the backing store are its memory. */
  ghost predicate FlushedOut(c: Spec, initial: Memory, w: Whole, i: nat)
    requires Sized(c, w) && i < c.banks
  {
    var s := w.banks[i];
    && Empty(s.bank) && Shaped(c, s.bank.store) && s.issued.Keys == (set d | d in s.done :: d.id)
    && (forall t, y | 0 <= t < c.sets && 0 <= y < c.ways :: !s.bank.store.lines[t][y].valid && !s.bank.store.lines[t][y].dirty)
    && (forall l | Owned(For(c, i), l) :: Get(w.backing, l) == Stored(For(c, i), initial, s.log, l))
  }

  lemma FlushedOutAt(c: Spec, initial: Memory, w: Whole, xs: seq<Aux>, i: nat)
    requires Sized(c, w) && Good(c, initial, w, xs) && w.control == Replying && i < c.banks
    ensures FlushedOut(c, initial, w, i)
  {
    assert PortOk(w, i);
    assert FullInv(For(c, i), initial, w.banks[i], xs[i]);
    RestedBank(For(c, i), initial, w.banks[i], xs[i]);
  }

  /**
   When a flush reply without an error is offered, every bank has answered everything it
   accepted and holds no line, no request is on its way anywhere, and the backing store
   holds, line by line, the memory the core has written. Since the flush's pulse at `p`
   each bank has walked every set and way once and in order, if and only if its reset scan
   was over at the pulse; a bank still in its scan has walked none.
   */
  lemma FlushReplyMeans(c: Spec, initial: Memory, run: seq<Whole>, steps: seq<Step>, k: nat) returns (p: nat)
    requires c.Valid() && c.writeback && IsWholeRun(c, initial, run, steps) && k < |run|
    requires run[k].control == Replying && run[k].flushErr.Ok?
    ensures Sized(c, run[k]) && |run| == |steps| + 1 && PulseOf(run, steps, p, k)
    ensures forall m | 0 <= m < |run| :: |run[m].banks| == c.banks
    ensures run[k].backend == [] && forall i | 0 <= i < c.banks :: run[k].memory[i] == [] && run[k].memoryOut[i] == []
    ensures forall i: nat | i < c.banks :: FlushedOut(c, initial, run[k], i)
    ensures forall i: nat | i < c.banks ::
              var sent := FlushedBetween(c, run, steps, i, p, k);
              && (sent == WalkSlots(For(c, i), FlushCount(c)) <==> run[p].banks[i].bank.initNext == c.sets)
              && (run[p].banks[i].bank.initNext < c.sets ==> sent == [])
  {
    hide FlushedOut, FlushedIn, Steps, BanksOk, PortsOk;
    var xs := GoodAt(c, initial, run, steps, k);
    assert forall m | 0 <= m < |run| :: Sized(c, run[m]);
    p := PulseBefore(c, initial, run, steps, k);
    forall i: nat | i < c.banks
      ensures FlushedOut(c, initial, run[k], i)
      ensures var sent := FlushedBetween(c, run, steps, i, p, k);
              && (sent == WalkSlots(For(c, i), FlushCount(c)) <==> run[p].banks[i].bank.initNext == c.sets)
              && (run[p].banks[i].bank.initNext < c.sets ==> sent == [])
    {
      FlushedOutAt(c, initial, run[k], xs, i);
      WalkingAt(c, initial, run, steps, p, k, i);
      assert |WalkSlots(For(c, i), FlushCount(c))| == FlushCount(c) > 0;
    }
  }
}
