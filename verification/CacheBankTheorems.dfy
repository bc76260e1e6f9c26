/**
 What holds of every run of one bank: the memory it presents, its miss chains,
 its answers, its queues and its flush.
 */
module CacheBankTheorems {
  import opened Arithmetic
  import opened CacheTypes
  import opened CacheGeometry
  import opened CacheArrays
  import opened CacheMissRegisters
  import opened CacheChains
  import opened CacheMemorySide
  import opened CacheBanks
  import opened CacheBankSystem
  import opened CacheBankLedger
  import opened CacheBankEdge
  import opened CacheBankRuns

  // ------------------------------------------------------------------ memory

  /** A line as the core sees it: the resident copy, else its youngest write on the way, else the backing store. */
  function CoreLine(c: Spec, s: Sys, l: nat): Sector
    requires c.Valid() && Shaped(c, s.bank.store)
  {
    match Lookup(c, s.bank.store, l)
    case Some(w) => s.bank.store.lines[SetOf(c, l)][w].data
    case None => Lower(InFlight(s), s.backing, l)
  }

  lemma CoreLineIsLogical(c: Spec, s: Sys, v: View, l: nat)
    requires c.Valid() && Views(c, s.bank.store, v) && Owned(c, l)
    ensures CoreLine(c, s, l) == Logical(v, InFlight(s), s.backing, l)
  {
    LookupMeans(c, s.bank.store, v, l);
    SameLine(c, l);
    if l in v {
      assert Backed(c, s.bank.store, v, l);
    }
  }

  /** Every line always reads as the initial memory with the performed stores applied in order. */
  lemma LogicalMemory(c: Spec, initial: Memory, run: seq<Sys>, acts: seq<Action>, k: nat, l: nat)
    requires c.Valid() && IsRun(c, initial, run, acts) && k < |run| && Owned(c, l)
    ensures Shaped(c, run[k].bank.store)
    ensures CoreLine(c, run[k], l) == Stored(c, initial, run[k].log, l)
  {
    var x := InvariantAt(c, initial, run, acts, k);
    CoreLineIsLogical(c, run[k], x.view, l);
  }

  /** The stores an action performs on the array. */
  function Stores(c: Spec, s: Sys, a: Action): seq<Request>
    requires c.Valid()
  {
    if a.Clock? && Runnable(c, s.bank) && !Stalled(c, s.bank) then Performs(c, s.bank) else []
  }

  lemma LogGrows(c: Spec, s: Sys, a: Action, t: Sys)
    requires c.Valid() && Next(c, s, a, t)
    ensures t.log == s.log + Stores(c, s, a)
  {
    if a.Clock? && !Stalled(c, s.bank) {
      DepartedFields(c, s, a.i);
    }
  }

  /** Only a store that meets its line changes what the core sees, and only in its enabled bytes. */
  lemma OnlyStoresChange(c: Spec, initial: Memory, run: seq<Sys>, acts: seq<Action>, k: nat, l: nat)
    requires c.Valid() && IsRun(c, initial, run, acts) && k < |acts| && Owned(c, l)
    ensures Shaped(c, run[k].bank.store) && Shaped(c, run[k + 1].bank.store)
    ensures var w := Stores(c, run[k], acts[k]);
            CoreLine(c, run[k + 1], l) ==
            if w != [] && LineOf(w[0].address) == l then Merge(c, CoreLine(c, run[k], l), w[0])
            else CoreLine(c, run[k], l)
  {
    LogicalMemory(c, initial, run, acts, k, l);
    LogicalMemory(c, initial, run, acts, k + 1, l);
    assert Next(c, run[k], acts[k], run[k + 1]);
    LogGrows(c, run[k], acts[k], run[k + 1]);
    var w := Stores(c, run[k], acts[k]);
    if w != [] {
      StoredAppend(c, initial, run[k].log, w[0], l);
    } else {
      assert run[k].log + w == run[k].log;
    }
  }

  // ------------------------------------------------------------------- misses

  /** No edge meets an internal error, except when a miss register has used up its generations. */
  lemma NoInternalError(c: Spec, initial: Memory, run: seq<Sys>, acts: seq<Action>, k: nat, i: Input, which: nat)
    requires c.Valid() && IsRun(c, initial, run, acts) && k < |run| && Offered(c, run[k], i, which)
    ensures var b := run[k].bank;
            && Runnable(c, b) && InputOk(c, b, i) && ArrayOk(c, b)
            && (EventsOk(b.mshr, EventsOf(c, b, i)) <==> !Exhausted(c, b))
  {
    var x := InvariantAt(c, initial, run, acts, k);
    InvRunnable(c, initial, run[k], x, i, which);
    EventsAllowed(c, initial, run[k], x, i, which);
    ArrayAccepts(c, run[k].bank, x);
  }

  /**
   Runs are runs of the object: they start in a new bank, every edge of a run is one the object's
   `Step` reports no error on and leaves as the run says, and nothing else moves the bank.
   */
  lemma RunsAreSteps(c: Spec, initial: Memory, run: seq<Sys>, acts: seq<Action>, k: nat)
    requires c.Valid() && IsRun(c, initial, run, acts) && k < |acts|
    ensures run[0].bank == NewBank(c)
    ensures var b := run[k].bank;
            match acts[k]
            case Clock(i, _) =>
              && Runnable(c, b) && InputOk(c, b, i) && EventsOk(b.mshr, EventsOf(c, b, i)) && ArrayOk(c, b)
              && run[k + 1].bank == CacheBanks.Step(c, b, i)
            case _ => run[k + 1].bank == b
  {
    hide SysEdge, CacheBanks.Step, Runnable, InputOk, EventsOk, EventsOf, ArrayOk, Offered;
    assert Next(c, run[k], acts[k], run[k + 1]);
    match acts[k] {
      case Clock(i, which) =>
        NoInternalError(c, initial, run, acts, k, i, which);
        SysEdgeIsStep(c, run[k], i, which);
      case _ =>
    }
  }

  lemma ArrayAccepts(c: Spec, b: Bank, x: Aux)
    requires c.Valid() && Structure(c, b, x, Unset) && Boot(c, b, x.view) && Runnable(c, b)
    ensures ArrayOk(c, b)
  {
    if b.s0.Some? && Access(b.s0.value) {
      var r := b.s0.value.request;
      LookupMeans(c, b.store, x.view, r.address);
      assert b.store.initialized[SetOf(c, r.address)];
    } else if b.s0.Some? && b.s0.value.FillOp? {
      assert b.store.initialized[SetOf(c, b.s0.value.line)];
    }
  }

  /** Where line `l` is being fetched: its reads in flight, then its lines returned. */
  function Fetching(s: Sys, l: nat): set<nat> {
    (set i: nat | i < |InFlight(s)| && InFlight(s)[i].ReadLine? && InFlight(s)[i].line == l)
    + (set k: nat | k < |s.returned| && s.returned[k].line == l :: |InFlight(s)| + k)
  }

  /** A missing line has one chain of waiting requests and one fetch, until that fetch is replaying. */
  ghost predicate OneFetch(s: Sys, chains: Chains, l: nat) {
    if l in chains && HeadLine(s.bank.mshr) != Some(l) then exists p :: Fetching(s, l) == {p}
    else Fetching(s, l) == {}
  }

  lemma FetchOnce(s: Sys, x: Aux, l: nat)
    requires MemoryInv(InFlight(s), s.returned, s.backing, x.view, Want(s.bank.mshr, x.chains))
    ensures OneFetch(s, x.chains, l)
  {
    hide CleanLines, Get, HeadLine, InFlight, RootOf;
    var q, want := InFlight(s), Want(s.bank.mshr, x.chains);
    if l in want {
      if i :| 0 <= i < |q| && q[i] == ReadLine(l, want[l]) {
        forall p | p in Fetching(s, l) ensures p == i {
          assert p < i ==> Untouched(q, p, l);
          assert i < p ==> Untouched(q, i, l);
          assert forall k | 0 <= k < |s.returned| && s.returned[k].line == l :: ReturnOk(q, s.backing, x.view, l, s.returned[k].fill);
        }
        assert Fetching(s, l) == {i};
      } else {
        var k :| 0 <= k < |s.returned| && s.returned[k].line == l;
        assert ReturnOk(q, s.backing, x.view, l, s.returned[k].fill);
        assert forall p | p in Fetching(s, l) :: p == |q| + k;
        assert |q| + k in Fetching(s, l);
        assert Fetching(s, l) == {|q| + k};
      }
    }
  }

  /**
   The miss registers: one chain per missing line, linked in order and headed by the
   request that owns the fetch; one fetch per chain; every register accounted for.
   */
  lemma MissChains(c: Spec, initial: Memory, run: seq<Sys>, acts: seq<Action>, k: nat) returns (chains: Chains)
    requires c.Valid() && IsRun(c, initial, run, acts) && k < |run|
    ensures var b := run[k].bank;
            && ChainInv(b.mshr, chains, OpenSlot(b))
            && (forall l :: OneFetch(run[k], chains, l))
            && b.reserved == Occupancy(b.mshr.entries) + (if b.s0.Some? && b.s0.value.CoreOp? then 1 else 0)
            && b.reserved <= c.registers
  {
    var x := InvariantAt(c, initial, run, acts, k);
    chains := x.chains;
    forall l ensures OneFetch(run[k], chains, l) {
      FetchOnce(run[k], x, l);
    }
  }

  // ------------------------------------------------------------------ answers

  /** What one action adds to the records. */
  ghost predicate Grown(s: Sys, t: Sys) {
    && |s.log| <= |t.log| <= |s.log| + 1 && t.log[..|s.log|] == s.log
    && |s.done| <= |t.done| && t.done[..|s.done|] == s.done
    && (forall d | |s.done| <= d < |t.done| :: t.done[d].at == |s.log|)
    && (forall id | id in s.issued :: id in t.issued && t.issued[id] == s.issued[id])
    && (forall id | id in t.issued && id !in s.issued ::
          && t.issued[id].at == |t.log|
          && t.bank.s0.Some? && t.bank.s0.value.CoreOp? && t.bank.s0.value.request.id == id)
  }

  lemma DepartedDone(c: Spec, s: Sys, i: Input)
    requires c.Valid() && Runnable(c, s.bank) && InputOk(c, s.bank, i) && EventsOk(s.bank.mshr, EventsOf(c, s.bank, i))
    requires !Stalled(c, s.bank)
    ensures var t := Departed(c, s, i);
            && |s.done| <= |t.done| && t.done[..|s.done|] == s.done
            && (forall d | |s.done| <= d < |t.done| :: t.done[d].at == |s.log|)
  {
    var s1 := SysCommit(SysPop(s, i));
    assert s1.done[..|s.done|] == s.done;
  }

  lemma LoadGrows(s: Sys, t: Sys, chosen: Option<Op>, which: nat)
    requires |s.log| <= |t.log| <= |s.log| + 1 && t.log[..|s.log|] == s.log
    requires |s.done| <= |t.done| && t.done[..|s.done|] == s.done
    requires forall d | |s.done| <= d < |t.done| :: t.done[d].at == |s.log|
    requires t.issued == s.issued
    requires chosen.Some? && chosen.value.CoreOp? ==> chosen.value.request.id !in s.issued
    ensures Grown(s, SysLoad(t, chosen, which))
  {
  }

  lemma SettleGrows(c: Spec, s: Sys, was: Bank, t: Sys, i: Input, chosen: Option<Op>)
    requires Grown(s, t)
    ensures Grown(s, SysSettle(c, was, t, i, chosen))
  {
  }

  lemma TurnGrows(c: Spec, s: Sys, i: Input)
    requires c.Valid() && Runnable(c, s.bank) && InputOk(c, s.bank, i) && EventsOk(s.bank.mshr, EventsOf(c, s.bank, i))
    requires !Stalled(c, s.bank)
    ensures var t := Turned(c, s, i);
            && |s.log| <= |t.log| <= |s.log| + 1 && t.log[..|s.log|] == s.log && t.issued == s.issued
            && |s.done| <= |t.done| && t.done[..|s.done|] == s.done
            && (forall d | |s.done| <= d < |t.done| :: t.done[d].at == |s.log|)
  {
    hide Executed, Choose, Departed;
    DepartedDone(c, s, i);
    DepartedFields(c, s, i);
    TurnedFields(c, s, i);
  }

  lemma RecordsGrow(c: Spec, s: Sys, a: Action, t: Sys)
    requires c.Valid() && Next(c, s, a, t)
    ensures Grown(s, t)
  {
    if a.Clock? {
      ClockGrows(c, s, a.i, a.which);
    }
  }

  lemma ClockGrows(c: Spec, s: Sys, i: Input, which: nat)
    requires c.Valid() && Runnable(c, s.bank) && InputOk(c, s.bank, i) && EventsOk(s.bank.mshr, EventsOf(c, s.bank, i)) && Offered(c, s, i, which)
    ensures Grown(s, SysEdge(c, s, i, which))
  {
    hide SysLoad, RequestOk, EventsOk;
    var chosen := Choose(c, s.bank, i);
    if Stalled(c, s.bank) {
      SettleGrows(c, s, s.bank, SysPop(s, i), i, chosen);
    } else {
      TurnGrows(c, s, i);
      ChosenId(c, s, i, which);
      var m := Turned(c, s, i);
      LoadGrows(s, m, chosen, which);
      SettleGrows(c, s, s.bank, SysLoad(m, chosen, which), i, chosen);
    }
  }

  lemma ChosenId(c: Spec, s: Sys, i: Input, which: nat)
    requires c.Valid() && Offered(c, s, i, which) && Runnable(c, s.bank) && InputOk(c, s.bank, i)
    ensures var chosen := Choose(c, s.bank, i);
            chosen.Some? && chosen.value.CoreOp? ==> chosen.value.request.id !in s.issued
  {
  }

  /** The action that accepted a request. */
  lemma {:induction false} AcceptedAt(c: Spec, initial: Memory, run: seq<Sys>, acts: seq<Action>, k: nat, id: nat) returns (a: nat)
    requires c.Valid() && IsRun(c, initial, run, acts) && k < |run| && id in run[k].issued
    ensures a < k && id !in run[a].issued && id in run[a + 1].issued
    ensures run[a + 1].issued[id] == run[k].issued[id] && run[k].issued[id].at == |run[a + 1].log|
  {
    assert Next(c, run[k - 1], acts[k - 1], run[k]);
    RecordsGrow(c, run[k - 1], acts[k - 1], run[k]);
    if id in run[k - 1].issued {
      a := AcceptedAt(c, initial, run, acts, k - 1, id);
    } else {
      a := k - 1;
    }
  }

  /** The action that answered a request. */
  lemma {:induction false} AnsweredAt(c: Spec, initial: Memory, run: seq<Sys>, acts: seq<Action>, k: nat, d: nat) returns (e: nat)
    requires c.Valid() && IsRun(c, initial, run, acts) && k < |run| && d < |run[k].done|
    ensures e < k && |run[e].done| <= d < |run[e + 1].done|
    ensures run[e + 1].done[d] == run[k].done[d] && run[k].done[d].at == |run[e].log|
  {
    assert Next(c, run[k - 1], acts[k - 1], run[k]);
    RecordsGrow(c, run[k - 1], acts[k - 1], run[k]);
    if d < |run[k - 1].done| {
      e := AnsweredAt(c, initial, run, acts, k - 1, d);
    } else {
      e := k - 1;
    }
  }

  lemma {:induction false} LogIsPrefix(c: Spec, initial: Memory, run: seq<Sys>, acts: seq<Action>, j: nat, k: nat)
    requires c.Valid() && IsRun(c, initial, run, acts) && j <= k < |run|
    ensures |run[j].log| <= |run[k].log| && run[k].log[..|run[j].log|] == run[j].log
    decreases k - j
  {
    if j < k {
      LogIsPrefix(c, initial, run, acts, j, k - 1);
      assert Next(c, run[k - 1], acts[k - 1], run[k]);
      RecordsGrow(c, run[k - 1], acts[k - 1], run[k]);
      assert run[k].log[..|run[j].log|] == run[k].log[..|run[k - 1].log|][..|run[j].log|];
    }
  }

  /** The log passes through every length between two states. */
  lemma {:induction false} LogReaches(c: Spec, initial: Memory, run: seq<Sys>, acts: seq<Action>, a: nat, e: nat, n: nat) returns (j: nat)
    requires c.Valid() && IsRun(c, initial, run, acts) && a <= e < |run|
    requires |run[a].log| <= n <= |run[e].log|
    ensures a <= j <= e && |run[j].log| == n
    decreases e - a
  {
    if |run[e].log| == n {
      j := e;
    } else {
      assert Next(c, run[e - 1], acts[e - 1], run[e]);
      RecordsGrow(c, run[e - 1], acts[e - 1], run[e]);
      j := LogReaches(c, initial, run, acts, a, e - 1, n);
    }
  }

  lemma {:induction false} IssuedStays(c: Spec, initial: Memory, run: seq<Sys>, acts: seq<Action>, j: nat, k: nat, id: nat)
    requires c.Valid() && IsRun(c, initial, run, acts) && j <= k < |run| && id in run[j].issued
    ensures id in run[k].issued
    decreases k - j
  {
    if j < k {
      IssuedStays(c, initial, run, acts, j, k - 1, id);
      assert Next(c, run[k - 1], acts[k - 1], run[k]);
      RecordsGrow(c, run[k - 1], acts[k - 1], run[k]);
    }
  }

  /** A request is answered on a later edge than the one that accepted it. */
  lemma AcceptedBeforeAnswered(c: Spec, initial: Memory, run: seq<Sys>, acts: seq<Action>, a: nat, e: nat, d: nat)
    requires c.Valid() && IsRun(c, initial, run, acts) && a < |acts| && e < |acts|
    requires |run[e].done| <= d < |run[e + 1].done| && run[e + 1].done[d].id !in run[a].issued
    ensures a < e
  {
    var id := run[e + 1].done[d].id;
    var x := InvariantAt(c, initial, run, acts, e + 1);
    assert Answers(run[e + 1], run[e + 1].done[d]);
    assert Next(c, run[e], acts[e], run[e + 1]);
    RecordsGrow(c, run[e], acts[e], run[e + 1]);
    assert id in run[e].issued;
    if e <= a {
      IssuedStays(c, initial, run, acts, e, a, id);
    }
  }

  /**
   Every good load answer is the requested word of the memory as it stood at some state
   after the load was accepted and no later than the edge that answered it.
   */
  lemma LoadsReadMemory(c: Spec, initial: Memory, run: seq<Sys>, acts: seq<Action>, k: nat, d: nat)
    returns (a: nat, j: nat, e: nat)
    requires c.Valid() && IsRun(c, initial, run, acts) && k < |run| && d < |run[k].done|
    requires run[k].done[d].load && run[k].done[d].status.Ok?
    ensures a < j <= e < k
    ensures var id := run[k].done[d].id;
            && id !in run[a].issued && id in run[a + 1].issued
            && |run[e].done| <= d < |run[e + 1].done| && run[e + 1].done[d] == run[k].done[d]
            && Shaped(c, run[j].bank.store)
            && var r := run[a + 1].issued[id].request;
               run[k].done[d].data == ReadWord(c, CoreLine(c, run[j], LineOf(r.address)), r.address)
  {
    var x := InvariantAt(c, initial, run, acts, k);
    var it := run[k].done[d];
    assert Answers(run[k], it);
    a := AcceptedAt(c, initial, run, acts, k, it.id);
    e := AnsweredAt(c, initial, run, acts, k, d);
    AcceptedBeforeAnswered(c, initial, run, acts, a, e, d);
    var issue := run[k].issued[it.id];
    var n :| issue.at <= n <= it.at && n <= |run[k].log|
      && it.data == ReadWord(c, Stored(c, initial, run[k].log[..n], LineOf(issue.request.address)), issue.request.address);
    j := LogReaches(c, initial, run, acts, a + 1, e, n);
    LogIsPrefix(c, initial, run, acts, j, k);
    IssuedOwned(c, initial, run, acts, k, it.id);
    LogicalMemory(c, initial, run, acts, j, LineOf(issue.request.address));
  }

  /** Accepted requests are the bank's own. */
  lemma IssuedOwned(c: Spec, initial: Memory, run: seq<Sys>, acts: seq<Action>, k: nat, id: nat)
    requires c.Valid() && IsRun(c, initial, run, acts) && k < |run| && id in run[k].issued
    ensures RequestOk(c, run[k].issued[id].request) && Owned(c, LineOf(run[k].issued[id].request.address))
  {
    var a := AcceptedAt(c, initial, run, acts, k, id);
    var x := InvariantAt(c, initial, run, acts, a + 1);
    assert Next(c, run[a], acts[a], run[a + 1]);
    RecordsGrow(c, run[a], acts[a], run[a + 1]);
    SameLine(c, run[k].issued[id].request.address);
  }

  lemma {:induction false} DistinctIds(done: seq<Completion>)
    requires forall i, j | 0 <= i < j < |done| :: done[i].id != done[j].id
    ensures |set d | d in done :: d.id| == |done|
  {
    if done != [] {
      var n := |done| - 1;
      DistinctIds(done[..n]);
      var before := set d | d in done[..n] :: d.id;
      assert done[n].id !in before;
      assert done == done[..n] + [done[n]];
      assert (set d | d in done :: d.id) == before + {done[n].id};
    } else {
      assert (set d | d in done :: d.id) == {};
    }
  }

  /** No request is answered twice, every answer belongs to an accepted request, and a drained bank owes none. */
  lemma ExactlyOnce(c: Spec, initial: Memory, run: seq<Sys>, acts: seq<Action>, k: nat)
    requires c.Valid() && IsRun(c, initial, run, acts) && k < |run|
    ensures forall i, j | 0 <= i < j < |run[k].done| :: run[k].done[i].id != run[k].done[j].id
    ensures forall d | 0 <= d < |run[k].done| :: Answers(run[k], run[k].done[d])
    ensures Empty(run[k].bank) && run[k].bank.reserved == 0 ==>
              && (set d | d in run[k].done :: d.id) == run[k].issued.Keys
              && |run[k].done| == |run[k].issued.Keys|
  {
    var s := run[k];
    var x := InvariantAt(c, initial, run, acts, k);
    if Empty(s.bank) && s.bank.reserved == 0 {
      NoneLive(s.bank.mshr.entries);
      var ids := set d | d in s.done :: d.id;
      forall id | id in s.issued ensures id in ids {
        assert At(s, Unset, x.places[id], id);
        assert x.places[id].Finished?;
        assert s.done[x.places[id].index] in s.done;
      }
      forall id | id in ids ensures id in s.issued.Keys {
        var d :| 0 <= d < |s.done| && s.done[d].id == id;
        assert Answers(s, s.done[d]);
      }
      assert ids == s.issued.Keys;
      DistinctIds(s.done);
    }
  }

  // ------------------------------------------------------------------- queues

  /** The load answers among the completions, as the core receives them. */
  function Loads(done: seq<Completion>): seq<PortResponse> {
    if done == [] then []
    else
      var d := done[|done| - 1];
      Loads(done[..|done| - 1]) + if d.load then [PortResponse(d.port, Response(d.id, d.data, d.status))] else []
  }

  lemma {:induction false} LoadsAppend(a: seq<Completion>, b: seq<Completion>)
    ensures Loads(a + b) == Loads(a) + Loads(b)
  {
    if b == [] {
      assert a + b == a;
    } else {
      assert (a + b)[..|a + b| - 1] == a + b[..|b| - 1];
      LoadsAppend(a, b[..|b| - 1]);
    }
  }

  /** The answers delivered to the core by the first `k` actions, in order. */
  function Delivered(run: seq<Sys>, acts: seq<Action>, k: nat): seq<PortResponse>
    requires k <= |acts| && |run| == |acts| + 1
  {
    if k == 0 then []
    else Delivered(run, acts, k - 1) + Delivery(run[k - 1], acts[k - 1])
  }

  /** An answer in s1 carries the id of its request. */
  predicate Named(b: Bank) {
    CommitRead(b) ==> b.s1.value.reply.id == b.s1.value.op.request.id
  }

  lemma TurnNamed(c: Spec, b: Bank, handed: Option<Allocated>)
    requires c.Valid() && ExecuteOk(c, b)
    requires handed.Some? ==> handed.value.handle.slot < |b.mshr.entries|
    requires handed.Some? ==> b.s0.Some? && b.s0.value.CoreOp?
    ensures Named(ExecuteStage(c, b, handed))
  {
  }

  lemma CommitAnswers(s: Sys) returns (news: seq<PortResponse>)
    requires CommitOk(s.bank) && Named(s.bank)
    ensures SysCommit(s).bank.responses == s.bank.responses + news
    ensures Loads(SysCommit(s).done) == Loads(s.done) + news
    ensures |news| <= 1 && (news != [] <==> CommitRead(s.bank))
    ensures |SysCommit(s).bank.memory| <= |s.bank.memory| + (if CommitMemory(s.bank) then 1 else 0)
  {
    news := [];
    if s.bank.s1.Some? {
      var x := s.bank.s1.value;
      news := CommittedResponse(x);
      LoadsAppend(s.done, CompletedBy(x, |s.log|));
    }
  }

  lemma ReleaseAnswers(s: Sys, answer: seq<PortResponse>)
    requires s.bank.mshr.head.Some? && s.bank.mshr.head.value.slot < |s.bank.mshr.entries| && |answer| <= 1
    ensures Loads(SysRelease(s, answer).done) == Loads(s.done) + answer
    ensures SysRelease(s, answer).bank.responses == s.bank.responses + answer
    ensures SysRelease(s, answer).bank.memory == s.bank.memory
  {
    LoadsAppend(s.done, AnsweredBy(answer, |s.log|));
  }

  lemma DepartedAnswers(c: Spec, s: Sys, i: Input) returns (news: seq<PortResponse>)
    requires c.Valid() && Runnable(c, s.bank) && InputOk(c, s.bank, i) && EventsOk(s.bank.mshr, EventsOf(c, s.bank, i))
    requires !Stalled(c, s.bank) && Named(s.bank)
    ensures Departed(c, s, i).bank.responses == Pop(s.bank, i).responses + news
    ensures Loads(Departed(c, s, i).done) == Loads(s.done) + news
    ensures |news| <= 1 && (news != [] ==> ResponseSpace(c, s.bank))
    ensures |Departed(c, s, i).bank.memory| <= |s.bank.memory| + (if MemorySpace(c, s.bank) then 1 else 0)
  {
    hide Access, AllocateOk, Choose, CommitStage, CompletedBy, Dequeues, FinalizationOf, FinalizeOk, ForwardedResponse,
         HeadEntry, Loads, MemorySpace, RequestOk, ResponseSpace, RootMiss, Shaped, SysRelease;
    var s0 := SysPop(s, i);
    news := CommitAnswers(s0);
    var s1 := SysCommit(s0);
    if EventsOf(c, s.bank, i).dequeue {
      ReleaseShape(c, s, i);
      var answer := Answer(c, s.bank);
      assert s1.bank.mshr.head == s.bank.mshr.head && |s1.bank.mshr.entries| == |s.bank.mshr.entries|;
      ReleaseAnswers(s1, answer);
      var first := news;
      news := first + answer;
      assert s0.bank.responses + first + answer == s0.bank.responses + news;
      assert Loads(s.done) + first + answer == Loads(s.done) + news;
    }
  }

  /** What an edge adds to the response queue and to the records. */
  ghost predicate Adds(c: Spec, s: Sys, popped: seq<PortResponse>, t: Sys, news: seq<PortResponse>) {
    && t.bank.responses == popped + news
    && Loads(t.done) == Loads(s.done) + news
    && |news| <= 1 && (news != [] ==> ResponseSpace(c, s.bank))
    && |t.bank.memory| <= |s.bank.memory| + (if MemorySpace(c, s.bank) then 1 else 0)
  }

  lemma TurnedAnswers(c: Spec, s: Sys, i: Input) returns (news: seq<PortResponse>)
    requires c.Valid() && Runnable(c, s.bank) && InputOk(c, s.bank, i) && EventsOk(s.bank.mshr, EventsOf(c, s.bank, i))
    requires !Stalled(c, s.bank) && Named(s.bank)
    ensures Named(Turned(c, s, i).bank) && Adds(c, s, Pop(s.bank, i).responses, Turned(c, s, i), news)
  {
    hide Departed, EventsOf, EventsOk, Handed, Stalled, ExecuteOk, ExecuteStage, Performs, Loads, Named, Pop;
    news := DepartedAnswers(c, s, i);
    DepartedFits(c, s, i);
    TurnNamed(c, Departed(c, s, i).bank, Handed(s.bank.mshr, EventsOf(c, s.bank, i)));
    ExecutedQueues(c, Departed(c, s, i), Handed(s.bank.mshr, EventsOf(c, s.bank, i)));
  }

  lemma DepartedFits(c: Spec, s: Sys, i: Input)
    requires c.Valid() && Runnable(c, s.bank) && InputOk(c, s.bank, i) && EventsOk(s.bank.mshr, EventsOf(c, s.bank, i))
    requires !Stalled(c, s.bank)
    ensures var d, handed := Departed(c, s, i).bank, Handed(s.bank.mshr, EventsOf(c, s.bank, i));
            && ExecuteOk(c, d) && (handed.Some? ==> handed.value.handle.slot < |d.mshr.entries|)
            && (handed.Some? ==> d.s0.Some? && d.s0.value.CoreOp?)
  {
    hide Departed, InputOk, Stalled, Dequeued;
    DepartedFields(c, s, i);
  }

  lemma ExecutedQueues(c: Spec, s: Sys, handed: Option<Allocated>)
    requires c.Valid() && ExecuteOk(c, s.bank) && (handed.Some? ==> handed.value.handle.slot < |s.bank.mshr.entries|)
    requires handed.Some? ==> s.bank.s0.Some? && s.bank.s0.value.CoreOp?
    ensures var t := SysExecute(c, s, handed);
            t.bank == ExecuteStage(c, s.bank, handed) && t.bank.responses == s.bank.responses && t.bank.memory == s.bank.memory && t.done == s.done
  {
    hide Executed, ExecuteOk, Performs;
  }

  lemma EdgeShape(c: Spec, s: Sys, i: Input, which: nat)
    requires c.Valid() && Runnable(c, s.bank) && InputOk(c, s.bank, i) && EventsOk(s.bank.mshr, EventsOf(c, s.bank, i))
    ensures SysEdge(c, s, i, which) ==
            SysSettle(c, s.bank,
                      if Stalled(c, s.bank) then SysPop(s, i) else SysLoad(Turned(c, s, i), Choose(c, s.bank, i), which),
                      i, Choose(c, s.bank, i))
  {
  }

  lemma EdgeAnswers(c: Spec, s: Sys, i: Input, which: nat, t: Sys) returns (news: seq<PortResponse>)
    requires c.Valid() && Runnable(c, s.bank) && InputOk(c, s.bank, i) && EventsOk(s.bank.mshr, EventsOf(c, s.bank, i))
    requires Named(s.bank) && t == SysEdge(c, s, i, which)
    ensures Named(t.bank) && Adds(c, s, Pop(s.bank, i).responses, t, news)
  {
    var chosen := Choose(c, s.bank, i);
    EdgeShape(c, s, i, which);
    if Stalled(c, s.bank) {
      news := [];
      SettledQueues(c, s.bank, SysPop(s, i), i, chosen);
    } else {
      news := TurnedAnswers(c, s, i);
      LoadedQueues(Turned(c, s, i), chosen, which);
      SettledQueues(c, s.bank, SysLoad(Turned(c, s, i), chosen, which), i, chosen);
    }
  }

  ghost predicate SameQueues(s: Sys, t: Sys) {
    t.bank.responses == s.bank.responses && t.bank.memory == s.bank.memory && t.done == s.done && t.bank.s1 == s.bank.s1
  }

  lemma LoadedQueues(s: Sys, chosen: Option<Op>, which: nat)
    ensures SameQueues(s, SysLoad(s, chosen, which))
  {
  }

  lemma SettledQueues(c: Spec, was: Bank, s: Sys, i: Input, chosen: Option<Op>)
    ensures SameQueues(s, SysSettle(c, was, s, i, chosen))
  {
  }

  lemma DeliveryStep(before: seq<PortResponse>, b: Bank, i: Input, news: seq<PortResponse>, after: seq<PortResponse>)
    requires HeadOk(b) && after == Pop(b, i).responses + news
    ensures before + (if i.responseReady && b.responses != [] then [b.responses[0]] else []) + after
         == before + b.responses + news
  {
    var gone := if i.responseReady && b.responses != [] then [b.responses[0]] else [];
    assert b.responses == gone + Pop(b, i).responses;
    assert before + gone + (Pop(b, i).responses + news) == before + (gone + Pop(b, i).responses) + news;
  }

  /** The answer an action delivers. */
  function Delivery(s: Sys, a: Action): seq<PortResponse> {
    if a.Clock? && a.i.responseReady && s.bank.responses != [] then [s.bank.responses[0]] else []
  }

  ghost predicate QueuesOk(c: Spec, s: Sys, delivered: seq<PortResponse>) {
    && Named(s.bank)
    && |s.bank.responses| <= c.responseSize && |s.bank.memory| <= c.memorySize
    && delivered + s.bank.responses == Loads(s.done)
  }

  lemma ClockDelivers(c: Spec, s: Sys, i: Input, which: nat, t: Sys, before: seq<PortResponse>)
    requires c.Valid() && QueuesOk(c, s, before)
    requires Runnable(c, s.bank) && InputOk(c, s.bank, i) && EventsOk(s.bank.mshr, EventsOf(c, s.bank, i))
    requires t == SysEdge(c, s, i, which)
    ensures QueuesOk(c, t, before + Delivery(s, Clock(i, which)))
  {
    var news := EdgeAnswers(c, s, i, which, t);
    DeliveryStep(before, s.bank, i, news, t.bank.responses);
    BoundStep(c, s.bank, i, news);
  }

  lemma NextDelivers(c: Spec, s: Sys, a: Action, t: Sys, before: seq<PortResponse>)
    requires c.Valid() && QueuesOk(c, s, before) && Next(c, s, a, t)
    ensures QueuesOk(c, t, before + Delivery(s, a))
  {
    match a
    case Clock(i, which) => ClockDelivers(c, s, i, which, t, before);
    case Serve(_) => assert t.bank == s.bank && t.done == s.done;
    case Elsewhere(_, _) => assert t.bank == s.bank && t.done == s.done;
    case Rest =>
  }

  lemma BoundStep(c: Spec, b: Bank, i: Input, news: seq<PortResponse>)
    requires HeadOk(b) && |b.responses| <= c.responseSize && |news| <= 1 && (news != [] ==> ResponseSpace(c, b))
    ensures |Pop(b, i).responses + news| <= c.responseSize
  {
  }

  /**
   The core receives exactly the load answers given, in order, and the rest wait in the
   queue. Both queues keep within their bounds.
   */
  lemma {:induction false} DeliveredInOrder(c: Spec, initial: Memory, run: seq<Sys>, acts: seq<Action>, k: nat)
    requires c.Valid() && IsRun(c, initial, run, acts) && k < |run|
    ensures QueuesOk(c, run[k], Delivered(run, acts, k))
  {
    if k > 0 {
      DeliveredInOrder(c, initial, run, acts, k - 1);
      var s, a := run[k - 1], acts[k - 1];
      assert Next(c, s, a, run[k]);
      NextDelivers(c, s, a, run[k], Delivered(run, acts, k - 1));
    }
  }

  // -------------------------------------------------------------------- flush

  /** The walk meets each slot of the array exactly once (a read-only cache clears whole sets). */
  lemma WalkIsBijection(c: Spec, t: nat, w: nat)
    requires c.Valid() && c.writeback && t < c.sets && w < c.ways
    ensures var n := w * c.sets + t;
            && n < FlushCount(c) && n % c.sets == t && n / c.sets == w
            && (forall m: nat | m < FlushCount(c) && m % c.sets == t && m / c.sets == w :: m == n)
  {
    assert (w + 1) * c.sets <= c.ways * c.sets;
    DivUnique(w * c.sets + t, c.sets, w, t);
    forall m: nat | m < FlushCount(c) && m % c.sets == t && m / c.sets == w ensures m == w * c.sets + t {
      assert m == c.sets * (m / c.sets) + m % c.sets;
    }
  }

  lemma ClearedView(c: Spec, b: Bank, v: View)
    requires c.Valid() && Views(c, b.store, v) && Cleared(c, b) && b.s0.None?
    ensures v == map[]
  {
    forall t, w | 0 <= t < c.sets && 0 <= w < c.ways ensures !b.store.lines[t][w].valid {
      if c.writeback {
        WalkIsBijection(c, t, w);
        assert Walked(c, b.store, w * c.sets + t);
      } else {
        assert t % c.sets == t;
        assert Walked(c, b.store, t);
      }
    }
    EmptyView(c, b.store, v);
  }

  /** A bank that reports its flush done holds no line and owes no miss, once the last cleared way has left s0. */
  lemma FlushDoneMeans(c: Spec, initial: Memory, run: seq<Sys>, acts: seq<Action>, k: nat)
    requires c.Valid() && IsRun(c, initial, run, acts) && k < |run| && run[k].bank.flushing == FlushDone
    ensures var b := run[k].bank;
            && Shaped(c, b.store) && b.reserved == 0 && b.initNext == c.sets
            && (b.s0.None? || b.s0.value.FlushOp? || b.s0.value.InitOp?)
            && (b.s0.None? ==> forall t, w | 0 <= t < c.sets && 0 <= w < c.ways :: !b.store.lines[t][w].valid)
            && (b.s0.None? ==> forall l | Owned(c, l) :: Lower(InFlight(run[k]), run[k].backing, l) == Stored(c, initial, run[k].log, l))
            && (Empty(b) && run[k].port == [] ==>
                  forall l | Owned(c, l) :: Get(run[k].backing, l) == Stored(c, initial, run[k].log, l))
  {
    var x := InvariantAt(c, initial, run, acts, k);
    var s := run[k];
    if s.bank.s0.None? {
      ClearedView(c, s.bank, x.view);
      EmptyView(c, s.bank.store, x.view);
      if Empty(s.bank) && s.port == [] {
        assert InFlight(s) == [];
      }
    }
  }
}
