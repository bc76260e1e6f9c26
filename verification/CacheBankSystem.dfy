/**
 One cache bank together with its memory port and the backing store.

 The port is a first-in first-out queue of line requests, serviced one at a time
 at any moment; serviced reads wait in `returned` and may reach the bank in any
 order. The state also records what happened: `log` lists the stores in the order
 in which they changed the array, `issued` the accepted requests with the length
 of the log at acceptance, and `done` the answers and store receipts with the
 length of the log when they were given.
 */
module CacheBankSystem {
  import opened CacheTypes
  import opened CacheGeometry
  import opened CacheArrays
  import opened CacheMissRegisters
  import opened CacheChains
  import opened CacheMemorySide
  import opened CacheBanks

  datatype Issue = Issue(request: Request, port: nat, at: nat)

  datatype Completion = Completion(id: nat, port: nat, load: bool, data: Word, status: Status, at: nat)

  datatype Sys = Sys(bank: Bank, port: seq<LineRequest>, returned: seq<Return>, backing: Memory,
                     log: seq<Request>, issued: map<nat, Issue>, done: seq<Completion>)

  /** The bytes of line `l` after the logged stores, oldest first. */
  function Stored(c: Spec, initial: Memory, log: seq<Request>, l: nat): Sector
    requires c.Valid()
  {
    if log == [] then Get(initial, l)
    else
      var before := Stored(c, initial, log[..|log| - 1], l);
      var r := log[|log| - 1];
      if LineOf(r.address) == l then Merge(c, before, r) else before
  }

  lemma StoredAppend(c: Spec, initial: Memory, log: seq<Request>, r: Request, l: nat)
    requires c.Valid()
    ensures Stored(c, initial, log + [r], l) ==
            if LineOf(r.address) == l then Merge(c, Stored(c, initial, log, l), r) else Stored(c, initial, log, l)
  {
    assert (log + [r])[..|log|] == log;
  }

  function Outgoing(s1: Option<Commit>): seq<LineRequest> {
    if s1.Some? then Evicted(s1.value.victim) else []
  }

  /** Everything on its way to the backing store, oldest first. */
  function InFlight(s: Sys): seq<LineRequest> {
    s.port + s.bank.memory + Outgoing(s.bank.s1)
  }

  // --------------------------------------------------- the edge, with records

  function CompletedBy(x: Commit, at: nat): seq<Completion> {
    if Access(x.op) && x.hit then
      [Completion(x.op.request.id, x.op.port, !x.op.request.write,
                  if x.op.request.write then ZERO_WORD else x.reply.data, x.reply.status, at)]
    else []
  }

  function AnsweredBy(answer: seq<PortResponse>, at: nat): seq<Completion> {
    if answer == [] then []
    else [Completion(answer[0].response.id, answer[0].port, true, answer[0].response.data, answer[0].response.status, at)]
  }

  function SysPop(s: Sys, i: Input): Sys
    requires HeadOk(s.bank)
  {
    s.(bank := Pop(s.bank, i),
       port := if i.memoryReady && s.bank.memory != [] then s.port + [s.bank.memory[0]] else s.port)
  }

  function SysCommit(s: Sys): Sys
    requires CommitOk(s.bank)
  {
    s.(bank := CommitStage(s.bank),
       done := if s.bank.s1.Some? then s.done + CompletedBy(s.bank.s1.value, |s.log|) else s.done)
  }

  function SysRelease(s: Sys, answer: seq<PortResponse>): Sys
    requires s.bank.mshr.head.Some? && s.bank.mshr.head.value.slot < |s.bank.mshr.entries|
  {
    s.(bank := ReleaseStage(s.bank, answer), done := s.done + AnsweredBy(answer, |s.log|))
  }

  /** The store s0 performs on the array, if it performs one. */
  function Performs(c: Spec, b: Bank): seq<Request>
    requires c.Valid() && ExecuteOk(c, b)
  {
    if b.s0.Some? && Access(b.s0.value) && b.s0.value.request.write
       && !(b.s0.value.ReplayOp? && b.s0.value.fill.status.Failed?)
       && Write(c, b.store, b.s0.value.request).1
    then [b.s0.value.request] else []
  }

  function SysExecute(c: Spec, s: Sys, handed: Option<Allocated>): Sys
    requires c.Valid() && ExecuteOk(c, s.bank)
    requires handed.Some? ==> handed.value.handle.slot < |s.bank.mshr.entries|
    requires handed.Some? ==> s.bank.s0.Some? && s.bank.s0.value.CoreOp?
  {
    s.(bank := ExecuteStage(c, s.bank, handed), log := s.log + Performs(c, s.bank))
  }

  function SysLoad(s: Sys, chosen: Option<Op>, which: nat): Sys {
    s.(bank := LoadStage(s.bank, chosen),
       issued := if chosen.Some? && chosen.value.CoreOp? then
                   s.issued[chosen.value.request.id := Issue(chosen.value.request, chosen.value.port, |s.log|)]
                 else s.issued,
       returned := if chosen.Some? && chosen.value.FillOp? && which < |s.returned| then
                     s.returned[..which] + s.returned[which + 1..]
                   else s.returned)
  }

  function SysSettle(c: Spec, was: Bank, s: Sys, i: Input, chosen: Option<Op>): Sys {
    s.(bank := SettleStage(c, was, s.bank, i, chosen))
  }

  // ------------------------------------------------------------ the invariant

  datatype Place = InLatch | InS0 | InSlot(slot: nat) | InS1 | Finished(index: nat)

  /**
   What the proof tracks beside the state: the view of the array, the chains, the
   length of the log when the latest fill was taken, and where each accepted
   request is.
   */
  datatype Aux = Aux(view: View, chains: Chains, takenAt: nat, places: map<nat, Place>)

  /** Where the edge stands with the replay head: not looked at, dealt with, or waiting to enter s0. */
  datatype Latch = Unset | Clear | Held(op: Op)

  function OpenSlot(b: Bank): Option<nat> {
    if b.s1.Some? && b.s1.value.op.CoreOp? && b.s1.value.allocation.Some? then
      Some(b.s1.value.allocation.value.handle.slot)
    else None
  }

  ghost predicate EntriesOk(c: Spec, m: Mshr)
    requires c.Valid()
  {
    && |m.entries| == c.registers
    && (forall i | 0 <= i < |m.entries| && m.entries[i].valid ::
          m.entries[i].line == LineOf(m.entries[i].request.address) && RequestOk(c, m.entries[i].request))
  }

  /** The second register: a core operation owns its open slot and knows its place in the chain. */
  ghost predicate S1Ok(c: Spec, b: Bank, v: View, chains: Chains)
    requires c.Valid()
  {
    b.s1.Some? ==>
      var x := b.s1.value;
      match x.op
      case CoreOp(r, p) =>
        && x.allocation.Some? && x.victim.None? && RequestOk(c, r)
        && Live(b.mshr, x.allocation.value.handle)
        && var e := b.mshr.entries[x.allocation.value.handle.slot];
           && !e.finalized && e.request == r && e.port == p
           && (x.hit <==> LineOf(r.address) in v)
           && (!x.hit ==> Expects(b.mshr, chains, FinalizationOf(x)))
      case ReplayOp(r, p, f) => x.hit && x.allocation.None? && x.victim.None? && RequestOk(c, r)
      case FillOp(_, _) => !x.hit && x.allocation.None?
      case InitOp(_) => !x.hit && x.allocation.None? && x.victim.None?
      case FlushOp(_, _) => !x.hit && x.allocation.None?
  }

  /** The first register: a replay after a good fill finds its line; a fill belongs to the replay head. */
  ghost predicate S0Ok(c: Spec, b: Bank, v: View, latch: Latch)
    requires c.Valid()
  {
    b.s0.Some? ==>
      match b.s0.value
      case CoreOp(r, p) => RequestOk(c, r) && p < c.corePorts
      case ReplayOp(r, p, f) => RequestOk(c, r) && (f.status.Ok? ==> LineOf(r.address) in v)
      case FillOp(l, f) =>
        && Owned(c, l) && b.forwarded == f
        && (latch.Unset? ==> b.mshr.head == Some(f.handle) && HeadLine(b.mshr) == Some(l))
      case InitOp(t) => t < c.sets && b.initNext == t + 1
      case FlushOp(t, w) => t < c.sets && w < c.ways && b.reserved == 0
  }

  /** Line `l` is resident when s0's turn is over: it is there, or s0 is about to install it. */
  predicate Serves(b: Bank, v: View, l: nat) {
    if b.s0.Some? && b.s0.value.FillOp? then b.s0.value.line == l else l in v
  }

  ghost predicate LatchOk(c: Spec, b: Bank, v: View, latch: Latch)
    requires c.Valid()
  {
    latch.Held? ==>
      && latch.op.ReplayOp? && latch.op.fill == b.forwarded
      && RequestOk(c, latch.op.request)
      && !(b.s0.Some? && b.s0.value.FlushOp?)
      && (latch.op.fill.status.Ok? ==> Serves(b, v, LineOf(latch.op.request.address)))
  }

  /** While a chain replays after a good fill its line is resident, or about to be. */
  ghost predicate HeadServed(b: Bank, v: View) {
    HeadLine(b.mshr).Some? && b.forwarded.status.Ok? ==> Serves(b, v, HeadLine(b.mshr).value)
  }

  ghost predicate CountOk(c: Spec, b: Bank) {
    && b.reserved == Occupancy(b.mshr.entries) + (if b.s0.Some? && b.s0.value.CoreOp? then 1 else 0)
    && b.reserved <= c.registers
  }

  ghost predicate Structure(c: Spec, b: Bank, x: Aux, latch: Latch)
    requires c.Valid()
  {
    && Views(c, b.store, x.view)
    && EntriesOk(c, b.mshr)
    && ChainInv(b.mshr, x.chains, OpenSlot(b))
    && S1Ok(c, b, x.view, x.chains)
    && S0Ok(c, b, x.view, latch)
    && LatchOk(c, b, x.view, latch)
    && HeadServed(b, x.view)
    && CountOk(c, b)
  }

  ghost predicate QueueOwned(c: Spec, q: seq<LineRequest>)
    requires c.Valid()
  {
    forall i | 0 <= i < |q| :: Owned(c, q[i].line)
  }

  ghost predicate Contents(c: Spec, initial: Memory, s: Sys, x: Aux)
    requires c.Valid()
  {
    && MemoryInv(InFlight(s), s.returned, s.backing, x.view, Want(s.bank.mshr, x.chains))
    && QueueOwned(c, InFlight(s))
    && (s.bank.s0.Some? && s.bank.s0.value.FillOp? ==>
          && ReturnOk(InFlight(s), s.backing, x.view, s.bank.s0.value.line, s.bank.s0.value.fill)
          && s.bank.s0.value.line !in Want(s.bank.mshr, x.chains))
    && (forall l | Owned(c, l) :: Logical(x.view, InFlight(s), s.backing, l) == Stored(c, initial, s.log, l))
  }

  predicate Booting(c: Spec, b: Bank) {
    b.initNext < c.sets || (b.s0.Some? && b.s0.value.InitOp?)
  }

  /** The reset scan: nothing is resident or outstanding until every set has been cleared. */
  ghost predicate Boot(c: Spec, b: Bank, v: View)
    requires c.Valid() && Shaped(c, b.store)
  {
    && b.initNext <= c.sets
    && (forall t | 0 <= t < b.initNext :: b.store.initialized[t] || b.s0 == Some(InitOp(t)))
    && (Booting(c, b) ==>
          && v == map[] && b.reserved == 0
          && (b.s0.None? || b.s0.value.InitOp?)
          && (b.s1.None? || b.s1.value.op.InitOp?))
    && (0 < b.initNext < c.sets ==> b.s0.Some?)
  }

  /** The slots the n-th step of a flush walk clears are clear. */
  ghost predicate Walked(c: Spec, a: Array, n: nat)
    requires c.Valid() && Shaped(c, a) && n < FlushCount(c)
  {
    forall w | 0 <= w < c.ways && (c.writeback ==> w == n / c.sets) :: !a.lines[n % c.sets][w].valid
  }

  ghost predicate WalkedTo(c: Spec, b: Bank, n: nat)
    requires c.Valid() && Shaped(c, b.store) && n <= FlushCount(c)
  {
    forall k | 0 <= k < n :: Walked(c, b.store, k) || b.s0 == Some(FlushOp(k % c.sets, k / c.sets))
  }

  /** No slot is valid beyond the one s0 is about to clear, and nothing is outstanding. */
  ghost predicate Cleared(c: Spec, b: Bank)
    requires c.Valid() && Shaped(c, b.store)
  {
    && b.initNext == c.sets && b.reserved == 0
    && (b.s0.None? || b.s0.value.FlushOp? || b.s0.value.InitOp?)
    && WalkedTo(c, b, FlushCount(c))
  }

  ghost predicate FlushInv(c: Spec, b: Bank)
    requires c.Valid() && Shaped(c, b.store)
  {
    match b.flushing
    case FlushIdle => true
    case FlushWait => b.initNext > 0
    case FlushWalk =>
      && b.initNext == c.sets && b.reserved == 0 && (b.s0.None? || b.s0.value.FlushOp?)
      && b.flushIndex < FlushCount(c) && WalkedTo(c, b, b.flushIndex)
    case FlushDrain => Cleared(c, b)
    case FlushDone => Cleared(c, b)
  }
}
