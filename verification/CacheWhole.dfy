/**
 The whole data cache (timing/memsys/cache.go) for cacheable traffic and separate
 flush requests: its banks, the two request queues behind each bank, the shared
 backend that serves requests in acceptance order, and the flush control.

 One call of the source's step is one `Tick` of every bank together with `Forward`
 and `Accept` moves on the request queues. Queue capacities, the arbiters and the
 path of returned lines are left open: a move may happen whenever there is
 something to move, so the claims hold for every capacity and every arbiter.
 */
module CacheWhole {
  import opened CacheTypes
  import opened CacheGeometry
  import opened CacheArrays
  import opened CacheMissRegisters
  import opened CacheMemorySide
  import opened CacheBanks
  import opened CacheBankSystem
  import opened CacheBankEdge
  import opened CacheBankRuns

  /** What travels to the backend: a line request, or the visibility request that ends a flush. */
  datatype Packet = LinePacket(request: LineRequest) | Ticket

  datatype Item = Item(bank: nat, packet: Packet)

  datatype Control = Idle | Pulse | Banks | Tail | TicketSent | Replying

  /**
   `fault` is the first error among the served writes, `ticket` the served visibility
   request whose reply is on its way, `flushErr` the error of the flush reply.
   */
  datatype Whole = Whole(banks: seq<Sys>, memory: seq<seq<Packet>>, memoryOut: seq<seq<Packet>>, backend: seq<Item>,
                         backing: Memory, fault: Status, ticket: Option<Status>,
                         control: Control, flushDone: seq<bool>, flushErr: Status)

  /** One edge as offered from outside: an input for every bank, a flush request, a taker of the flush reply. */
  datatype Cycle = Cycle(inputs: seq<Input>, which: seq<nat>, flush: bool, flushReady: bool, ticketReady: bool)

  datatype Step = Tick(y: Cycle) | Forward(i: nat) | Accept(i: nat) | Service(status: Status) | Reply

  /** The parameters of bank `i`. */
  function For(c: Spec, i: nat): Spec {
    c.(bank := i)
  }

  function InitWhole(c: Spec, initial: Memory): Whole
    requires c.Valid()
  {
    Whole(seq(c.banks, i requires 0 <= i < c.banks => InitSys(For(c, i), initial)),
          seq(c.banks, _ => []), seq(c.banks, _ => []), [], initial, Ok, None, Idle, seq(c.banks, _ => false), Ok)
  }

  predicate Sized(c: Spec, w: Whole) {
    && c.Valid() && c.writeback
    && |w.banks| == c.banks && |w.memory| == c.banks && |w.memoryOut| == c.banks && |w.flushDone| == c.banks
  }

  /** Requests reach the banks only while no flush is offered or under way; the flush pulse reaches every bank. */
  predicate CycleOk(c: Spec, w: Whole, y: Cycle)
    requires Sized(c, w)
  {
    && |y.inputs| == c.banks && |y.which| == c.banks
    && (forall i | 0 <= i < c.banks ::
          && (y.inputs[i].request.Some? ==> w.control == Idle && !y.flush)
          && y.inputs[i].flushBegin == (w.control == Pulse))
  }

  /** Every bank is empty and owes no miss, and no request waits behind one. */
  predicate TailEmpty(c: Spec, w: Whole)
    requires Sized(c, w)
  {
    forall i | 0 <= i < c.banks ::
      Empty(w.banks[i].bank) && w.banks[i].bank.reserved == 0 && w.memory[i] == [] && w.memoryOut[i] == []
  }

  function Leaving(s: Sys, i: Input): seq<Packet> {
    if i.memoryReady && s.bank.memory != [] then [LinePacket(s.bank.memory[0])] else []
  }

  predicate SendsTicket(c: Spec, w: Whole, y: Cycle)
    requires Sized(c, w)
  {
    w.control == Tail && TailEmpty(c, w) && y.ticketReady
  }

  function Flags(c: Spec, w: Whole, y: Cycle): seq<bool>
    requires Sized(c, w)
  {
    seq(c.banks, i requires 0 <= i < c.banks =>
      !(w.control == Idle && y.flush) && (w.flushDone[i] || w.banks[i].bank.flushing == FlushDone))
  }

  function NextControl(c: Spec, w: Whole, y: Cycle): Control
    requires Sized(c, w)
  {
    match w.control
    case Idle => if y.flush then Pulse else Idle
    case Pulse => Banks
    case Banks => if forall i | 0 <= i < c.banks :: Flags(c, w, y)[i] then Tail else Banks
    case Tail => if SendsTicket(c, w, y) then TicketSent else Tail
    case TicketSent => TicketSent
    case Replying => if y.flushReady then Idle else Replying
  }

  ghost predicate Ticks(c: Spec, w: Whole, y: Cycle, v: Whole)
    requires Sized(c, w)
  {
    && CycleOk(c, w, y) && Sized(c, v)
    && (forall i | 0 <= i < c.banks :: Next(For(c, i), w.banks[i], Clock(y.inputs[i], y.which[i]), v.banks[i]))
    && (forall i | 0 <= i < c.banks ::
          v.memory[i] == w.memory[i] + Leaving(w.banks[i], y.inputs[i])
                         + (if i == 0 && SendsTicket(c, w, y) then [Ticket] else []))
    && v.control == NextControl(c, w, y) && v.flushDone == Flags(c, w, y)
    && v.memoryOut == w.memoryOut && v.backend == w.backend && v.backing == w.backing
    && v.fault == w.fault && v.ticket == w.ticket && v.flushErr == w.flushErr
  }

  /** The first error stays. */
  function Worse(fault: Status, status: Status): Status {
    if fault.Failed? then fault else status
  }

  /** The oldest accepted request is served: a failed write changes nothing but the fault. */
  ghost predicate Services(c: Spec, w: Whole, status: Status, v: Whole)
    requires Sized(c, w)
  {
    && w.backend != [] && Sized(c, v)
    && v.memory == w.memory && v.memoryOut == w.memoryOut && v.backend == w.backend[1..]
    && v.control == w.control && v.flushDone == w.flushDone && v.flushErr == w.flushErr
    && match w.backend[0].packet
       case Ticket =>
         v.ticket == Some(w.fault) && v.banks == w.banks && v.backing == w.backing && v.fault == w.fault
       case LinePacket(r) =>
         var i := w.backend[0].bank;
         && i < c.banks && v.ticket == w.ticket
         && if r.ReadLine? || status.Ok? then
              && v.fault == w.fault
              && Next(For(c, i), w.banks[i], CacheBankRuns.Serve(status), v.banks[i])
              && v.backing == v.banks[i].backing
              && (forall j | 0 <= j < c.banks && j != i :: v.banks[j] == w.banks[j].(backing := v.backing))
            else
              && v.fault == Worse(w.fault, status) && v.backing == w.backing
              && |w.banks[i].port| > 0
              && v.banks == w.banks[i := w.banks[i].(port := w.banks[i].port[1..])]
  }

  ghost predicate Steps(c: Spec, w: Whole, a: Step, v: Whole)
    requires Sized(c, w)
  {
    match a
    case Tick(y) => Ticks(c, w, y, v)
    case Forward(i) =>
      && i < c.banks && w.memory[i] != []
      && v == w.(memory := w.memory[i := w.memory[i][1..]], memoryOut := w.memoryOut[i := w.memoryOut[i] + [w.memory[i][0]]])
    case Accept(i) =>
      && i < c.banks && w.memoryOut[i] != []
      && v == w.(memoryOut := w.memoryOut[i := w.memoryOut[i][1..]], backend := w.backend + [Item(i, w.memoryOut[i][0])])
    case Service(status) => Services(c, w, status, v)
    case Reply =>
      w.control == TicketSent && w.ticket.Some? && v == w.(control := Replying, flushErr := w.ticket.value, ticket := None)
  }

  ghost predicate IsWholeRun(c: Spec, initial: Memory, run: seq<Whole>, steps: seq<Step>)
    requires c.Valid() && c.writeback
  {
    && |run| == |steps| + 1
    && run[0] == InitWhole(c, initial)
    && (forall k | 0 <= k < |run| :: Sized(c, run[k]))
    && (forall k | 0 <= k < |steps| :: Steps(c, run[k], steps[k], run[k + 1]))
  }

  // ------------------------------------------------------------ the invariant

  /** The line requests of bank `i` that the backend has accepted and not served. */
  function Pending(backend: seq<Item>, i: nat): seq<LineRequest> {
    if backend == [] then []
    else
      var rest := Pending(backend[..|backend| - 1], i);
      var x := backend[|backend| - 1];
      if x.bank == i && x.packet.LinePacket? then rest + [x.packet.request] else rest
  }

  function Lines(q: seq<Packet>): seq<LineRequest> {
    if q == [] then []
    else
      var rest := Lines(q[..|q| - 1]);
      var x := q[|q| - 1];
      if x.LinePacket? then rest + [x.request] else rest
  }

  ghost predicate PortOk(w: Whole, i: nat)
    requires i < |w.banks| && i < |w.memory| && i < |w.memoryOut|
  {
    w.banks[i].port == Pending(w.backend, i) + Lines(w.memoryOut[i]) + Lines(w.memory[i])
  }

  ghost predicate Rested(c: Spec, b: Bank)
    requires c.Valid()
  {
    b.flushing == FlushIdle && Shaped(c, b.store) && Cleared(c, b)
  }

  predicate NoTicketIn(q: seq<Packet>) {
    forall k | 0 <= k < |q| :: q[k].LinePacket?
  }

  predicate NoTicketAccepted(q: seq<Item>) {
    forall k | 0 <= k < |q| :: q[k].packet.LinePacket?
  }

  ghost predicate NoTicket(c: Spec, w: Whole)
    requires Sized(c, w)
  {
    && w.ticket.None? && NoTicketAccepted(w.backend)
    && (forall i | 0 <= i < c.banks :: NoTicketIn(w.memory[i]) && NoTicketIn(w.memoryOut[i]))
  }

  ghost predicate AllRested(c: Spec, w: Whole)
    requires Sized(c, w)
  {
    forall i | 0 <= i < c.banks :: Rested(For(c, i), w.banks[i].bank)
  }

  ghost predicate AllEmpty(c: Spec, w: Whole)
    requires Sized(c, w)
  {
    forall i | 0 <= i < c.banks :: Empty(w.banks[i].bank)
  }

  /** The only packets behind the banks are those listed for bank 0. */
  ghost predicate OnlyFirst(c: Spec, queues: seq<seq<Packet>>, first: seq<Packet>)
    requires |queues| == c.banks
  {
    forall i | 0 <= i < c.banks :: queues[i] == if i == 0 then first else []
  }

  /** The ticket is in exactly one place, and once accepted it is the youngest request. */
  ghost predicate TicketOnItsWay(c: Spec, w: Whole)
    requires Sized(c, w)
  {
    || (OnlyFirst(c, w.memory, [Ticket]) && OnlyFirst(c, w.memoryOut, []) && NoTicketAccepted(w.backend) && w.ticket.None?)
    || (OnlyFirst(c, w.memory, []) && OnlyFirst(c, w.memoryOut, [Ticket]) && NoTicketAccepted(w.backend) && w.ticket.None?)
    || (&& OnlyFirst(c, w.memory, []) && OnlyFirst(c, w.memoryOut, []) && w.ticket.None?
        && w.backend != [] && w.backend[|w.backend| - 1].packet.Ticket? && NoTicketAccepted(w.backend[..|w.backend| - 1]))
    || (OnlyFirst(c, w.memory, []) && OnlyFirst(c, w.memoryOut, []) && w.backend == [] && w.ticket == Some(w.fault))
  }

  ghost predicate ControlOk(c: Spec, w: Whole)
    requires Sized(c, w)
  {
    match w.control
    case Idle => NoTicket(c, w) && forall i | 0 <= i < c.banks :: w.banks[i].bank.flushing == FlushIdle
    case Pulse =>
      && NoTicket(c, w)
      && (forall i | 0 <= i < c.banks :: w.banks[i].bank.flushing == FlushIdle && !w.flushDone[i])
    case Banks =>
      && NoTicket(c, w)
      && (forall i | 0 <= i < c.banks ::
            if w.flushDone[i] then Rested(For(c, i), w.banks[i].bank) else w.banks[i].bank.flushing != FlushIdle)
    case Tail => NoTicket(c, w) && AllRested(c, w)
    case TicketSent => AllRested(c, w) && AllEmpty(c, w) && TicketOnItsWay(c, w)
    case Replying =>
      && AllRested(c, w) && AllEmpty(c, w) && NoTicket(c, w)
      && OnlyFirst(c, w.memory, []) && OnlyFirst(c, w.memoryOut, []) && w.backend == []
  }

  ghost predicate BanksOk(c: Spec, initial: Memory, banks: seq<Sys>, xs: seq<Aux>)
    requires c.Valid() && |banks| == c.banks && |xs| == c.banks
  {
    forall i | 0 <= i < c.banks :: FullInv(For(c, i), initial, banks[i], xs[i])
  }

  ghost predicate PortsOk(c: Spec, w: Whole)
    requires Sized(c, w)
  {
    forall i | 0 <= i < c.banks :: w.banks[i].backing == w.backing && PortOk(w, i)
  }

  /** No write has failed: the banks are sound and the control is where it says. */
  ghost predicate Good(c: Spec, initial: Memory, w: Whole, xs: seq<Aux>)
    requires Sized(c, w)
  {
    && w.fault.Ok? && |xs| == c.banks
    && BanksOk(c, initial, w.banks, xs)
    && PortsOk(c, w)
    && ControlOk(c, w)
  }

  /** Some write has failed: no flush replies without an error again. */
  predicate Bad(w: Whole) {
    w.fault.Failed? && (w.ticket.Some? ==> w.ticket.value.Failed?) && (w.control == Replying ==> w.flushErr.Failed?)
  }
}
