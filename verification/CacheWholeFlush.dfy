/** What every step of the whole cache keeps, up to the reply that ends a flush. */
module CacheWholeFlush {
  import opened CacheTypes
  import opened CacheGeometry
  import opened CacheArrays
  import opened CacheMissRegisters
  import opened CacheMemorySide
  import opened CacheBanks
  import opened CacheBankSystem
  import opened CacheBankLedger
  import opened CacheBankEdge
  import opened CacheBankFlush
  import opened CacheBankRuns
  import opened CacheBankTheorems
  import opened CacheBankWalk
  import opened CacheWhole

  // ---------------------------------------------------------------- the queues

  lemma LinesAppend(q: seq<Packet>, x: Packet)
    ensures Lines(q + [x]) == Lines(q) + if x.LinePacket? then [x.request] else []
  {
    assert (q + [x])[..|q|] == q;
  }

  lemma {:induction false} LinesHead(q: seq<Packet>)
    requires q != []
    ensures Lines(q) == (if q[0].LinePacket? then [q[0].request] else []) + Lines(q[1..])
  {
    var n := |q| - 1;
    if n == 0 {
      assert q[..0] == [] && q[1..] == [];
    } else {
      LinesHead(q[..n]);
      assert q[..n][1..] == q[1..][..n - 1];
    }
  }

  lemma PendingAppend(b: seq<Item>, x: Item, i: nat)
    ensures Pending(b + [x], i) == Pending(b, i) + if x.bank == i && x.packet.LinePacket? then [x.packet.request] else []
  {
    assert (b + [x])[..|b|] == b;
  }

  lemma {:induction false} PendingHead(b: seq<Item>, i: nat)
    requires b != []
    ensures Pending(b, i) == (if b[0].bank == i && b[0].packet.LinePacket? then [b[0].packet.request] else []) + Pending(b[1..], i)
  {
    var n := |b| - 1;
    if n == 0 {
      assert b[..0] == [] && b[1..] == [];
    } else {
      PendingHead(b[..n], i);
      assert b[..n][1..] == b[1..][..n - 1];
    }
  }

  /** A packet moves to the next queue: nothing on its way to the backing store changes. */
  lemma ForwardPort(memory: seq<Packet>, memoryOut: seq<Packet>)
    requires memory != []
    ensures Lines(memoryOut + [memory[0]]) + Lines(memory[1..]) == Lines(memoryOut) + Lines(memory)
  {
    LinesAppend(memoryOut, memory[0]);
    LinesHead(memory);
  }

  lemma AcceptPort(backend: seq<Item>, memoryOut: seq<Packet>, i: nat)
    requires memoryOut != []
    ensures Pending(backend + [Item(i, memoryOut[0])], i) + Lines(memoryOut[1..]) == Pending(backend, i) + Lines(memoryOut)
  {
    PendingAppend(backend, Item(i, memoryOut[0]), i);
    LinesHead(memoryOut);
  }

  lemma ForwardKeeps(c: Spec, initial: Memory, w: Whole, xs: seq<Aux>, i: nat, v: Whole)
    requires Sized(c, w) && Sized(c, v) && Good(c, initial, w, xs) && Steps(c, w, Forward(i), v)
    ensures Good(c, initial, v, xs)
  {
    ForwardPorts(c, w, i, v);
    ForwardControl(c, w, i, v);
  }

  lemma ForwardPorts(c: Spec, w: Whole, i: nat, v: Whole)
    requires Sized(c, w) && Sized(c, v) && PortsOk(c, w) && Steps(c, w, Forward(i), v)
    ensures PortsOk(c, v)
  {
    hide Pending, Lines;
    forall j | 0 <= j < c.banks ensures PortOk(v, j) {
      assert PortOk(w, j);
      if j == i {
        ForwardPort(w.memory[i], w.memoryOut[i]);
        assert Pending(w.backend, i) + Lines(w.memoryOut[i]) + Lines(w.memory[i])
            == Pending(w.backend, i) + (Lines(w.memoryOut[i]) + Lines(w.memory[i]));
      }
    }
  }

  lemma ForwardControl(c: Spec, w: Whole, i: nat, v: Whole)
    requires Sized(c, w) && Sized(c, v) && ControlOk(c, w) && Steps(c, w, Forward(i), v)
    ensures ControlOk(c, v)
  {
    if w.control == TicketSent {
      assert i == 0 && w.memory[0] == [Ticket];
      assert OnlyFirst(c, v.memory, []) && OnlyFirst(c, v.memoryOut, [Ticket]);
    } else {
      assert w.control != Replying;
      assert NoTicket(c, v);
    }
  }

  lemma AcceptKeeps(c: Spec, initial: Memory, w: Whole, xs: seq<Aux>, i: nat, v: Whole)
    requires Sized(c, w) && Sized(c, v) && Good(c, initial, w, xs) && Steps(c, w, Accept(i), v)
    ensures Good(c, initial, v, xs)
  {
    AcceptPorts(c, w, i, v);
    AcceptControl(c, w, i, v);
  }

  lemma AcceptPorts(c: Spec, w: Whole, i: nat, v: Whole)
    requires Sized(c, w) && Sized(c, v) && PortsOk(c, w) && Steps(c, w, Accept(i), v)
    ensures PortsOk(c, v)
  {
    hide Pending, Lines;
    var x := Item(i, w.memoryOut[i][0]);
    forall j | 0 <= j < c.banks ensures PortOk(v, j) {
      assert PortOk(w, j);
      PendingAppend(w.backend, x, j);
      if j == i {
        AcceptPort(w.backend, w.memoryOut[i], i);
      }
    }
  }

  lemma AcceptControl(c: Spec, w: Whole, i: nat, v: Whole)
    requires Sized(c, w) && Sized(c, v) && ControlOk(c, w) && Steps(c, w, Accept(i), v)
    ensures ControlOk(c, v)
  {
    if w.control == TicketSent {
      assert i == 0 && w.memoryOut[0] == [Ticket];
      assert v.backend[..|v.backend| - 1] == w.backend;
      assert OnlyFirst(c, v.memoryOut, []);
    } else {
      assert w.control != Replying;
      assert NoTicket(c, v);
    }
  }

  // --------------------------------------------------------------- the backend

  /** Another bank's line is not this bank's. */
  lemma OtherOwned(c: Spec, i: nat, j: nat, l: nat)
    requires c.Valid() && i < c.banks && j < c.banks && i != j && Owned(For(c, i), l)
    ensures !Owned(For(c, j), l)
  {
  }

  lemma ServiceBank(c: Spec, initial: Memory, w: Whole, xs: seq<Aux>, status: Status, v: Whole, j: nat)
    requires Sized(c, w) && Sized(c, v) && |xs| == c.banks && Services(c, w, status, v) && j < c.banks
    requires BanksOk(c, initial, w.banks, xs) && PortsOk(c, w)
    requires w.backend[0].packet.LinePacket? && (w.backend[0].packet.request.ReadLine? || status.Ok?)
    ensures FullInv(For(c, j), initial, v.banks[j], xs[j])
  {
    var i, r := w.backend[0].bank, w.backend[0].packet.request;
    PendingHead(w.backend, i);
    assert PortOk(w, i);
    assert w.banks[i].port[0] == r;
    if j == i {
      ServeKeeps(For(c, i), initial, w.banks[i], xs[i], status);
    } else {
      assert FullInv(For(c, i), initial, w.banks[i], xs[i]) && FullInv(For(c, j), initial, w.banks[j], xs[j]);
      HeadOwned(For(c, i), initial, w.banks[i], xs[i]);
      OtherOwned(c, i, j, r.line);
      assert v.banks[j] == w.banks[j].(backing := v.backing);
      if r.WriteLine? {
        ElsewhereKeeps(For(c, j), initial, w.banks[j], xs[j], r.line, r.data);
      }
    }
  }

  lemma ServicePorts(c: Spec, w: Whole, status: Status, v: Whole)
    requires Sized(c, w) && Sized(c, v) && Services(c, w, status, v) && PortsOk(c, w)
    requires w.backend[0].packet.LinePacket? && (w.backend[0].packet.request.ReadLine? || status.Ok?)
    ensures PortsOk(c, v)
  {
    hide Lines, Pending, Owned;
    var i := w.backend[0].bank;
    PendingHead(w.backend, i);
    assert PortOk(w, i);
    forall j | 0 <= j < c.banks ensures v.banks[j].backing == v.backing && PortOk(v, j) {
      PendingHead(w.backend, j);
      assert PortOk(w, j);
    }
  }

  lemma HeadOwned(c: Spec, initial: Memory, s: Sys, x: Aux)
    requires c.Valid() && Contents(c, initial, s, x) && s.port != []
    ensures Owned(c, s.port[0].line)
  {
    assert InFlight(s)[0] == s.port[0];
  }

  lemma ServiceTicket(c: Spec, initial: Memory, w: Whole, xs: seq<Aux>, status: Status, v: Whole)
    requires Sized(c, w) && Sized(c, v) && Good(c, initial, w, xs) && Services(c, w, status, v)
    requires w.backend[0].packet.Ticket?
    ensures Good(c, initial, v, xs)
  {
    assert w.control == TicketSent;
    assert |w.backend| == 1;
    forall j | 0 <= j < c.banks ensures PortOk(v, j) {
      assert PortOk(w, j);
      PendingHead(w.backend, j);
    }
  }

  lemma ServiceKeeps(c: Spec, initial: Memory, w: Whole, xs: seq<Aux>, status: Status, v: Whole)
    requires Sized(c, w) && Sized(c, v) && Good(c, initial, w, xs) && Services(c, w, status, v)
    ensures Good(c, initial, v, xs) || Bad(v)
  {
    if w.backend[0].packet.Ticket? {
      ServiceTicket(c, initial, w, xs, status, v);
    } else if w.backend[0].packet.request.ReadLine? || status.Ok? {
      forall j | 0 <= j < c.banks ensures FullInv(For(c, j), initial, v.banks[j], xs[j]) {
        ServiceBank(c, initial, w, xs, status, v, j);
      }
      ServicePorts(c, w, status, v);
      ServiceControl(c, w, status, v);
    }
  }

  lemma ServiceControl(c: Spec, w: Whole, status: Status, v: Whole)
    requires Sized(c, w) && Sized(c, v) && ControlOk(c, w) && Services(c, w, status, v)
    requires w.backend[0].packet.LinePacket? && (w.backend[0].packet.request.ReadLine? || status.Ok?)
    ensures ControlOk(c, v)
  {
    assert forall j | 0 <= j < c.banks :: v.banks[j].bank == w.banks[j].bank;
    if w.control == TicketSent && w.backend[|w.backend| - 1].packet.Ticket? {
      assert v.backend[..|v.backend| - 1] == w.backend[..|w.backend| - 1][1..];
    }
  }

  // ------------------------------------------------------------------ the edge

  lemma ClockReady(c: Spec, initial: Memory, s: Sys, x: Aux, i: Input, which: nat, t: Sys)
    requires c.Valid() && FullInv(c, initial, s, x) && Next(c, s, Clock(i, which), t)
    ensures Ready(c, initial, s, x, i, which)
    ensures Runnable(c, s.bank) && InputOk(c, s.bank, i) && EventsOk(s.bank.mshr, EventsOf(c, s.bank, i)) && t == SysEdge(c, s, i, which)
  {
    hide Runnable, EventsOk, EventsOf, SysEdge, Structure, Contents, Boot, FlushInv, FreeOk;
  }

  lemma RestedKeeps(c: Spec, initial: Memory, s: Sys, x: Aux, i: Input, which: nat, t: Sys)
    requires c.Valid() && FullInv(c, initial, s, x) && Next(c, s, Clock(i, which), t)
    requires Rested(c, s.bank) && i.request.None? && !i.flushBegin
    ensures Rested(c, t.bank) && (Empty(s.bank) ==> Empty(t.bank))
  {
    hide Runnable, InputOk, EventsOk, EventsOf, SysEdge, FullInv, Next, Ready, Departed;
    ClockReady(c, initial, s, x, i, which, t);
    ClearedKeeps(c, initial, s, x, i, which);
    assert s.bank.reserved == 0;
    Quiet(c, initial, s, x, i, which);
    EdgeFlush(c, s, i, which);
    assert t.bank.flushing == FlushIdle by { IdleFlush(c, s.bank, i, Choose(c, s.bank, i), t.bank.initNext); }
    if Empty(s.bank) {
      assert Choose(c, s.bank, i).None? by { NothingChosen(c, s, i); }
      EmptyStays(c, s, i, which);
    }
  }

  /** A bank at rest with its scan over and nothing offered chooses nothing. */
  lemma NothingChosen(c: Spec, s: Sys, i: Input)
    requires c.Valid() && Runnable(c, s.bank) && InputOk(c, s.bank, i) && s.bank.flushing == FlushIdle && s.bank.initNext == c.sets
    requires s.bank.mshr.head.None? && i.fill.None? && i.request.None?
    ensures Choose(c, s.bank, i).None?
  {
  }

  lemma IdleFlush(c: Spec, b: Bank, i: Input, chosen: Option<Op>, initNext: nat)
    requires b.flushing == FlushIdle
    ensures !i.flushBegin ==> NextFlush(c, b, i, chosen, initNext).0 == FlushIdle
    ensures i.flushBegin ==> NextFlush(c, b, i, chosen, initNext).0 != FlushIdle
  {
  }

  lemma EmptyStays(c: Spec, s: Sys, i: Input, which: nat)
    requires c.Valid() && Runnable(c, s.bank) && InputOk(c, s.bank, i) && EventsOk(s.bank.mshr, EventsOf(c, s.bank, i))
    requires Empty(s.bank) && Choose(c, s.bank, i).None? && !EventsOf(c, s.bank, i).dequeue
    ensures Empty(SysEdge(c, s, i, which).bank)
  {
    hide EventsOk, EventsOf, SysEdge, Departed, Choose, Handed, ExecuteOk, ExecuteStage, NextFlush;
    assert !Stalled(c, s.bank);
    MovedFields(c, s, i, which);
    EdgeShape(c, s, i, which);
    DepartedEmpty(c, s, i);
    DepartedFits(c, s, i);
    var t := Turned(c, s, i);
    ExecutedQueues(c, Departed(c, s, i), Handed(s.bank.mshr, EventsOf(c, s.bank, i)));
    LoadedQueues(t, None, which);
    SettledQueues(c, s.bank, SysLoad(t, None, which), i, None);
  }

  lemma DepartedEmpty(c: Spec, s: Sys, i: Input)
    requires c.Valid() && Runnable(c, s.bank) && InputOk(c, s.bank, i) && EventsOk(s.bank.mshr, EventsOf(c, s.bank, i))
    requires Empty(s.bank) && !Stalled(c, s.bank) && !EventsOf(c, s.bank, i).dequeue
    ensures Departed(c, s, i).bank.memory == []
  {
    hide Runnable, EventsOk, EventsOf;
  }

  /** A bank that is flushing stays so until it reports, and rests afterwards. */
  lemma BusyKeeps(c: Spec, initial: Memory, s: Sys, x: Aux, i: Input, which: nat, t: Sys)
    requires c.Valid() && FullInv(c, initial, s, x) && Next(c, s, Clock(i, which), t)
    requires s.bank.flushing != FlushIdle && !i.flushBegin
    ensures if s.bank.flushing == FlushDone then Rested(c, t.bank) else t.bank.flushing != FlushIdle
  {
    hide Runnable, InputOk, EventsOk, EventsOf, SysEdge, FullInv, Next, Ready, Choose, Stalled, Cleared;
    ClockReady(c, initial, s, x, i, which, t);
    if s.bank.flushing == FlushDone {
      assert Shaped(c, s.bank.store) && Cleared(c, s.bank) by { DoneCleared(c, initial, s, x); }
      ClearedKeeps(c, initial, s, x, i, which);
    }
    EdgeFlush(c, s, i, which);
  }

  lemma DoneCleared(c: Spec, initial: Memory, s: Sys, x: Aux)
    requires c.Valid() && FullInv(c, initial, s, x) && s.bank.flushing == FlushDone
    ensures Shaped(c, s.bank.store) && Cleared(c, s.bank)
  {
    hide Cleared;
  }

  lemma IdleMoves(c: Spec, s: Sys, i: Input, which: nat, t: Sys)
    requires c.Valid() && Next(c, s, Clock(i, which), t) && s.bank.flushing == FlushIdle
    ensures t.bank.flushing == FlushIdle <==> !i.flushBegin
  {
    hide EventsOk, EventsOf, SysEdge, Choose, Stalled, NextFlush, Offered;
    EdgeFlush(c, s, i, which);
    IdleFlush(c, s.bank, i, Choose(c, s.bank, i), t.bank.initNext);
  }

  lemma EdgePort(c: Spec, s: Sys, i: Input, which: nat, t: Sys)
    requires c.Valid() && Next(c, s, Clock(i, which), t)
    ensures t.port == s.port + Lines(Leaving(s, i)) && t.backing == s.backing
  {
    hide EventsOk, EventsOf, SysEdge, Choose, Stalled, Offered, Departed, Handed, LoadStage, SettleStage, ExecuteStage, Performs;
    EdgeShape(c, s, i, which);
    if !Stalled(c, s.bank) {
      DepartedPort(c, s, i);
    }
    if Leaving(s, i) != [] {
      LinesAppend([], Leaving(s, i)[0]);
      assert [] + [Leaving(s, i)[0]] == Leaving(s, i);
    }
  }

  lemma DepartedPort(c: Spec, s: Sys, i: Input)
    requires c.Valid() && Runnable(c, s.bank) && InputOk(c, s.bank, i) && EventsOk(s.bank.mshr, EventsOf(c, s.bank, i))
    requires !Stalled(c, s.bank)
    ensures Departed(c, s, i).port == SysPop(s, i).port && Departed(c, s, i).backing == s.backing
  {
    hide EventsOk, Pop, CommitStage, ReleaseStage, Answer, CompletedBy, AnsweredBy;
  }

  lemma TickLines(memory: seq<Packet>, more: seq<Packet>, sent: bool)
    requires |more| <= 1
    ensures Lines(memory + more + (if sent then [Ticket] else [])) == Lines(memory) + Lines(more)
  {
    if more == [] {
      assert memory + more == memory && Lines(memory) + [] == Lines(memory);
    } else {
      assert more == [] + [more[0]];
      LinesAppend([], more[0]);
      LinesAppend(memory, more[0]);
    }
    assert Lines(memory + more) == Lines(memory) + Lines(more);
    LinesAppend(memory + more, Ticket);
    assert memory + more + [] == memory + more;
    assert Lines(memory + more) + [] == Lines(memory + more);
  }

  lemma TickPort(c: Spec, w: Whole, y: Cycle, v: Whole, i: nat)
    requires Sized(c, w) && Ticks(c, w, y, v) && i < c.banks && w.banks[i].backing == w.backing && PortOk(w, i)
    ensures v.banks[i].backing == v.backing && PortOk(v, i)
  {
    hide Next, Flags, NextControl, SendsTicket, Pending, Lines, Leaving;
    assert Next(For(c, i), w.banks[i], Clock(y.inputs[i], y.which[i]), v.banks[i]);
    EdgePort(For(c, i), w.banks[i], y.inputs[i], y.which[i], v.banks[i]);
    var more := Leaving(w.banks[i], y.inputs[i]);
    LeavesOne(w.banks[i], y.inputs[i]);
    TickLines(w.memory[i], more, i == 0 && SendsTicket(c, w, y));
    var before := Pending(w.backend, i) + Lines(w.memoryOut[i]);
    assert before + Lines(w.memory[i]) + Lines(more) == before + (Lines(w.memory[i]) + Lines(more));
  }

  lemma LeavesOne(s: Sys, i: Input)
    ensures |Leaving(s, i)| <= 1
  {
  }

  lemma TickPorts(c: Spec, w: Whole, y: Cycle, v: Whole)
    requires Sized(c, w) && Ticks(c, w, y, v) && PortsOk(c, w)
    ensures PortsOk(c, v)
  {
    hide Ticks, PortOk;
    assert Sized(c, v) by { TickSized(c, w, y, v); }
    forall i | 0 <= i < c.banks ensures v.banks[i].backing == v.backing && PortOk(v, i) {
      TickPort(c, w, y, v, i);
    }
  }

  lemma TickSized(c: Spec, w: Whole, y: Cycle, v: Whole)
    requires Sized(c, w) && Ticks(c, w, y, v)
    ensures Sized(c, v)
  {
    hide Next, Flags, NextControl;
  }

  lemma TickBanks(c: Spec, initial: Memory, w: Whole, xs: seq<Aux>, y: Cycle, v: Whole, n: nat) returns (ys: seq<Aux>)
    requires Sized(c, w) && Ticks(c, w, y, v) && |xs| == c.banks && BanksOk(c, initial, w.banks, xs) && n <= c.banks
    ensures |ys| == n && forall i | 0 <= i < n :: FullInv(For(c, i), initial, v.banks[i], ys[i])
  {
    hide FullInv, Next;
    if n == 0 {
      ys := [];
    } else {
      var before := TickBanks(c, initial, w, xs, y, v, n - 1);
      var i := n - 1;
      assert Next(For(c, i), w.banks[i], Clock(y.inputs[i], y.which[i]), v.banks[i]);
      assert FullInv(For(c, i), initial, w.banks[i], xs[i]);
      var last := NextKeeps(For(c, i), initial, w.banks[i], xs[i], Clock(y.inputs[i], y.which[i]), v.banks[i]);
      ys := before + [last];
    }
  }

  lemma TickRested(c: Spec, initial: Memory, w: Whole, xs: seq<Aux>, y: Cycle, v: Whole, i: nat)
    requires Sized(c, w) && Ticks(c, w, y, v) && |xs| == c.banks && BanksOk(c, initial, w.banks, xs) && i < c.banks
    requires w.control != Idle && w.control != Pulse && Rested(For(c, i), w.banks[i].bank)
    ensures Rested(For(c, i), v.banks[i].bank) && (Empty(w.banks[i].bank) ==> Empty(v.banks[i].bank))
  {
    hide Next, FullInv, NextControl, Flags;
    assert Next(For(c, i), w.banks[i], Clock(y.inputs[i], y.which[i]), v.banks[i]);
    RestedKeeps(For(c, i), initial, w.banks[i], xs[i], y.inputs[i], y.which[i], v.banks[i]);
  }

  lemma TickBusy(c: Spec, initial: Memory, w: Whole, xs: seq<Aux>, y: Cycle, v: Whole, i: nat)
    requires Sized(c, w) && Ticks(c, w, y, v) && |xs| == c.banks && BanksOk(c, initial, w.banks, xs) && i < c.banks
    requires w.control != Pulse && w.banks[i].bank.flushing != FlushIdle
    ensures if w.banks[i].bank.flushing == FlushDone then Rested(For(c, i), v.banks[i].bank)
            else v.banks[i].bank.flushing != FlushIdle
  {
    hide Next, FullInv, NextControl, Flags;
    assert Next(For(c, i), w.banks[i], Clock(y.inputs[i], y.which[i]), v.banks[i]);
    BusyKeeps(For(c, i), initial, w.banks[i], xs[i], y.inputs[i], y.which[i], v.banks[i]);
  }

  lemma TickNoTicket(c: Spec, w: Whole, y: Cycle, v: Whole)
    requires Sized(c, w) && Ticks(c, w, y, v) && NoTicket(c, w) && !SendsTicket(c, w, y)
    ensures NoTicket(c, v)
  {
    hide Next, NextControl, Flags;
  }

  /** Before the banks flush: the pulse, and only the pulse, starts every bank. */
  lemma TickStarts(c: Spec, w: Whole, y: Cycle, v: Whole)
    requires Sized(c, w) && Ticks(c, w, y, v) && ControlOk(c, w) && (w.control == Idle || w.control == Pulse)
    ensures ControlOk(c, v)
  {
    hide Next, NoTicket, Rested;
    TickNoTicket(c, w, y, v);
    forall i | 0 <= i < c.banks
      ensures v.banks[i].bank.flushing == FlushIdle <==> w.control == Idle
    {
      assert Next(For(c, i), w.banks[i], Clock(y.inputs[i], y.which[i]), v.banks[i]);
      IdleMoves(For(c, i), w.banks[i], y.inputs[i], y.which[i], v.banks[i]);
    }
  }

  lemma TickFlushes(c: Spec, initial: Memory, w: Whole, xs: seq<Aux>, y: Cycle, v: Whole)
    requires Sized(c, w) && Ticks(c, w, y, v) && |xs| == c.banks && BanksOk(c, initial, w.banks, xs)
    requires ControlOk(c, w) && w.control == Banks
    ensures ControlOk(c, v)
  {
    hide Next, NoTicket, Rested, FullInv;
    TickNoTicket(c, w, y, v);
    forall i | 0 <= i < c.banks
      ensures if v.flushDone[i] then Rested(For(c, i), v.banks[i].bank) else v.banks[i].bank.flushing != FlushIdle
    {
      if w.flushDone[i] {
        TickRested(c, initial, w, xs, y, v, i);
      } else {
        TickBusy(c, initial, w, xs, y, v, i);
      }
    }
  }

  /** A bank with nothing to send leaves its queue alone. */
  lemma TickQuiet(c: Spec, w: Whole, y: Cycle, v: Whole)
    requires Sized(c, w) && Ticks(c, w, y, v) && AllEmpty(c, w)
    ensures forall i | 0 <= i < c.banks :: v.memory[i] == if i == 0 && SendsTicket(c, w, y) then w.memory[i] + [Ticket] else w.memory[i]
  {
    hide Next, NextControl, Flags;
  }

  lemma TickEnds(c: Spec, initial: Memory, w: Whole, xs: seq<Aux>, y: Cycle, v: Whole)
    requires Sized(c, w) && Ticks(c, w, y, v) && |xs| == c.banks && BanksOk(c, initial, w.banks, xs)
    requires ControlOk(c, w) && (w.control == Tail || w.control == TicketSent || w.control == Replying)
    ensures ControlOk(c, v)
  {
    hide FullInv, Next, Cleared;
    forall i | 0 <= i < c.banks
      ensures Rested(For(c, i), v.banks[i].bank) && (Empty(w.banks[i].bank) ==> Empty(v.banks[i].bank))
    {
      TickRested(c, initial, w, xs, y, v, i);
    }
    if w.control == Tail && !SendsTicket(c, w, y) {
      TickNoTicket(c, w, y, v);
    } else {
      TickQuiet(c, w, y, v);
      assert w.control == Tail ==> OnlyFirst(c, v.memory, [Ticket]) && OnlyFirst(c, v.memoryOut, []);
      assert w.control != Tail ==> forall i | 0 <= i < c.banks :: v.memory[i] == w.memory[i];
      assert w.control != Tail ==> v.memory == w.memory;
    }
  }

  lemma TickKeeps(c: Spec, initial: Memory, w: Whole, xs: seq<Aux>, y: Cycle, v: Whole) returns (ys: seq<Aux>)
    requires Sized(c, w) && Good(c, initial, w, xs) && Ticks(c, w, y, v)
    ensures Good(c, initial, v, ys)
  {
    ys := TickBanks(c, initial, w, xs, y, v, c.banks);
    TickPorts(c, w, y, v);
    if w.control == Idle || w.control == Pulse {
      TickStarts(c, w, y, v);
    } else if w.control == Banks {
      TickFlushes(c, initial, w, xs, y, v);
    } else {
      TickEnds(c, initial, w, xs, y, v);
    }
  }

  // ----------------------------------------------------------------- all runs

  lemma BadStays(c: Spec, w: Whole, a: Step, v: Whole)
    requires Sized(c, w) && Bad(w) && Steps(c, w, a, v)
    ensures Bad(v)
  {
  }

  lemma StepKeeps(c: Spec, initial: Memory, w: Whole, xs: seq<Aux>, a: Step, v: Whole) returns (ys: seq<Aux>)
    requires Sized(c, w) && Sized(c, v) && (Good(c, initial, w, xs) || Bad(w)) && Steps(c, w, a, v)
    ensures Good(c, initial, v, ys) || Bad(v)
  {
    ys := xs;
    if Bad(w) {
      BadStays(c, w, a, v);
    } else {
      match a
      case Tick(y) => ys := TickKeeps(c, initial, w, xs, y, v);
      case Forward(i) => ForwardKeeps(c, initial, w, xs, i, v);
      case Accept(i) => AcceptKeeps(c, initial, w, xs, i, v);
      case Service(status) => ServiceKeeps(c, initial, w, xs, status, v);
      case Reply => ReplyKeeps(c, initial, w, xs, v);
    }
  }

  lemma ReplyKeeps(c: Spec, initial: Memory, w: Whole, xs: seq<Aux>, v: Whole)
    requires Sized(c, w) && Sized(c, v) && Good(c, initial, w, xs) && Steps(c, w, Reply, v)
    ensures Good(c, initial, v, xs)
  {
    hide Answer, BanksOk, Choose, CommitOk, CommitStage, Empty, EventsOf, EventsOk, ExecuteOk, ExecuteStage, For, Handed,
         HeadOk, InputOk, Lines, LoadStage, Pending, Pop, ReleaseStage, Rested, Runnable, Services, SettleStage, Stalled,
         Ticks;
    forall i | 0 <= i < c.banks ensures PortOk(v, i) {
      assert PortOk(w, i);
    }
  }

  lemma InitGood(c: Spec, initial: Memory)
    requires c.Valid() && c.writeback
    ensures Good(c, initial, InitWhole(c, initial), seq(c.banks, _ => NO_AUX))
  {
    hide FullInv;
    var w := InitWhole(c, initial);
    forall i | 0 <= i < c.banks ensures FullInv(For(c, i), initial, w.banks[i], NO_AUX) && PortOk(w, i) {
      InitHolds(For(c, i), initial);
    }
  }

  lemma {:induction false} GoodAt(c: Spec, initial: Memory, run: seq<Whole>, steps: seq<Step>, k: nat) returns (xs: seq<Aux>)
    requires c.Valid() && c.writeback && IsWholeRun(c, initial, run, steps) && k < |run|
    ensures Sized(c, run[k]) && (Good(c, initial, run[k], xs) || Bad(run[k]))
  {
    if k == 0 {
      InitGood(c, initial);
      xs := seq(c.banks, _ => NO_AUX);
    } else {
      var before := GoodAt(c, initial, run, steps, k - 1);
      assert Sized(c, run[k - 1]) && Sized(c, run[k]);
      assert Steps(c, run[k - 1], steps[k - 1], run[k]);
      xs := StepKeeps(c, initial, run[k - 1], before, steps[k - 1], run[k]);
    }
  }

  lemma RestedBank(c: Spec, initial: Memory, s: Sys, x: Aux)
    requires c.Valid() && FullInv(c, initial, s, x) && Rested(c, s.bank) && Empty(s.bank) && s.port == []
    ensures forall t, w | 0 <= t < c.sets && 0 <= w < c.ways :: !s.bank.store.lines[t][w].valid && !s.bank.store.lines[t][w].dirty
    ensures forall l | Owned(c, l) :: Get(s.backing, l) == Stored(c, initial, s.log, l)
    ensures s.issued.Keys == set d | d in s.done :: d.id
  {
    ClearedView(c, s.bank, x.view);
    EmptyView(c, s.bank.store, x.view);
    forall t, w | 0 <= t < c.sets && 0 <= w < c.ways ensures !s.bank.store.lines[t][w].dirty {
      assert Shown(c, s.bank.store, x.view, t, w);
    }
    assert InFlight(s) == [];
    AllDone(s, x.places);
  }

  /** With nothing in the pipeline or the miss registers, every accepted request has been answered. */
  lemma AllDone(s: Sys, places: map<nat, Place>)
    requires Ledger(s, places, Unset) && Empty(s.bank) && Occupancy(s.bank.mshr.entries) == 0
    ensures s.issued.Keys == set d | d in s.done :: d.id
  {
    NoneLive(s.bank.mshr.entries);
    var ids := set d | d in s.done :: d.id;
    forall id | id in s.issued ensures id in ids {
      assert At(s, Unset, places[id], id);
      assert places[id].Finished?;
      assert s.done[places[id].index] in s.done;
    }
    forall id | id in ids ensures id in s.issued.Keys {
      var d :| 0 <= d < |s.done| && s.done[d].id == id;
      assert Answers(s, s.done[d]);
    }
  }
}
