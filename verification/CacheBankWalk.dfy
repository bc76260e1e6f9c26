/**
 The flush walk over whole runs of one bank: which slots are flushed between the pulse that
 begins a flush and the edge that reports it done (timing/memsys/cache_bank.go).
 */
module CacheBankWalk {
  import opened CacheTypes
  import opened CacheGeometry
  import opened CacheArrays
  import opened CacheMissRegisters
  import opened CacheMemorySide
  import opened CacheBanks
  import opened CacheBankSystem
  import opened CacheBankEdge
  import opened CacheBankFlush
  import opened CacheBankRuns
  import CacheBankTheorems

  /** The slot the n-th step of a walk names. */
  function WalkSlot(c: Spec, n: nat): (nat, nat)
    requires c.Valid()
  {
    (n % c.sets, n / c.sets)
  }

  function WalkSlots(c: Spec, n: nat): seq<(nat, nat)>
    requires c.Valid()
  {
    seq(n, k requires 0 <= k < n => WalkSlot(c, k))
  }

  /** The slot an action sends into the pipeline to be flushed. */
  function Flushed(c: Spec, s: Sys, a: Action): seq<(nat, nat)>
    requires c.Valid()
  {
    if a.Clock? && Runnable(c, s.bank) && InputOk(c, s.bank, a.i) && Choose(c, s.bank, a.i).Some?
       && Choose(c, s.bank, a.i).value.FlushOp? then
      [(Choose(c, s.bank, a.i).value.set_, Choose(c, s.bank, a.i).value.way)]
    else []
  }

  /** Everything sent to be flushed by the actions from one state up to another. */
  function FlushedIn(c: Spec, run: seq<Sys>, acts: seq<Action>, first: nat, end: nat): seq<(nat, nat)>
    requires c.Valid() && |run| == |acts| + 1 && first <= end <= |acts|
    decreases end
  {
    if first == end then [] else FlushedIn(c, run, acts, first, end - 1) + Flushed(c, run[end - 1], acts[end - 1])
  }

  // ------------------------------------------------------------------------- one action

  /** What an edge does to the flush machine and the reset scan. */
  lemma EdgeFlush(c: Spec, s: Sys, i: Input, which: nat)
    requires c.Valid() && Runnable(c, s.bank) && InputOk(c, s.bank, i) && EventsOk(s.bank.mshr, EventsOf(c, s.bank, i))
    ensures var t, b, chosen := SysEdge(c, s, i, which).bank, s.bank, Choose(c, s.bank, i);
            && t.initNext == b.initNext + InitCount(chosen)
            && (t.flushing, t.flushIndex) == NextFlush(c, b, i, chosen, t.initNext)
            && (b.initNext < c.sets ==> chosen == (if Stalled(c, b) then None else Some(InitOp(b.initNext))))
            && (chosen.Some? && chosen.value.InitOp? ==> b.initNext < c.sets)
            && (chosen.Some? && chosen.value.FlushOp? ==> b.flushing == FlushWalk && (chosen.value.set_, chosen.value.way) == WalkSlot(c, b.flushIndex))
  {
    if Stalled(c, s.bank) {
      HeldFields(c, s, i, which);
    } else {
      MovedFields(c, s, i, which);
    }
  }

  /** Where a flush stands: how much of its walk has been sent, or that the scan will answer for it. */
  ghost predicate Standing(c: Spec, b: Bank, scanned: bool, sent: seq<(nat, nat)>)
    requires c.Valid()
  {
    if scanned then
      && b.initNext == c.sets
      && match b.flushing
         case FlushIdle => false
         case FlushWait => sent == []
         case FlushWalk => b.flushIndex < FlushCount(c) && sent == WalkSlots(c, b.flushIndex)
         case FlushDrain => sent == WalkSlots(c, FlushCount(c))
         case FlushDone => sent == WalkSlots(c, FlushCount(c))
    else
      sent == [] && ((b.flushing == FlushWait && b.initNext < c.sets) || b.flushing == FlushDone)
  }

  lemma WalkGrows(c: Spec, n: nat)
    requires c.Valid()
    ensures WalkSlots(c, n) + [WalkSlot(c, n)] == WalkSlots(c, n + 1)
  {
  }

  /** The pulse: the flush waits, or the last step of the scan answers for it. */
  lemma PulseStands(c: Spec, s: Sys, i: Input, which: nat)
    requires c.Valid() && Runnable(c, s.bank) && InputOk(c, s.bank, i) && EventsOk(s.bank.mshr, EventsOf(c, s.bank, i))
    requires i.flushBegin && s.bank.initNext <= c.sets
    ensures Standing(c, SysEdge(c, s, i, which).bank, s.bank.initNext == c.sets, Flushed(c, s, Clock(i, which)))
  {
    hide SysEdge, EventsOf, EventsOk, Runnable, Choose;
    EdgeFlush(c, s, i, which);
  }

  /** Until the flush is done, every edge keeps its standing. */
  lemma EdgeStands(c: Spec, s: Sys, i: Input, which: nat, scanned: bool, sent: seq<(nat, nat)>)
    requires c.Valid() && Runnable(c, s.bank) && InputOk(c, s.bank, i) && EventsOk(s.bank.mshr, EventsOf(c, s.bank, i))
    requires Standing(c, s.bank, scanned, sent) && s.bank.flushing != FlushDone
    requires s.bank.flushing == FlushWait && !scanned ==> !Empty(s.bank)
    ensures Standing(c, SysEdge(c, s, i, which).bank, scanned, sent + Flushed(c, s, Clock(i, which)))
  {
    hide SysEdge, EventsOf, EventsOk, Runnable, Choose, WalkSlot;
    EdgeFlush(c, s, i, which);
    var b := s.bank;
    WalkGrows(c, b.flushIndex);
    assert FlushCount(c) > 0;
    assert sent + [] == sent;
    assert WalkSlots(c, 0) == [];
  }

  // ------------------------------------------------------------------------------ runs

  lemma RunEdge(c: Spec, initial: Memory, run: seq<Sys>, acts: seq<Action>, k: nat)
    requires c.Valid() && IsRun(c, initial, run, acts) && k < |acts|
    ensures |run| == |acts| + 1
    ensures acts[k].Clock? ==>
              && Runnable(c, run[k].bank) && InputOk(c, run[k].bank, acts[k].i)
              && EventsOk(run[k].bank.mshr, EventsOf(c, run[k].bank, acts[k].i))
              && run[k + 1] == SysEdge(c, run[k], acts[k].i, acts[k].which) && acts[k] == Clock(acts[k].i, acts[k].which)
    ensures !acts[k].Clock? ==> run[k + 1].bank == run[k].bank
  {
    hide Runnable, EventsOk, SysEdge, Offered, InputOk, EventsOf;
    assert Next(c, run[k], acts[k], run[k + 1]);
  }

  lemma FlushBegins(c: Spec, initial: Memory, run: seq<Sys>, acts: seq<Action>, p: nat)
    requires c.Valid() && IsRun(c, initial, run, acts) && p < |acts| && acts[p].Clock? && acts[p].i.flushBegin
    ensures |run| == |acts| + 1
    ensures Standing(c, run[p + 1].bank, run[p].bank.initNext == c.sets, FlushedIn(c, run, acts, p, p + 1))
  {
    hide IsRun, Standing, Flushed, Runnable, EventsOk, SysEdge, InputOk, EventsOf;
    RunEdge(c, initial, run, acts, p);
    ScanBound(c, initial, run, acts, p);
    PulseStands(c, run[p], acts[p].i, acts[p].which);
    assert FlushedIn(c, run, acts, p, p) == [];
    assert FlushedIn(c, run, acts, p, p + 1) == [] + Flushed(c, run[p], acts[p]) == Flushed(c, run[p], acts[p]);
  }

  lemma FlushGoesOn(c: Spec, initial: Memory, run: seq<Sys>, acts: seq<Action>, m: nat, scanned: bool, sent: seq<(nat, nat)>)
    requires c.Valid() && IsRun(c, initial, run, acts) && m < |acts| && m < |run|
    requires Standing(c, run[m].bank, scanned, sent) && run[m].bank.flushing != FlushDone
    ensures |run| == |acts| + 1
    ensures Standing(c, run[m + 1].bank, scanned, sent + Flushed(c, run[m], acts[m]))
  {
    hide IsRun, Standing, Flushed, Runnable, EventsOk, SysEdge, InputOk, EventsOf;
    RunEdge(c, initial, run, acts, m);
    if acts[m].Clock? {
      WaitingBusy(c, initial, run, acts, m, scanned, sent);
      EdgeStands(c, run[m], acts[m].i, acts[m].which, scanned, sent);
    } else {
      QuietAction(c, run[m], acts[m]);
      assert sent + [] == sent;
    }
  }

  lemma {:induction false} FlushStands(c: Spec, initial: Memory, run: seq<Sys>, acts: seq<Action>, p: nat, q: nat)
    requires c.Valid() && IsRun(c, initial, run, acts) && p < q <= |acts| && |run| == |acts| + 1
    requires acts[p].Clock? && acts[p].i.flushBegin
    requires forall m | p < m < q :: run[m].bank.flushing != FlushDone
    ensures Standing(c, run[q].bank, run[p].bank.initNext == c.sets, FlushedIn(c, run, acts, p, q))
    decreases q
  {
    hide IsRun, Standing, Flushed;
    if q == p + 1 {
      FlushBegins(c, initial, run, acts, p);
    } else {
      FlushStands(c, initial, run, acts, p, q - 1);
      FlushGoesOn(c, initial, run, acts, q - 1, run[p].bank.initNext == c.sets, FlushedIn(c, run, acts, p, q - 1));
    }
  }

  lemma QuietAction(c: Spec, s: Sys, a: Action)
    requires c.Valid() && !a.Clock?
    ensures Flushed(c, s, a) == []
  {
  }

  lemma ScanBound(c: Spec, initial: Memory, run: seq<Sys>, acts: seq<Action>, k: nat)
    requires c.Valid() && IsRun(c, initial, run, acts) && k < |run|
    ensures run[k].bank.initNext <= c.sets
  {
    var x := InvariantAt(c, initial, run, acts, k);
  }

  /** While the scan runs under a waiting flush the pipeline is never empty. */
  lemma WaitingBusy(c: Spec, initial: Memory, run: seq<Sys>, acts: seq<Action>, k: nat, scanned: bool, sent: seq<(nat, nat)>)
    requires c.Valid() && IsRun(c, initial, run, acts) && k < |run| && Standing(c, run[k].bank, scanned, sent)
    ensures run[k].bank.flushing == FlushWait && !scanned ==> !Empty(run[k].bank)
  {
    var x := InvariantAt(c, initial, run, acts, k);
  }

  /**
   Between the pulse that begins a flush and the edge that reports it done, the slots sent
   to be flushed are every slot of the walk once and in order, exactly when the reset scan
   was over at the pulse. A flush that arrives during the scan is answered by the scan's
   last step, with no slot walked.
   */
  lemma WalksEachSlotOnce(c: Spec, initial: Memory, run: seq<Sys>, acts: seq<Action>, p: nat, q: nat)
    requires c.Valid() && IsRun(c, initial, run, acts) && |run| == |acts| + 1 && p < q <= |acts|
    requires acts[p].Clock? && acts[p].i.flushBegin
    requires run[q].bank.flushing == FlushDone && forall m | p < m < q :: run[m].bank.flushing != FlushDone
    ensures FlushedIn(c, run, acts, p, q) == WalkSlots(c, FlushCount(c)) <==> run[p].bank.initNext == c.sets
    ensures run[p].bank.initNext < c.sets ==> FlushedIn(c, run, acts, p, q) == []
  {
    hide IsRun, FlushedIn;
    FlushStands(c, initial, run, acts, p, q);
    ScanBound(c, initial, run, acts, p);
    assert |WalkSlots(c, FlushCount(c))| == FlushCount(c) > 0;
  }

  // ------------------------------------------------------------------ a flush during the scan

  /** Nothing offered but, on the first edge, a flush. */
  function ScanInput(k: nat): Input {
    Input(None, 0, true, true, None, k == 0)
  }

  function ScanActs(n: nat): seq<Action> {
    seq(n, k requires 0 <= k < n => Clock(ScanInput(k), 0))
  }

  /** Nothing stalls the scan, and an edge of it meets no error. */
  lemma ScanMoves(c: Spec, initial: Memory, run: seq<Sys>, acts: seq<Action>, k: nat, i: Input)
    requires c.Valid() && IsRun(c, initial, run, acts) && k < |run| && run[k].bank.initNext < c.sets && Offered(c, run[k], i, 0)
    ensures Runnable(c, run[k].bank) && InputOk(c, run[k].bank, i) && EventsOk(run[k].bank.mshr, EventsOf(c, run[k].bank, i))
    ensures !Stalled(c, run[k].bank) && (run[k].bank.initNext > 0 ==> !Empty(run[k].bank))
  {
    hide IsRun, EventsOf, EventsOk, Runnable, InputOk;
    var x := InvariantAt(c, initial, run, acts, k);
    assert !Stalled(c, run[k].bank) && (run[k].bank.s0.Some? ==> run[k].bank.s0.value.InitOp?) && (run[k].bank.initNext > 0 ==> !Empty(run[k].bank)) by {
      BootQuiet(c, initial, run[k], x);
    }
    CacheBankTheorems.NoInternalError(c, initial, run, acts, k, i, 0);
  }

  lemma BootQuiet(c: Spec, initial: Memory, s: Sys, x: Aux)
    requires c.Valid() && Inv(c, initial, s, x) && s.bank.initNext < c.sets
    ensures !Stalled(c, s.bank) && (s.bank.s0.Some? ==> s.bank.s0.value.InitOp?) && (s.bank.initNext > 0 ==> !Empty(s.bank))
  {
  }

  lemma ScanEdge(c: Spec, initial: Memory, run: seq<Sys>, acts: seq<Action>, k: nat) returns (t: Sys)
    requires c.Valid() && IsRun(c, initial, run, acts) && k < |run| && run[k].bank.initNext == k < c.sets
    requires run[k].bank.flushing == if k == 0 then FlushIdle else FlushWait
    ensures Next(c, run[k], Clock(ScanInput(k), 0), t) && t.bank.initNext == k + 1
    ensures t.bank.flushing == if k + 1 < c.sets then FlushWait else FlushDone
  {
    hide IsRun, EventsOf, EventsOk, Runnable, SysEdge, Stalled, Choose;
    ScanMoves(c, initial, run, acts, k, ScanInput(k));
    EdgeFlush(c, run[k], ScanInput(k), 0);
    t := SysEdge(c, run[k], ScanInput(k), 0);
  }

  /** The reset scan with a flush latched on its first edge, after n edges. */
  lemma {:induction false} ScanRun(c: Spec, initial: Memory, n: nat) returns (run: seq<Sys>)
    requires c.Valid() && n <= c.sets
    ensures IsRun(c, initial, run, ScanActs(n)) && |run| == n + 1
    ensures run[n].bank.initNext == n
    ensures run[n].bank.flushing == if n == 0 then FlushIdle else if n < c.sets then FlushWait else FlushDone
    ensures forall k | 0 <= k < n :: run[k].bank.flushing != FlushDone
    decreases n
  {
    hide Next, SysEdge;
    if n == 0 {
      run := [InitSys(c, initial)];
    } else {
      var before := ScanRun(c, initial, n - 1);
      var acts := ScanActs(n - 1);
      var t := ScanEdge(c, initial, before, acts, n - 1);
      run := before + [t];
      assert ScanActs(n) == acts + [Clock(ScanInput(n - 1), 0)];
      forall k | 0 <= k < n ensures Next(c, run[k], ScanActs(n)[k], run[k + 1]) {
        if k < n - 1 {
          assert Next(c, before[k], acts[k], before[k + 1]);
        }
      }
    }
  }

  /** So a flush can be reported done with no slot walked: on every configuration, a pulse on the first edge is. */
  lemma ScanAnswersFlush(c: Spec, initial: Memory) returns (run: seq<Sys>, acts: seq<Action>)
    requires c.Valid()
    ensures IsRun(c, initial, run, acts) && |run| == |acts| + 1 && |acts| > 0
    ensures acts[0].Clock? && acts[0].i.flushBegin && run[|acts|].bank.flushing == FlushDone
    ensures FlushedIn(c, run, acts, 0, |acts|) == []
  {
    hide IsRun;
    acts := ScanActs(c.sets);
    run := ScanRun(c, initial, c.sets);
    assert run[0].bank.initNext == 0 by { StartsUnscanned(c, initial, run, acts); }
    WalksEachSlotOnce(c, initial, run, acts, 0, c.sets);
  }

  lemma StartsUnscanned(c: Spec, initial: Memory, run: seq<Sys>, acts: seq<Action>)
    requires c.Valid() && IsRun(c, initial, run, acts)
    ensures run[0].bank.initNext == 0
  {
  }
}
