/**
 Delivery by parts against one whole commit: same warp state in every order, except
 that flags raised after a software write of the flags field stay raised.
 */
module EffectTheorems {
  import opened CacheTypes
  import opened WarpEffects
  import opened EffectDeliveries
  import Divergence

  // ------------------------------------------------------------------ flags and FCSR

  /** The write replaces the flags field. */
  predicate SetsFlags(x: CsrWrite) {
    IsOwned(x) && (x.address == 0x001 || x.address == 0x003)
  }

  /** No flag is raised that a software write of the flags field in the same bundle leaves clear. */
  predicate FlagsCommute(e: Effects) {
    e.flags.Some? ==> forall i | 0 <= i < |e.csrs| && SetsFlags(e.csrs[i]) :: e.flags.value & !Byte(e.csrs[i].value) == 0
  }

  lemma OneWriteCommutes(c: Csrs, x: CsrWrite, flags: bv8)
    requires flags & 0xe0 == 0 && (SetsFlags(x) ==> flags & !Byte(x.value) == 0) && IsOwned(x)
    ensures SetCsr(Raise(c, Some(flags)), x.address, x.value) == Raise(SetCsr(c, x.address, x.value), Some(flags))
  {
    hide Byte, SetFlags, SetMode, RaiseFlags;
    FieldFacts(c.fcsr, Byte(x.value), flags);
  }

  /** Raising flags against each way of setting the FCSR byte. */
  lemma FieldFacts(f: bv8, v: bv8, flags: bv8)
    requires flags & 0xe0 == 0
    ensures flags & !v == 0 <==> SetFlags(RaiseFlags(f, flags), v) == RaiseFlags(SetFlags(f, v), flags)
    ensures flags & !v == 0 <==> v == RaiseFlags(v, flags)
    ensures SetMode(RaiseFlags(f, flags), v) == RaiseFlags(SetMode(f, v), flags)
  {
  }

  lemma {:induction false} RaiseCommutes(c: Csrs, xs: seq<CsrWrite>, flags: bv8)
    requires flags & 0xe0 == 0 && forall i | 0 <= i < |xs| && SetsFlags(xs[i]) :: flags & !Byte(xs[i].value) == 0
    ensures SetAll(Raise(c, Some(flags)), xs) == Raise(SetAll(c, xs), Some(flags))
    decreases |xs|
  {
    hide SetCsr, Byte;
    if xs != [] {
      if IsOwned(xs[0]) {
        OneWriteCommutes(c, xs[0], flags);
        RaiseCommutes(SetCsr(c, xs[0].address, xs[0].value), xs[1..], flags);
      } else {
        RaiseCommutes(c, xs[1..], flags);
      }
    }
  }

  lemma {:induction false} FcsrKept(c: Csrs, xs: seq<CsrWrite>)
    requires forall i | 0 <= i < |xs| :: !IsFcsr(xs[i].address)
    ensures SetAll(c, xs).fcsr == c.fcsr
    decreases |xs|
  {
    if xs != [] {
      assert !IsFcsr(xs[0].address);
      FcsrKept(if IsOwned(xs[0]) then SetCsr(c, xs[0].address, xs[0].value) else c, xs[1..]);
    }
  }

  /** At most one write aliases the FCSR byte, so its own value stands. */
  lemma {:induction false} FcsrSet(c: Csrs, xs: seq<CsrWrite>, k: nat)
    requires k < |xs| && IsOwned(xs[k]) && IsFcsr(xs[k].address)
    requires forall i, j | 0 <= i < j < |xs| :: !(IsFcsr(xs[i].address) && IsFcsr(xs[j].address))
    ensures SetAll(c, xs).fcsr == SetCsr(c, xs[k].address, xs[k].value).fcsr
    decreases |xs|
  {
    hide Byte, SetFlags, SetMode, RaiseFlags;
    if k == 0 {
      forall i | 0 <= i < |xs[1..]| ensures !IsFcsr(xs[1..][i].address) {
        assert !(IsFcsr(xs[0].address) && IsFcsr(xs[i + 1].address));
      }
      FcsrKept(SetCsr(c, xs[0].address, xs[0].value), xs[1..]);
    } else {
      assert !IsFcsr(xs[0].address);
      var next := if IsOwned(xs[0]) then SetCsr(c, xs[0].address, xs[0].value) else c;
      FcsrSet(next, xs[1..], k - 1);
    }
  }

  /** Flags raised last differ from flags raised first exactly when they do not commute. */
  lemma RaiseLastDiffers(c: Csrs, e: Effects)
    requires FlagsOk(e.flags) && !FlagsCommute(e)
    requires forall i, j | 0 <= i < j < |e.csrs| :: !(IsFcsr(e.csrs[i].address) && IsFcsr(e.csrs[j].address))
    ensures Raise(SetAll(c, e.csrs), e.flags) != SetAll(Raise(c, e.flags), e.csrs)
  {
    hide Byte, SetFlags, SetMode, RaiseFlags;
    var k :| 0 <= k < |e.csrs| && SetsFlags(e.csrs[k]) && e.flags.value & !Byte(e.csrs[k].value) != 0;
    FcsrSet(c, e.csrs, k);
    FcsrSet(Raise(c, e.flags), e.csrs, k);
    FieldFacts(c.fcsr, Byte(e.csrs[k].value), e.flags.value);
  }

  // ---------------------------------------------------------------------- the invariant

  ghost predicate CsrsDone(d: Delivery) {
    if d.effects.trap.Some? then ControlEvent in d.delivered else CsrEvent in d.delivered
  }

  function CsrsSo(c: Csrs, e: Effects, flagged: bool, written: bool): Csrs {
    var raised := if flagged then Raise(c, e.flags) else c;
    if written then SetAll(raised, e.csrs) else raised
  }

  /** The warp is the first image with exactly the receipted parts applied. */
  ghost predicate AppliedSoFar(catalog: Catalog, first: Warp, d: Delivery, w: Warp)
    requires WarpShaped(first) && Stages(catalog, first, d.effects)
  {
    var e := d.effects;
    CutOk(e.writes, d.written);
    && w.id == first.id && WarpShaped(w)
    && Divergence.ValidMask(d.written) && d.written <= Expected(e.writes)
    && w.registers == Written(first.registers, Cut(e.writes, d.written))
    && w.flow == (if ControlEvent in d.delivered then FlowAfter(first.flow, e) else first.flow)
    && w.saved == (if ControlEvent in d.delivered then SavedAfter(first, e) else first.saved)
    && w.csrs == CsrsSo(first.csrs, e, FlagsEvent in d.delivered, CsrsDone(d))
    && (e.trap.Some? ==> CsrEvent !in d.delivered)
  }

  lemma {:induction false} CutNone(ws: seq<RegisterWrite>)
    ensures Cut(ws, {}) == []
    decreases |ws|
  {
    if ws != [] {
      assert ws[0].mask * {} == {};
      CutNone(ws[1..]);
    }
  }

  lemma Starts(catalog: Catalog, w: Warp, e: Effects)
    requires WarpShaped(w) && Stages(catalog, w, e)
    ensures AppliedSoFar(catalog, w, Fresh(e), w)
  {
    CutNone(e.writes);
  }

  lemma WritebackKeeps(catalog: Catalog, first: Warp, d: Delivery, w: Warp, s: Step)
    requires WarpShaped(first) && Stages(catalog, first, d.effects) && AppliedSoFar(catalog, first, d, w)
    requires Delivers(catalog, d, w, s) && s.event == Writeback
    ensures AppliedSoFar(catalog, first, Receipt(d, s.event, s.lanes), Made(catalog, d, w, s))
  {
    hide WritesOk, Written, Cut, Expected, FlowOk, CsrWritesOk, ReadsOk, FlowAfter, SavedAfter, SetAll, Stages;
    var e := d.effects;
    StagedWrites(catalog, w, Cut(e.writes, s.lanes));
    WholeWrites(catalog, first, e);
    CutsCompose(first.registers, e.writes, d.written, s.lanes);
    CutOk(e.writes, d.written + s.lanes);
    KeysKept(first.registers, Cut(e.writes, d.written + s.lanes));
  }

  lemma WholeWrites(catalog: Catalog, w: Warp, e: Effects)
    requires |w.flow.rows| == Divergence.DEPTH && Stages(catalog, w, e)
    ensures WritesOk(e.writes)
  {
  }

  /** A bundle of register writes alone changes the registers alone. */
  lemma StagedWrites(catalog: Catalog, w: Warp, ws: seq<RegisterWrite>)
    requires |w.flow.rows| == Divergence.DEPTH && Stages(catalog, w, NOTHING.(writes := ws))
    ensures WritesOk(ws) && Staged(catalog, w, NOTHING.(writes := ws)) == w.(registers := Written(w.registers, ws))
  {
    hide WritesOk, Written;
  }

  lemma StagedFlags(catalog: Catalog, w: Warp, flags: Option<bv8>)
    requires |w.flow.rows| == Divergence.DEPTH && Stages(catalog, w, NOTHING.(flags := flags))
    ensures FlagsOk(flags) && Staged(catalog, w, NOTHING.(flags := flags)) == w.(csrs := Raise(w.csrs, flags))
  {
  }

  lemma StagedCsrs(catalog: Catalog, w: Warp, rs: seq<CsrRead>, xs: seq<CsrWrite>)
    requires |w.flow.rows| == Divergence.DEPTH && Stages(catalog, w, NOTHING.(csrReads := rs, csrs := xs))
    ensures Staged(catalog, w, NOTHING.(csrReads := rs, csrs := xs)) == w.(csrs := SetAll(w.csrs, xs))
  {
    hide SetAll, CsrWritesOk, ReadsOk;
  }

  lemma StagedForward(catalog: Catalog, w: Warp, f: Forward)
    requires |w.flow.rows| == Divergence.DEPTH && Stages(catalog, w, NOTHING.(forward := f))
    ensures Staged(catalog, w, NOTHING.(forward := f)) == w
  {
    hide ForwardOk;
  }

  lemma FlagsKeep(catalog: Catalog, first: Warp, d: Delivery, w: Warp, s: Step)
    requires WarpShaped(first) && Stages(catalog, first, d.effects) && AppliedSoFar(catalog, first, d, w) && FlagsCommute(d.effects)
    requires Delivers(catalog, d, w, s) && s.event == FlagsEvent
    ensures AppliedSoFar(catalog, first, Receipt(d, s.event, s.lanes), Made(catalog, d, w, s))
  {
    hide WritesOk, Written, Cut, Expected, FlowOk, CsrWritesOk, ReadsOk, FlowAfter, SavedAfter, Stages, SetAll, Byte;
    var e := d.effects;
    StagedFlags(catalog, w, e.flags);
    if e.flags.Some? && CsrsDone(d) {
      RaiseCommutes(first.csrs, e.csrs, e.flags.value);
    }
  }

  lemma CsrsKeep(catalog: Catalog, first: Warp, d: Delivery, w: Warp, s: Step)
    requires WarpShaped(first) && Stages(catalog, first, d.effects) && AppliedSoFar(catalog, first, d, w)
    requires Delivers(catalog, d, w, s) && s.event == CsrEvent
    ensures AppliedSoFar(catalog, first, Receipt(d, s.event, s.lanes), Made(catalog, d, w, s))
  {
    hide WritesOk, Written, Cut, Expected, FlowOk, CsrWritesOk, ReadsOk, FlowAfter, SavedAfter, Stages, SetAll;
    StagedCsrs(catalog, w, d.effects.csrReads, d.effects.csrs);
  }

  lemma ForwardKeeps(catalog: Catalog, first: Warp, d: Delivery, w: Warp, s: Step)
    requires WarpShaped(first) && Stages(catalog, first, d.effects) && AppliedSoFar(catalog, first, d, w)
    requires Delivers(catalog, d, w, s) && (s.event == MemoryEvent || s.event == FaultEvent)
    ensures AppliedSoFar(catalog, first, Receipt(d, s.event, s.lanes), Made(catalog, d, w, s))
  {
    hide WritesOk, Written, Cut, Expected, FlowOk, CsrWritesOk, ReadsOk, FlowAfter, SavedAfter, Stages, SetAll;
    StagedForward(catalog, w, Part(d.effects, s.event, s.lanes).forward);
  }

  /** What control does to the flow depends on the flow and the control fields only. */
  lemma SameControl(w: Divergence.Warp, e: Effects, part: Effects)
    requires |w.rows| == Divergence.DEPTH && |e.masks| <= 1 && DivergenceOk(w, e)
    requires part.control == e.control && part.trap == e.trap && part.masks == e.masks && part.divergence == e.divergence
    ensures DivergenceOk(w, part) && FlowAfter(w, part) == FlowAfter(w, e)
  {
    hide Divergence.BundleOk, Divergence.Applied;
    if e.divergence.Some? {
      assert DivergenceView(part) == DivergenceView(e);
    }
  }

  lemma StagedControl(catalog: Catalog, w: Warp, e: Effects)
    requires |w.flow.rows| == Divergence.DEPTH && Stages(catalog, w, Part(e, ControlEvent, {}))
    ensures var part := Part(e, ControlEvent, {});
            Staged(catalog, w, part) ==
            Warp(w.id, FlowAfter(w.flow, part), SavedAfter(w, part), SetAll(w.csrs, part.csrs), w.registers)
  {
    hide FlowAfter, CsrWritesOk, ForwardOk;
  }

  lemma ControlKeeps(catalog: Catalog, first: Warp, d: Delivery, w: Warp, s: Step)
    requires WarpShaped(first) && Stages(catalog, first, d.effects) && AppliedSoFar(catalog, first, d, w)
    requires Delivers(catalog, d, w, s) && s.event == ControlEvent
    ensures AppliedSoFar(catalog, first, Receipt(d, s.event, s.lanes), Made(catalog, d, w, s))
  {
    hide WritesOk, Written, Cut, Expected, ControlOk, CsrWritesOk, ReadsOk, FlowAfter, SetAll, DivergenceOk, ForwardOk;
    var e := d.effects;
    var part := Part(e, s.event, s.lanes);
    SameControl(first.flow, e, part);
    StagedControl(catalog, w, e);
    assert e.trap.None? ==> SetAll(w.csrs, []) == w.csrs by { SetNone(w.csrs); }
  }

  lemma SetNone(c: Csrs)
    ensures SetAll(c, []) == c
  {
  }

  lemma DeliveryKeeps(catalog: Catalog, first: Warp, d: Delivery, w: Warp, s: Step)
    requires WarpShaped(first) && Stages(catalog, first, d.effects) && AppliedSoFar(catalog, first, d, w) && FlagsCommute(d.effects)
    requires Delivers(catalog, d, w, s)
    ensures AppliedSoFar(catalog, first, Receipt(d, s.event, s.lanes), Made(catalog, d, w, s))
  {
    hide AppliedSoFar, Delivers, Stages, Receipt, Made, FlagsCommute;
    match s.event {
      case Writeback => WritebackKeeps(catalog, first, d, w, s);
      case ControlEvent => ControlKeeps(catalog, first, d, w, s);
      case CsrEvent => CsrsKeep(catalog, first, d, w, s);
      case FlagsEvent => FlagsKeep(catalog, first, d, w, s);
      case MemoryEvent => ForwardKeeps(catalog, first, d, w, s);
      case FaultEvent => ForwardKeeps(catalog, first, d, w, s);
    }
  }

  lemma {:induction false} RunApplies(catalog: Catalog, first: Warp, d: Delivery, w: Warp, steps: seq<Step>)
    requires WarpShaped(first) && Stages(catalog, first, d.effects) && AppliedSoFar(catalog, first, d, w) && FlagsCommute(d.effects)
    requires Run(catalog, d, w, steps).Some?
    ensures Run(catalog, d, w, steps).value.0.effects == d.effects
    ensures AppliedSoFar(catalog, first, Run(catalog, d, w, steps).value.0, Run(catalog, d, w, steps).value.1)
    decreases |steps|
  {
    hide Stages, FlagsCommute, Delivers, Made;
    if steps != [] {
      DeliveryKeeps(catalog, first, d, w, steps[0]);
      RunApplies(catalog, first, Receipt(d, steps[0].event, steps[0].lanes), Made(catalog, d, w, steps[0]), steps[1..]);
    }
  }

  /** Receipts complete: the warp is the whole commit. */
  lemma CompleteIsWhole(catalog: Catalog, first: Warp, d: Delivery, w: Warp)
    requires WarpShaped(first) && Stages(catalog, first, d.effects) && AppliedSoFar(catalog, first, d, w) && Complete(d)
    ensures w == Staged(catalog, first, d.effects)
  {
    hide Written, Cut, Expected, CsrWritesOk, ReadsOk, ControlOk, SetCsr, DivergenceOk, ForwardOk, WriteOk;
    var e := d.effects;
    CutAll(e.writes, d.written, first.registers);
    if !HasControl(e) {
      assert FlowAfter(first.flow, e) == first.flow;
    }
  }

  /**
   Delivering a bundle by events, register writes cut into any disjoint lane subsets, in
   any order: whenever every delivery is accepted and nothing is left out, the warp ends
   exactly as after one whole commit.
   */
  lemma PartsMakeWhole(catalog: Catalog, w: Warp, e: Effects, steps: seq<Step>)
    requires WarpShaped(w) && Stages(catalog, w, e) && FlagsCommute(e)
    requires Run(catalog, Fresh(e), w, steps).Some? && Complete(Run(catalog, Fresh(e), w, steps).value.0)
    ensures Run(catalog, Fresh(e), w, steps).value.1 == Staged(catalog, w, e)
  {
    hide AppliedSoFar, Run, Complete, Staged, Stages;
    Starts(catalog, w, e);
    RunApplies(catalog, w, Fresh(e), w, steps);
    CompleteIsWhole(catalog, w, Run(catalog, Fresh(e), w, steps).value.0, Run(catalog, Fresh(e), w, steps).value.1);
  }

  // ------------------------------------------------------------- the condition is needed

  /** If this order of deliveries is accepted and complete, it ends in the whole commit. */
  ghost predicate EndsWhole(catalog: Catalog, w: Warp, e: Effects, steps: seq<Step>)
    requires |w.flow.rows| == Divergence.DEPTH && Stages(catalog, w, e)
  {
    var r := Run(catalog, Fresh(e), w, steps);
    r.Some? && Complete(r.value.0) ==> r.value.1 == Staged(catalog, w, e)
  }

  function Asked(part: Effects): Option<bool> {
    if NeedsExternal(part) then Some(true) else None
  }

  /** Registers first, then the CSR writes, then the flags, then control. */
  function FlagsLast(e: Effects): seq<Step> {
    (if Expected(e.writes) == {} then [] else [Step(Writeback, Expected(e.writes), None)]) +
    [Step(CsrEvent, {}, Asked(Part(e, CsrEvent, {}))), Step(FlagsEvent, {}, None),
     Step(ControlEvent, {}, Asked(Part(e, ControlEvent, {})))]
  }

  lemma ExpectedValid(ws: seq<RegisterWrite>)
    requires forall i | 0 <= i < |ws| :: WriteOk(ws[i])
    ensures Divergence.ValidMask(Expected(ws))
    decreases |ws|
  {
    if ws != [] { ExpectedValid(ws[1..]); }
  }

  lemma WritebackGoes(catalog: Catalog, w: Warp, e: Effects)
    requires WarpShaped(w) && Stages(catalog, w, e) && Expected(e.writes) != {}
    ensures var s := Step(Writeback, Expected(e.writes), None);
            && Delivers(catalog, Fresh(e), w, s)
            && Made(catalog, Fresh(e), w, s) == w.(registers := Written(w.registers, e.writes))
            && Receipt(Fresh(e), s.event, s.lanes) == Delivery(e, {Writeback}, Expected(e.writes), false)
  {
    hide Written, Cut, Expected, FlowOk, CsrWritesOk, WriteOk;
    var part := Part(e, Writeback, Expected(e.writes));
    CutAll(e.writes, Expected(e.writes), w.registers);
    ExpectedValid(e.writes);
    assert FlowOk(w, part) && CsrWritesOk(catalog, w.csrs, part.csrs) by { QuietFlow(catalog, w, part); }
    StagedWrites(catalog, w, Cut(e.writes, Expected(e.writes)));
  }

  lemma QuietFlow(catalog: Catalog, w: Warp, part: Effects)
    requires |w.flow.rows| == Divergence.DEPTH && !HasControl(part)
    ensures FlowOk(w, part) && CsrWritesOk(catalog, w.csrs, [])
  {
  }

  lemma CsrsGo(catalog: Catalog, w: Warp, e: Effects, d: Delivery, now: Warp)
    requires WarpShaped(w) && Stages(catalog, w, e) && e.trap.None?
    requires d.effects == e && !d.cancelled && CsrEvent !in d.delivered && now == w.(registers := now.registers)
    ensures var s := Step(CsrEvent, {}, Asked(Part(e, CsrEvent, {})));
            && Delivers(catalog, d, now, s)
            && Made(catalog, d, now, s) == now.(csrs := SetAll(w.csrs, e.csrs))
  {
    hide FlowOk, CsrWritesOk, SetAll, CsrValue;
    var part := Part(e, CsrEvent, {});
    QuietFlow(catalog, now, part);
    assert ReadsOk(catalog, now, e.csrReads);
    StagedCsrs(catalog, now, e.csrReads, e.csrs);
  }

  lemma FlagsGo(catalog: Catalog, e: Effects, d: Delivery, now: Warp)
    requires |now.flow.rows| == Divergence.DEPTH && FlagsOk(e.flags)
    requires d.effects == e && !d.cancelled && FlagsEvent !in d.delivered
    ensures var s := Step(FlagsEvent, {}, None);
            && Delivers(catalog, d, now, s)
            && Made(catalog, d, now, s) == now.(csrs := Raise(now.csrs, e.flags))
  {
    hide FlowOk, CsrWritesOk;
    var part := Part(e, FlagsEvent, {});
    QuietFlow(catalog, now, part);
    StagedFlags(catalog, now, e.flags);
  }

  lemma ControlGoes(catalog: Catalog, w: Warp, e: Effects, d: Delivery, now: Warp)
    requires WarpShaped(w) && Stages(catalog, w, e) && e.trap.None?
    requires d.effects == e && !d.cancelled && ControlEvent !in d.delivered
    requires now == w.(registers := now.registers, csrs := now.csrs)
    ensures var s := Step(ControlEvent, {}, Asked(Part(e, ControlEvent, {})));
            && Delivers(catalog, d, now, s)
            && Made(catalog, d, now, s).csrs == now.csrs
  {
    hide FlowAfter, ControlOk, SetAll, Divergence.BundleOk;
    var part := Part(e, ControlEvent, {});
    if e.divergence.Some? && |e.masks| <= 1 {
      assert DivergenceView(part) == DivergenceView(e);
    }
    StagedControl(catalog, now, e);
    SetNone(now.csrs);
  }

  lemma RunStep(catalog: Catalog, d: Delivery, w: Warp, steps: seq<Step>)
    requires |w.flow.rows| == Divergence.DEPTH && steps != [] && Delivers(catalog, d, w, steps[0])
    ensures Run(catalog, d, w, steps) ==
            Run(catalog, Receipt(d, steps[0].event, steps[0].lanes), Made(catalog, d, w, steps[0]), steps[1..])
  {
  }

  lemma TailGoes(catalog: Catalog, w: Warp, e: Effects, d: Delivery, now: Warp, steps: seq<Step>)
    requires WarpShaped(w) && Stages(catalog, w, e) && e.trap.None?
    requires d.effects == e && !d.cancelled && d.delivered <= {Writeback} && d.written == Expected(e.writes)
    requires now == w.(registers := now.registers)
    requires steps == [Step(CsrEvent, {}, Asked(Part(e, CsrEvent, {}))), Step(FlagsEvent, {}, None),
                       Step(ControlEvent, {}, Asked(Part(e, ControlEvent, {})))]
    ensures var r := Run(catalog, d, now, steps);
            r.Some? && Complete(r.value.0) && r.value.1.csrs == Raise(SetAll(w.csrs, e.csrs), e.flags)
  {
    hide Delivers, Made, SetAll, Expected, Raise, Run;
    assert FlagsOk(e.flags);
    CsrsGo(catalog, w, e, d, now);
    RunStep(catalog, d, now, steps);
    var d1, now1 := Receipt(d, CsrEvent, {}), Made(catalog, d, now, steps[0]);
    FlagsGo(catalog, e, d1, now1);
    RunStep(catalog, d1, now1, steps[1..]);
    var d2, now2 := Receipt(d1, FlagsEvent, {}), Made(catalog, d1, now1, steps[1]);
    assert steps[1..][1..] == steps[2..];
    ControlGoes(catalog, w, e, d2, now2);
    RunStep(catalog, d2, now2, steps[2..]);
    var d3, now3 := Receipt(d2, ControlEvent, {}), Made(catalog, d2, now2, steps[2]);
    assert steps[2..][1..] == [];
    assert Run(catalog, d3, now3, []) == Some((d3, now3)) by { RunNone(catalog, d3, now3); }
  }

  lemma RunNone(catalog: Catalog, d: Delivery, w: Warp)
    requires |w.flow.rows| == Divergence.DEPTH
    ensures Run(catalog, d, w, []) == Some((d, w))
  {
  }

  /** Without the condition there is an accepted, complete order that ends elsewhere. */
  lemma FlagsLastDiffers(catalog: Catalog, w: Warp, e: Effects)
    requires WarpShaped(w) && Stages(catalog, w, e) && !FlagsCommute(e)
    ensures !EndsWhole(catalog, w, e, FlagsLast(e))
  {
    hide Delivers, Made, SetAll, Expected, Raise, Run, Complete, FlagsCommute, FlowOk, Written;
    assert e.trap.None? by { FlagsNoTrap(w, e); }
    var steps := FlagsLast(e);
    var tail := [Step(CsrEvent, {}, Asked(Part(e, CsrEvent, {}))), Step(FlagsEvent, {}, None),
                 Step(ControlEvent, {}, Asked(Part(e, ControlEvent, {})))];
    if Expected(e.writes) == {} {
      assert steps == tail;
      TailGoes(catalog, w, e, Fresh(e), w, tail);
    } else {
      WritebackGoes(catalog, w, e);
      RunStep(catalog, Fresh(e), w, steps);
      assert steps[1..] == tail;
      TailGoes(catalog, w, e, Receipt(Fresh(e), Writeback, Expected(e.writes)), Made(catalog, Fresh(e), w, steps[0]), tail);
    }
    RaiseLastDiffers(w.csrs, e);
  }

  lemma FlagsNoTrap(w: Warp, e: Effects)
    requires |w.flow.rows| == Divergence.DEPTH && FlowOk(w, e) && !FlagsCommute(e)
    ensures e.trap.None?
  {
  }

  /** Every order of deliveries ends in the whole commit exactly when no flag is raised that a software write clears. */
  lemma OrderFreeExactly(catalog: Catalog, w: Warp, e: Effects)
    requires WarpShaped(w) && Stages(catalog, w, e)
    ensures (forall steps :: EndsWhole(catalog, w, e, steps)) <==> FlagsCommute(e)
  {
    if FlagsCommute(e) {
      forall steps ensures EndsWhole(catalog, w, e, steps) {
        if Run(catalog, Fresh(e), w, steps).Some? && Complete(Run(catalog, Fresh(e), w, steps).value.0) {
          PartsMakeWhole(catalog, w, e, steps);
        }
      }
    } else {
      FlagsLastDiffers(catalog, w, e);
    }
  }

  // ------------------------------------------------------------------- where order shows

  /** A catalog with the flags register, and a bundle that raises one flag while its software write clears the field. */
  const FLAGS_CATALOG: Catalog := map[0x001 := CsrEntry(WarpScope, true, false, 0x1f)]
  const CLEARED_FLAG: Effects := NOTHING.(flags := Some(1), csrs := [CsrWrite(0x001, WarpScope, 0x1f, false, 0, 0)])

  lemma ClearedFlagStages(w: Warp)
    requires WarpShaped(w) && w.csrs.fcsr == 0
    ensures Stages(FLAGS_CATALOG, w, CLEARED_FLAG) && !FlagsCommute(CLEARED_FLAG)
  {
    var e := CLEARED_FLAG;
    assert SetsFlags(e.csrs[0]) && Byte(0) == 0;
    assert InMask(0, 0x1f);
    assert CsrValue(w.csrs, 0x001) == Some(0);
    assert CsrWritesOk(FLAGS_CATALOG, w.csrs, e.csrs);
  }

  /**
   On every warp with clear flags this bundle shows the order: with the flags delivered
   last the flag stays raised, in the whole commit it ends clear.
   */
  lemma ClearedFlagShowsOrder(w: Warp)
    requires WarpShaped(w) && w.csrs.fcsr == 0
    ensures Stages(FLAGS_CATALOG, w, CLEARED_FLAG)
    ensures !EndsWhole(FLAGS_CATALOG, w, CLEARED_FLAG, FlagsLast(CLEARED_FLAG))
    ensures Staged(FLAGS_CATALOG, w, CLEARED_FLAG).csrs.fcsr == 0
  {
    ClearedFlagStages(w);
    FlagsLastDiffers(FLAGS_CATALOG, w, CLEARED_FLAG);
    ClearedByWrite(w.csrs);
  }

  lemma ClearedByWrite(c: Csrs)
    requires c.fcsr == 0
    ensures SetAll(Raise(c, CLEARED_FLAG.flags), CLEARED_FLAG.csrs).fcsr == 0
  {
    var raised := Raise(c, CLEARED_FLAG.flags);
    FcsrSet(raised, CLEARED_FLAG.csrs, 0);
    assert Byte(0) == 0 && SetFlags(1, 0) == 0;
  }
}
