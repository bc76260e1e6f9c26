/**
 The warp owner, its effect streams and its deliveries as the objects they are
 (emu/state/apply.go, delivery.go, effect_stream.go).
 */
module EffectOwner {
  import opened CacheTypes
  import opened WarpEffects
  import opened EffectDeliveries
  import opened EffectStreams
  import Divergence

  // ------------------------------------------------------------------ checking loops

  method ValidateCsrReads(catalog: Catalog, w: Warp, rs: seq<CsrRead>) returns (ok: bool)
    ensures ok == ReadsOk(catalog, w, rs)
  {
    var i := 0;
    while i < |rs|
      invariant i <= |rs| && forall k | 0 <= k < i :: ReadOk(catalog, w, rs[k])
    {
      if !ReadOk(catalog, w, rs[i]) {
        return false;
      }
      i := i + 1;
    }
    ok := true;
  }

  /** The catalog loop: known addresses, no address twice, at most one alias of the FCSR byte. */
  method ValidateCsrWrites(catalog: Catalog, c: Csrs, xs: seq<CsrWrite>) returns (ok: bool)
    ensures ok == CsrWritesOk(catalog, c, xs)
  {
    hide CsrEntryOk, CsrFresh;
    var seen: set<nat> := {};
    var fcsr := false;
    var i := 0;
    while i < |xs|
      invariant i <= |xs| && CsrWritesOk(catalog, c, xs[..i])
      invariant seen == set k | 0 <= k < i :: xs[k].address
      invariant fcsr <==> exists k :: 0 <= k < i && IsFcsr(xs[k].address)
    {
      var x := xs[i];
      if !CsrEntryOk(catalog, x) || x.address in seen || (IsFcsr(x.address) && fcsr) || !CsrFresh(c, x) {
        if x.address in seen {
          var k :| 0 <= k < i && xs[k].address == x.address;
          assert !CsrWritesOk(catalog, c, xs);
        }
        return false;
      }
      seen := seen + {x.address};
      fcsr := fcsr || IsFcsr(x.address);
      i := i + 1;
    }
    assert xs[..i] == xs;
    ok := true;
  }

  method StageCsrWrites(c: Csrs, xs: seq<CsrWrite>) returns (r: Csrs)
    ensures r == SetAll(c, xs)
  {
    hide SetCsr;
    r := c;
    var i := 0;
    while i < |xs|
      invariant i <= |xs| && SetAll(c, xs) == SetAll(r, xs[i..])
    {
      assert xs[i..][0] == xs[i] && xs[i..][1..] == xs[i + 1..];
      if IsOwned(xs[i]) {
        r := SetCsr(r, xs[i].address, xs[i].value);
      }
      i := i + 1;
    }
  }

  /** The bundle's arrays have their widths by type in the source. */
  predicate EffectsShaped(e: Effects) {
    forall i | 0 <= i < |e.writes| :: |e.writes[i].values| == LANES
  }

  /** Checks everything against the old image and builds the candidate; the image itself is only read. */
  method StageEffects(catalog: Catalog, w: Warp, e: Effects) returns (r: Option<Warp>)
    requires WarpShaped(w) && EffectsShaped(e)
    ensures r == if Stages(catalog, w, e) then Some(Staged(catalog, w, e)) else None
  {
    hide CsrWritesOk, ReadsOk, DivergenceOk, TrapOk, ControlOk, WritesOk, SetAll, Written, FlowAfter;
    if !ForwardOk(e.forward) || (e.forward.faults != [] && MutatesLocally(e)) {
      return None;
    }
    var registers := StageRegisterWrites(w.registers, e.writes);
    if registers.None? || !FlagsOk(e.flags) {
      return None;
    }
    var ok := ValidateCsrReads(catalog, w, e.csrReads);
    if !ok {
      return None;
    }
    ok := ValidateCsrWrites(catalog, w.csrs, e.csrs);
    if !ok {
      return None;
    }
    var csrs := StageCsrWrites(Raise(w.csrs, e.flags), e.csrs);
    if !FlowOk(w, e) {
      return None;
    }
    assert Stages(catalog, w, e);
    r := Some(Warp(w.id, FlowAfter(w.flow, e), SavedAfter(w, e), csrs, registers.value));
  }

  lemma CutShaped(ws: seq<RegisterWrite>, lanes: Mask)
    requires forall i | 0 <= i < |ws| :: |ws[i].values| == LANES
    ensures forall i | 0 <= i < |Cut(ws, lanes)| :: |Cut(ws, lanes)[i].values| == LANES
    decreases |ws|
  {
    if ws != [] { CutShaped(ws[1..], lanes); }
  }

  // ---------------------------------------------------------------------- the objects

  class WarpState {
    var image: Warp

    ghost predicate Valid()
      reads this
    {
      WarpShaped(image)
    }

    constructor (initial: Warp)
      requires WarpShaped(initial)
      ensures Valid() && image == initial
    {
      image := initial;
    }
  }

  class EffectStream {
    const owner: WarpState
    var controlOrder: nat
    var activationOrder: nat

    ghost function Frontiers(): Frontier
      reads this
    {
      Frontier(controlOrder, activationOrder)
    }

    constructor (owner: WarpState)
      ensures this.owner == owner && Frontiers() == Frontier(0, 0)
    {
      this.owner := owner;
      controlOrder := 0;
      activationOrder := 0;
    }

    method RecordActivation(through: nat)
      modifies this
      ensures Frontiers() == Activated(old(Frontiers()), through)
    {
      if through > activationOrder {
        activationOrder := through;
      }
      if through > controlOrder {
        controlOrder := through;
      }
    }

    /** Validates under the instruction's own context and keeps nothing but the effects. */
    method NewDelivery(catalog: Catalog, order: nat, context: Context, effects: Effects) returns (r: Option<EffectDelivery>)
      requires owner.Valid() && EffectsShaped(effects)
      ensures r.Some? <==> order > 0 && InstructionStages(catalog, owner.image, context, effects)
      ensures r.Some? ==> fresh(r.value) && r.value.stream == this && r.value.owner == owner
      ensures r.Some? ==> r.value.AsToken() == Token(order, context, Fresh(effects)) && EffectsShaped(r.value.effects)
    {
      if order == 0 || !ContextOk(context) {
        return None;
      }
      var stage := StageEffects(catalog, Logical(owner.image, context), effects);
      if stage.None? {
        return None;
      }
      var d := new EffectDelivery(this, order, context, owner, effects);
      r := Some(d);
    }
  }

  class EffectDelivery {
    const stream: EffectStream?
    const order: nat
    const context: Context
    const owner: WarpState
    const effects: Effects
    var delivered: set<Event>
    var writes: Mask
    var cancelled: bool

    ghost function AsToken(): Token
      reads this
    {
      Token(order, context, Delivery(effects, delivered, writes, cancelled))
    }

    constructor (stream: EffectStream?, order: nat, context: Context, owner: WarpState, effects: Effects)
      ensures this.stream == stream && this.owner == owner && this.effects == effects
      ensures AsToken() == Token(order, context, Fresh(effects))
    {
      this.stream := stream;
      this.order := order;
      this.context := context;
      this.owner := owner;
      this.effects := effects;
      delivered, writes, cancelled := {}, {}, false;
    }

    method Cancel()
      modifies this
      ensures AsToken() == old(AsToken()).(delivery := old(AsToken()).delivery.(cancelled := true))
    {
      cancelled := true;
    }

    /** The frontier the delivery is held against; none off a stream, where nothing is ever late. */
    ghost function Against(): Frontier
      reads this, stream
    {
      if stream == null then Frontier(0, 0) else stream.Frontiers()
    }

    ghost predicate Applies(catalog: Catalog, s: Step)
      reads this, owner, stream
      requires owner.Valid()
    {
      if stream == null then Delivers(catalog, AsToken().delivery, owner.image, s)
      else TokenDelivers(catalog, Against(), AsToken(), owner.image, s)
    }

    ghost function Result(catalog: Catalog, s: Step): Warp
      reads this, owner, stream
      requires owner.Valid() && Applies(catalog, s)
    {
      if stream == null then Made(catalog, AsToken().delivery, owner.image, s)
      else TokenMade(catalog, Against(), AsToken(), owner.image, s)
    }

    /** The checks on event, receipts and lanes; the part to stage. */
    method Select(event: Event, lanes: Mask) returns (ok: bool, part: Effects)
      requires EffectsShaped(effects)
      ensures ok == EventOk(AsToken().delivery, event, lanes)
      ensures ok ==> part == Part(effects, event, lanes) && EffectsShaped(part)
    {
      hide Expected, Cut;
      part := NOTHING;
      ok := !cancelled && event !in delivered && !(event != Writeback && lanes != {}) && !(event == CsrEvent && effects.trap.Some?);
      if !ok {
        return;
      }
      if event == Writeback {
        var expected, cut := CutLanes(effects.writes, lanes);
        ok := Divergence.ValidMask(lanes) && lanes <= expected && lanes * writes == {} && !(expected != {} && lanes == {});
        CutShaped(effects.writes, lanes);
        part := NOTHING.(writes := cut);
      } else {
        part := Part(effects, event, lanes);
      }
    }

    /** Control on a stream: a late group keeps only what may still be shown. */
    method StageStreamControl(catalog: Catalog, part: Effects) returns (r: Option<Warp>)
      requires stream != null && owner.Valid() && EffectsShaped(part)
      ensures r == if StreamStages(catalog, stream.Frontiers(), AsToken(), owner.image, part)
                   then Some(StreamStaged(catalog, stream.Frontiers(), AsToken(), owner.image, part)) else None
    {
      hide Stages, Staged, ContextOk, LateOk;
      var token := Token(order, context, Delivery(effects, delivered, writes, cancelled));
      var frontier := Frontier(stream.controlOrder, stream.activationOrder);
      if order <= stream.controlOrder {
        if !LateOk(frontier, token, part) {
          return None;
        }
        r := StageEffects(catalog, owner.image, part.(control := None));
      } else {
        if !ContextOk(context) {
          return None;
        }
        var after := StageEffects(catalog, Logical(owner.image, context), part);
        if after.None? {
          return None;
        }
        var w, flow := owner.image, after.value.flow;
        if part.control.None? {
          flow := flow.(pc := w.flow.pc);
        }
        if part.masks == [] && part.divergence.None? && part.trap.None? {
          flow := flow.(mask := w.flow.mask, running := w.flow.running);
        }
        r := Some(after.value.(flow := flow));
      }
    }

    /** Applies one event once, or one new lane subset; a refusal leaves everything as it was. */
    method Deliver(catalog: Catalog, event: Event, lanes: Mask, external: Option<bool>) returns (ok: bool)
      requires owner.Valid() && EffectsShaped(effects)
      modifies this, owner, if stream == null then {} else {stream}
      ensures ok == old(Applies(catalog, Step(event, lanes, external)))
      ensures !ok ==> owner.image == old(owner.image) && AsToken() == old(AsToken()) && Against() == old(Against())
      ensures ok ==> owner.image == old(Result(catalog, Step(event, lanes, external)))
      ensures ok ==> AsToken().delivery == Receipt(old(AsToken().delivery), event, lanes)
      ensures ok && stream != null ==> Against() == FrontierAfter(old(Against()), old(AsToken()), Step(event, lanes, external))
    {
      hide Stages, Staged, StreamStages, StreamStaged, NeedsExternal, Part, EventOk, Expected;
      var part;
      ok, part := Select(event, lanes);
      if !ok {
        return;
      }
      var stage: Option<Warp>;
      var offered := part;
      if stream != null && event == ControlEvent {
        stage := StageStreamControl(catalog, part);
        if order <= stream.controlOrder {
          offered := part.(control := None);
        }
      } else {
        stage := StageEffects(catalog, owner.image, part);
      }
      if stage.None? {
        return false;
      }
      if NeedsExternal(offered) {
        if external != Some(true) {
          return false;
        }
      } else if external.Some? {
        return false;
      }
      owner.image := stage.value;
      if stream != null && event == ControlEvent && effects.control.Some? && order > stream.controlOrder {
        stream.controlOrder := order;
      }
      if event == Writeback {
        var expected, _ := CutLanes(effects.writes, lanes);
        writes := writes + lanes;
        if writes == expected {
          delivered := delivered + {Writeback};
        }
      } else {
        delivered := delivered + {event};
      }
    }
  }
}
