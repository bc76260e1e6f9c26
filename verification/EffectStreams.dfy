/**
 One warp's effect stream (emu/state/effect_stream.go): the frontier that keeps late
 control deliveries from moving the PC backwards.
 */
module EffectStreams {
  import opened CacheTypes
  import opened WarpEffects
  import opened EffectDeliveries
  import EffectTheorems
  import Divergence

  /** The PC and mask an instruction was issued under. */
  datatype Context = Context(pc: nat, mask: Mask)

  datatype Frontier = Frontier(control: nat, activation: nat)

  /** One instruction's delivery on the stream. */
  datatype Token = Token(order: nat, context: Context, delivery: Delivery)

  predicate ContextOk(c: Context) {
    c.pc % 4 == 0 && Divergence.ValidMask(c.mask) && c.mask != {}
  }

  /** The live warp, seen under the instruction's own PC and mask. */
  function Logical(w: Warp, c: Context): Warp {
    w.(flow := w.flow.(pc := c.pc, mask := c.mask, running := true))
  }

  predicate InstructionStages(catalog: Catalog, w: Warp, c: Context, e: Effects)
    requires |w.flow.rows| == Divergence.DEPTH
  {
    ContextOk(c) && Stages(catalog, Logical(w, c), e)
  }

  predicate ReplacesMask(e: Effects) {
    e.masks != [] || e.divergence.Some? || e.trap.Some?
  }

  /** Staged under the context; what the bundle does not write keeps its live value. */
  function InstructionStaged(catalog: Catalog, w: Warp, c: Context, e: Effects): (r: Warp)
    requires |w.flow.rows| == Divergence.DEPTH && InstructionStages(catalog, w, c, e)
    ensures |r.flow.rows| == Divergence.DEPTH
  {
    var after := Staged(catalog, Logical(w, c), e);
    var flow := if e.control.None? then after.flow.(pc := w.flow.pc) else after.flow;
    after.(flow := if ReplacesMask(e) then flow else flow.(mask := w.flow.mask, running := w.flow.running))
  }

  /** The one control group that may cross the PC frontier: a non-blocking arrival. */
  predicate IsAsyncArrival(e: Effects) {
    && e.control.Some? && e.control.value.reason == Sequential && |e.forward.barriers| == 1 && |e.forward.drains| == 1
    && var b, d := e.forward.barriers[0], e.forward.drains[0];
       && b.kind == ArriveBarrier && !b.sync && !b.wait && !b.release && b.drainLSU && b.arrive != b.event
       && d.kind == LsuDrain && !d.wait && !d.releaseAfter
  }

  predicate IsLate(f: Frontier, t: Token) {
    t.order <= f.control
  }

  /** What a late control group may still carry. */
  predicate LateOk(f: Frontier, t: Token, e: Effects) {
    && (e.control.Some? ==> e.control.value.reason == Sequential)
    && e.trap.None? && e.masks == [] && e.divergence.None? && e.forward.spawn.None?
    && ((e.forward.drains == [] && e.forward.barriers == []) || (t.order > f.activation && IsAsyncArrival(e)))
  }

  predicate StreamStages(catalog: Catalog, f: Frontier, t: Token, w: Warp, part: Effects)
    requires |w.flow.rows| == Divergence.DEPTH
  {
    if IsLate(f, t) then LateOk(f, t, part) && Stages(catalog, w, part.(control := None))
    else InstructionStages(catalog, w, t.context, part)
  }

  function StreamStaged(catalog: Catalog, f: Frontier, t: Token, w: Warp, part: Effects): (r: Warp)
    requires |w.flow.rows| == Divergence.DEPTH && StreamStages(catalog, f, t, w, part)
    ensures |r.flow.rows| == Divergence.DEPTH
  {
    if IsLate(f, t) then Staged(catalog, w, part.(control := None)) else InstructionStaged(catalog, w, t.context, part)
  }

  /** What the other owner is asked for: the part, less the control a late group has lost. */
  function Offered(f: Frontier, t: Token, event: Event, part: Effects): Effects {
    if event == ControlEvent && IsLate(f, t) then part.(control := None) else part
  }

  predicate TokenDelivers(catalog: Catalog, f: Frontier, t: Token, w: Warp, s: Step)
    requires |w.flow.rows| == Divergence.DEPTH
  {
    var part := Part(t.delivery.effects, s.event, s.lanes);
    && EventOk(t.delivery, s.event, s.lanes)
    && (if s.event == ControlEvent then StreamStages(catalog, f, t, w, part) else Stages(catalog, w, part))
    && ExternalOk(Offered(f, t, s.event, part), s.external)
  }

  function TokenMade(catalog: Catalog, f: Frontier, t: Token, w: Warp, s: Step): (r: Warp)
    requires |w.flow.rows| == Divergence.DEPTH && TokenDelivers(catalog, f, t, w, s)
    ensures |r.flow.rows| == Divergence.DEPTH
  {
    var part := Part(t.delivery.effects, s.event, s.lanes);
    if s.event == ControlEvent then StreamStaged(catalog, f, t, w, part) else Staged(catalog, w, part)
  }

  function FrontierAfter(f: Frontier, t: Token, s: Step): Frontier {
    if s.event == ControlEvent && t.delivery.effects.control.Some? && t.order > f.control then f.(control := t.order) else f
  }

  /** An activation closes the stream to control groups admitted before it. */
  function Activated(f: Frontier, through: nat): Frontier {
    Frontier(if through > f.control then through else f.control, if through > f.activation then through else f.activation)
  }

  // -------------------------------------------------------------------------- one step

  /** Events other than control never touch PC, mask, lifecycle or divergence stack. */
  lemma OthersLeaveFlow(catalog: Catalog, w: Warp, e: Effects, event: Event, lanes: Mask)
    requires |w.flow.rows| == Divergence.DEPTH && event != ControlEvent
    requires Stages(catalog, w, Part(e, event, lanes))
    ensures Staged(catalog, w, Part(e, event, lanes)).flow == w.flow
    ensures Staged(catalog, w, Part(e, event, lanes)).saved == w.saved
  {
    hide Stages;
    match event {
      case Writeback => EffectTheorems.StagedWrites(catalog, w, Cut(e.writes, lanes));
      case CsrEvent => EffectTheorems.StagedCsrs(catalog, w, e.csrReads, e.csrs);
      case FlagsEvent => EffectTheorems.StagedFlags(catalog, w, e.flags);
      case MemoryEvent => EffectTheorems.StagedForward(catalog, w, Part(e, event, lanes).forward);
      case FaultEvent => EffectTheorems.StagedForward(catalog, w, Part(e, event, lanes).forward);
    }
  }

  /** A late delivery, whatever its event, neither moves the PC nor replaces the mask. */
  lemma LateLeavesFlow(catalog: Catalog, f: Frontier, t: Token, w: Warp, s: Step)
    requires |w.flow.rows| == Divergence.DEPTH && TokenDelivers(catalog, f, t, w, s) && IsLate(f, t)
    ensures TokenMade(catalog, f, t, w, s).flow == w.flow && TokenMade(catalog, f, t, w, s).saved == w.saved
    ensures FrontierAfter(f, t, s) == f
  {
    var part := Part(t.delivery.effects, s.event, s.lanes);
    if s.event == ControlEvent {
      hide Stages;
      var left := part.(control := None);
      assert left == NOTHING.(forward := part.forward);
      EffectTheorems.StagedForward(catalog, w, part.forward);
    } else {
      OthersLeaveFlow(catalog, w, t.delivery.effects, s.event, s.lanes);
    }
  }

  /** A timely control group moves the PC to its own next PC, or leaves it if it has none. */
  lemma TimelyMoves(catalog: Catalog, f: Frontier, t: Token, w: Warp, s: Step)
    requires |w.flow.rows| == Divergence.DEPTH && TokenDelivers(catalog, f, t, w, s) && !IsLate(f, t) && s.event == ControlEvent
    ensures var e := t.delivery.effects;
            && TokenMade(catalog, f, t, w, s).flow.pc == (if e.control.Some? then e.control.value.next else w.flow.pc)
            && (!ReplacesMask(e) ==> TokenMade(catalog, f, t, w, s).flow.mask == w.flow.mask)
            && FrontierAfter(f, t, s).control == (if e.control.Some? then t.order else f.control)
  {
    hide Divergence.BundleOk, Divergence.Applied, CsrWritesOk, ControlOk;
  }

  // --------------------------------------------------------------------------- the runs

  /** What the stream's run did. */
  datatype Action =
    | Create(order: nat, context: Context, effects: Effects)
    | Deliver(token: nat, step: Step)

  datatype World = World(warp: Warp, frontier: Frontier, tokens: seq<Token>)

  predicate Accepts(catalog: Catalog, w: World, a: Action)
    requires |w.warp.flow.rows| == Divergence.DEPTH
  {
    match a
    case Create(order, context, effects) => order > 0 && InstructionStages(catalog, w.warp, context, effects)
    case Deliver(k, s) => k < |w.tokens| && TokenDelivers(catalog, w.frontier, w.tokens[k], w.warp, s)
  }

  function After(catalog: Catalog, w: World, a: Action): (r: World)
    requires |w.warp.flow.rows| == Divergence.DEPTH && Accepts(catalog, w, a)
    ensures |r.warp.flow.rows| == Divergence.DEPTH
  {
    match a
    case Create(order, context, effects) => w.(tokens := w.tokens + [Token(order, context, Fresh(effects))])
    case Deliver(k, s) =>
      var t := w.tokens[k];
      World(TokenMade(catalog, w.frontier, t, w.warp, s), FrontierAfter(w.frontier, t, s),
            w.tokens[k := t.(delivery := Receipt(t.delivery, s.event, s.lanes))])
  }

  /** A control group made visible: its instruction's order and next PC. */
  datatype Shown = Shown(order: nat, next: nat)

  function Shows(w: World, a: Action): seq<Shown> {
    if a.Deliver? && a.step.event == ControlEvent && a.token < |w.tokens| && w.tokens[a.token].delivery.effects.control.Some? then
      [Shown(w.tokens[a.token].order, w.tokens[a.token].delivery.effects.control.value.next)]
    else []
  }

  /** The actions in turn, with the control groups shown; None as soon as one is refused. */
  function Run(catalog: Catalog, w: World, actions: seq<Action>): (r: Option<(World, seq<Shown>)>)
    requires |w.warp.flow.rows| == Divergence.DEPTH
    decreases |actions|
  {
    if actions == [] then Some((w, []))
    else if !Accepts(catalog, w, actions[0]) then None
    else
      var rest := Run(catalog, After(catalog, w, actions[0]), actions[1..]);
      if rest.None? then None else Some((rest.value.0, Shows(w, actions[0]) + rest.value.1))
  }

  /** The first shown group of the greatest order, if any is newer than what is already there. */
  function Youngest(from: Shown, shown: seq<Shown>): Shown
    decreases |shown|
  {
    if shown == [] then from else Youngest(if shown[0].order > from.order then shown[0] else from, shown[1..])
  }

  lemma {:induction false} YoungestMeans(from: Shown, shown: seq<Shown>)
    ensures forall i | 0 <= i < |shown| :: shown[i].order <= Youngest(from, shown).order
    ensures from.order <= Youngest(from, shown).order
    ensures Youngest(from, shown) == from || Youngest(from, shown) in shown
    ensures Youngest(from, shown) == from <==> forall i | 0 <= i < |shown| :: shown[i].order <= from.order
    decreases |shown|
  {
    if shown != [] {
      var head := if shown[0].order > from.order then shown[0] else from;
      YoungestMeans(head, shown[1..]);
      assert forall i | 0 < i < |shown| :: shown[i] == shown[1..][i - 1];
      if Youngest(head, shown[1..]) in shown[1..] {
        assert Youngest(from, shown) in shown;
      }
      if forall i | 0 <= i < |shown| :: shown[i].order <= from.order {
        assert forall i | 0 <= i < |shown[1..]| :: shown[1..][i] == shown[i + 1];
      }
    }
  }

  ghost predicate Positive(w: World) {
    forall i | 0 <= i < |w.tokens| :: w.tokens[i].order > 0
  }

  lemma StepShows(catalog: Catalog, w: World, a: Action)
    requires |w.warp.flow.rows| == Divergence.DEPTH && Accepts(catalog, w, a) && Positive(w)
    ensures var n := After(catalog, w, a);
            && Positive(n)
            && Shown(n.frontier.control, n.warp.flow.pc) == Youngest(Shown(w.frontier.control, w.warp.flow.pc), Shows(w, a))
  {
    hide TokenDelivers, TokenMade, InstructionStages;
    if a.Deliver? {
      var t := w.tokens[a.token];
      assert Youngest(Shown(w.frontier.control, w.warp.flow.pc), []) == Shown(w.frontier.control, w.warp.flow.pc);
      if IsLate(w.frontier, t) {
        LateLeavesFlow(catalog, w.frontier, t, w.warp, a.step);
      } else if a.step.event == ControlEvent {
        TimelyMoves(catalog, w.frontier, t, w.warp, a.step);
      } else {
        OtherToken(catalog, w.frontier, t, w.warp, a.step);
      }
      if Shows(w, a) != [] {
        assert Shows(w, a)[1..] == [];
      }
    }
  }

  lemma OtherToken(catalog: Catalog, f: Frontier, t: Token, w: Warp, s: Step)
    requires |w.flow.rows| == Divergence.DEPTH && TokenDelivers(catalog, f, t, w, s) && s.event != ControlEvent
    ensures TokenMade(catalog, f, t, w, s).flow == w.flow
  {
    OthersLeaveFlow(catalog, w, t.delivery.effects, s.event, s.lanes);
  }

  lemma {:induction false} YoungestTwice(from: Shown, a: seq<Shown>, b: seq<Shown>)
    ensures Youngest(from, a + b) == Youngest(Youngest(from, a), b)
    decreases |a|
  {
    if a == [] {
      assert a + b == b;
    } else {
      assert (a + b)[1..] == a[1..] + b;
      YoungestTwice(if a[0].order > from.order then a[0] else from, a[1..], b);
    }
  }

  /**
   Whatever the order of deliveries, the visible PC is the next PC of the youngest
   instruction whose control has been shown, and the frontier is that instruction's order.
   */
  lemma {:induction false} VisiblePC(catalog: Catalog, w: World, actions: seq<Action>)
    requires |w.warp.flow.rows| == Divergence.DEPTH && Positive(w) && Run(catalog, w, actions).Some?
    ensures var (end, shown) := Run(catalog, w, actions).value;
            Shown(end.frontier.control, end.warp.flow.pc) == Youngest(Shown(w.frontier.control, w.warp.flow.pc), shown)
    decreases |actions|
  {
    hide Accepts, After, Shows, Youngest;
    if actions != [] {
      var n := After(catalog, w, actions[0]);
      StepShows(catalog, w, actions[0]);
      VisiblePC(catalog, n, actions[1..]);
      var rest := Run(catalog, n, actions[1..]).value;
      YoungestTwice(Shown(w.frontier.control, w.warp.flow.pc), Shows(w, actions[0]), rest.1);
    } else {
      NothingShown(Shown(w.frontier.control, w.warp.flow.pc));
    }
  }

  lemma NothingShown(from: Shown)
    ensures Youngest(from, []) == from
  {
  }

  /** After an activation, nothing admitted up to it moves the PC or the mask. */
  lemma ActivationSeals(catalog: Catalog, f: Frontier, through: nat, t: Token, w: Warp, s: Step)
    requires |w.flow.rows| == Divergence.DEPTH && t.order <= through
    requires TokenDelivers(catalog, Activated(f, through), t, w, s)
    ensures TokenMade(catalog, Activated(f, through), t, w, s).flow == w.flow
    ensures s.event == ControlEvent ==> t.delivery.effects.forward.drains == [] && t.delivery.effects.forward.barriers == []
  {
    LateLeavesFlow(catalog, Activated(f, through), t, w, s);
  }
}
