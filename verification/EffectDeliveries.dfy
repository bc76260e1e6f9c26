/**
 Delivering an instruction's effects piece by piece (emu/state/delivery.go): one event
 at a time, register writes by disjoint lane subsets, each piece a fresh transaction
 on the live owner.
 */
module EffectDeliveries {
  import opened CacheTypes
  import opened WarpEffects
  import Divergence

  datatype Event = Writeback | ControlEvent | CsrEvent | FlagsEvent | MemoryEvent | FaultEvent

  /** The effects, and receipts for what has been made visible. */
  datatype Delivery = Delivery(effects: Effects, delivered: set<Event>, written: Mask, cancelled: bool)

  function Fresh(e: Effects): Delivery {
    Delivery(e, {}, {}, false)
  }

  // ------------------------------------------------------------------- the parts

  function Expected(ws: seq<RegisterWrite>): Mask
    decreases |ws|
  {
    if ws == [] then {} else ws[0].mask + Expected(ws[1..])
  }

  /** The writes restricted to some lanes; emptied writes are dropped. */
  function Cut(ws: seq<RegisterWrite>, lanes: Mask): seq<RegisterWrite>
    decreases |ws|
  {
    if ws == [] then []
    else (if ws[0].mask * lanes == {} then [] else [ws[0].(mask := ws[0].mask * lanes)]) + Cut(ws[1..], lanes)
  }

  function Part(e: Effects, event: Event, lanes: Mask): Effects {
    match event
    case Writeback => NOTHING.(writes := Cut(e.writes, lanes))
    case ControlEvent =>
      NOTHING.(control := e.control, trap := e.trap, masks := e.masks, divergence := e.divergence,
      csrs := if e.trap.Some? then e.csrs else [],
      forward := NO_FORWARD.(spawn := e.forward.spawn, drains := e.forward.drains, barriers := e.forward.barriers))
    case CsrEvent => NOTHING.(csrReads := e.csrReads, csrs := e.csrs)
    case FlagsEvent => NOTHING.(flags := e.flags)
    case MemoryEvent =>
      NOTHING.(forward := NO_FORWARD.(memory := e.forward.memory, packed := e.forward.packed, ordering := e.forward.ordering))
    case FaultEvent => NOTHING.(forward := NO_FORWARD.(faults := e.forward.faults))
  }

  predicate EventOk(d: Delivery, event: Event, lanes: Mask) {
    && !d.cancelled && event !in d.delivered
    && (if event == Writeback then
          var expected := Expected(d.effects.writes);
          Divergence.ValidMask(lanes) && lanes <= expected && lanes * d.written == {} && (expected != {} ==> lanes != {})
        else lanes == {})
    && (event == CsrEvent ==> d.effects.trap.None?)
  }

  /** The other owner is asked exactly when the part needs it, and agrees. */
  predicate ExternalOk(part: Effects, external: Option<bool>) {
    if NeedsExternal(part) then external == Some(true) else external.None?
  }

  function Receipt(d: Delivery, event: Event, lanes: Mask): Delivery {
    if event == Writeback then
      var written := d.written + lanes;
      d.(written := written, delivered := if written == Expected(d.effects.writes) then d.delivered + {Writeback} else d.delivered)
    else d.(delivered := d.delivered + {event})
  }

  /** The mask and cutting loops of a writeback. */
  method CutLanes(ws: seq<RegisterWrite>, lanes: Mask) returns (expected: Mask, part: seq<RegisterWrite>)
    ensures expected == Expected(ws) && part == Cut(ws, lanes)
  {
    expected, part := {}, [];
    var i := 0;
    while i < |ws|
      invariant i <= |ws| && Expected(ws) == expected + Expected(ws[i..]) && Cut(ws, lanes) == part + Cut(ws[i..], lanes)
    {
      assert ws[i..][0] == ws[i] && ws[i..][1..] == ws[i + 1..];
      expected := expected + ws[i].mask;
      if ws[i].mask * lanes != {} {
        part := part + [ws[i].(mask := ws[i].mask * lanes)];
      }
      i := i + 1;
    }
  }

  // ----------------------------------------------------------------- one delivery

  datatype Step = Step(event: Event, lanes: Mask, external: Option<bool>)

  predicate Delivers(catalog: Catalog, d: Delivery, w: Warp, s: Step)
    requires |w.flow.rows| == Divergence.DEPTH
  {
    var part := Part(d.effects, s.event, s.lanes);
    EventOk(d, s.event, s.lanes) && Stages(catalog, w, part) && ExternalOk(part, s.external)
  }

  function Made(catalog: Catalog, d: Delivery, w: Warp, s: Step): (r: Warp)
    requires |w.flow.rows| == Divergence.DEPTH && Delivers(catalog, d, w, s)
    ensures |r.flow.rows| == Divergence.DEPTH
  {
    Staged(catalog, w, Part(d.effects, s.event, s.lanes))
  }

  /** The deliveries in turn; None as soon as one is refused. */
  function Run(catalog: Catalog, d: Delivery, w: Warp, steps: seq<Step>): Option<(Delivery, Warp)>
    requires |w.flow.rows| == Divergence.DEPTH
    decreases |steps|
  {
    if steps == [] then Some((d, w))
    else if !Delivers(catalog, d, w, steps[0]) then None
    else Run(catalog, Receipt(d, steps[0].event, steps[0].lanes), Made(catalog, d, w, steps[0]), steps[1..])
  }

  predicate HasControl(e: Effects) {
    e.control.Some? || e.trap.Some? || e.masks != [] || e.divergence.Some?
  }

  /** Everything the warp's own state takes from the bundle has been delivered. */
  predicate Complete(d: Delivery) {
    var e := d.effects;
    && d.written == Expected(e.writes)
    && (HasControl(e) ==> ControlEvent in d.delivered)
    && (e.trap.None? && e.csrs != [] ==> CsrEvent in d.delivered)
    && (e.flags.Some? ==> FlagsEvent in d.delivered)
  }

  // -------------------------------------------------------------- registers by lanes

  /** The write among distinct destinations that reaches a cell. */
  function Reaching(ws: seq<RegisterWrite>, c: Cell): Option<RegisterWrite>
    decreases |ws|
  {
    if ws == [] then None else if Covers(ws[0], c) then Some(ws[0]) else Reaching(ws[1..], c)
  }

  function CellAfter(before: bv32, w: Option<RegisterWrite>, c: Cell): bv32
    requires w.Some? ==> |w.value.values| == LANES
    requires c.lane < LANES
  {
    if w.Some? then Merge(before, w.value.values[c.lane], Bits(w.value.byteMask)) else before
  }

  lemma {:induction false} ReachingIn(ws: seq<RegisterWrite>, c: Cell)
    ensures Reaching(ws, c).Some? ==> exists i :: 0 <= i < |ws| && ws[i] == Reaching(ws, c).value && Covers(ws[i], c)
    ensures Reaching(ws, c).None? ==> forall i | 0 <= i < |ws| :: !Covers(ws[i], c)
    decreases |ws|
  {
    if ws != [] && !Covers(ws[0], c) {
      ReachingIn(ws[1..], c);
      if Reaching(ws, c).Some? {
        var i :| 0 <= i < |ws[1..]| && ws[1..][i] == Reaching(ws[1..], c).value && Covers(ws[1..][i], c);
        assert ws[i + 1] == Reaching(ws, c).value;
      } else {
        assert forall i | 0 < i < |ws| :: ws[i] == ws[1..][i - 1];
      }
    }
  }

  lemma OthersMiss(ws: seq<RegisterWrite>, c: Cell)
    requires WritesOk(ws) && ws != []
    ensures Covers(ws[0], c) ==> Reaching(ws[1..], c).None?
  {
    forall i | 0 <= i < |ws[1..]| ensures Covers(ws[0], c) ==> !Covers(ws[1..][i], c) {
      assert ws[1..][i] == ws[i + 1];
      assert ws[0].destination != ws[i + 1].destination;
    }
    ReachingIn(ws[1..], c);
  }

  /** Writes to distinct destinations: each cell takes at most one of them. */
  lemma {:induction false} WrittenMeans(registers: map<Cell, bv32>, ws: seq<RegisterWrite>, c: Cell)
    requires WritesOk(ws) && c in registers && c.lane < LANES
    ensures Written(registers, ws).Keys == registers.Keys
    ensures Reaching(ws, c).Some? ==> |Reaching(ws, c).value.values| == LANES
    ensures Written(registers, ws)[c] == CellAfter(registers[c], Reaching(ws, c), c)
    decreases |ws|
  {
    hide Merge, Bits;
    if ws != [] {
      var next := WriteOne(registers, ws[0]);
      assert next.Keys == registers.Keys;
      WrittenMeans(next, ws[1..], c);
      OthersMiss(ws, c);
    }
  }

  lemma {:induction false} CutOk(ws: seq<RegisterWrite>, lanes: Mask)
    requires WritesOk(ws)
    ensures WritesOk(Cut(ws, lanes))
    ensures forall i | 0 <= i < |Cut(ws, lanes)| :: exists k :: 0 <= k < |ws| && ws[k].destination == Cut(ws, lanes)[i].destination
    decreases |ws|
  {
    if ws != [] {
      CutOk(ws[1..], lanes);
      var rest := Cut(ws[1..], lanes);
      forall i | 0 <= i < |rest|
        ensures rest[i].destination != ws[0].destination
        ensures exists k :: 0 <= k < |ws| && ws[k].destination == rest[i].destination
      {
        var k :| 0 <= k < |ws[1..]| && ws[1..][k].destination == rest[i].destination;
        assert ws[k + 1].destination == rest[i].destination;
      }
      assert ws[0].destination == ws[0].destination;
    }
  }

  /** A cut reaches a cell exactly when its lane is among the lanes kept, with the same value. */
  lemma {:induction false} CutReaching(ws: seq<RegisterWrite>, lanes: Mask, c: Cell)
    ensures c.lane !in lanes ==> Reaching(Cut(ws, lanes), c).None?
    ensures c.lane in lanes ==>
              && Reaching(Cut(ws, lanes), c).Some? == Reaching(ws, c).Some?
              && (Reaching(ws, c).Some? ==>
                    && Reaching(Cut(ws, lanes), c).value.values == Reaching(ws, c).value.values
                    && Reaching(Cut(ws, lanes), c).value.byteMask == Reaching(ws, c).value.byteMask)
    decreases |ws|
  {
    if ws != [] {
      CutReaching(ws[1..], lanes, c);
      var head := ws[0].(mask := ws[0].mask * lanes);
      var rest := Cut(ws[1..], lanes);
      if ws[0].mask * lanes == {} {
        assert Cut(ws, lanes) == rest;
        assert c.lane in ws[0].mask * lanes <==> c.lane in ws[0].mask && c.lane in lanes;
      } else {
        assert Cut(ws, lanes) == [head] + rest;
        assert Cut(ws, lanes)[1..] == rest;
      }
    }
  }

  /** Writing two disjoint lane subsets, one after the other, is writing their union. */
  lemma CutsCompose(registers: map<Cell, bv32>, ws: seq<RegisterWrite>, a: Mask, b: Mask)
    requires WritesOk(ws) && a * b == {} && forall c | c in registers :: c.lane < LANES
    ensures WritesOk(Cut(ws, a)) && WritesOk(Cut(ws, b)) && WritesOk(Cut(ws, a + b))
    ensures Written(Written(registers, Cut(ws, a)), Cut(ws, b)) == Written(registers, Cut(ws, a + b))
  {
    hide Merge, Bits, Covers;
    CutOk(ws, a);
    CutOk(ws, b);
    CutOk(ws, a + b);
    KeysKept(registers, Cut(ws, a));
    KeysKept(Written(registers, Cut(ws, a)), Cut(ws, b));
    KeysKept(registers, Cut(ws, a + b));
    forall c | c in registers
      ensures Written(Written(registers, Cut(ws, a)), Cut(ws, b))[c] == Written(registers, Cut(ws, a + b))[c]
    {
      WrittenMeans(registers, Cut(ws, a), c);
      WrittenMeans(Written(registers, Cut(ws, a)), Cut(ws, b), c);
      WrittenMeans(registers, Cut(ws, a + b), c);
      CutReaching(ws, a, c);
      CutReaching(ws, b, c);
      CutReaching(ws, a + b, c);
      assert c.lane in a * b <==> c.lane in a && c.lane in b;
    }
  }

  lemma {:induction false} KeysKept(registers: map<Cell, bv32>, ws: seq<RegisterWrite>)
    requires forall i | 0 <= i < |ws| :: WriteOk(ws[i])
    ensures Written(registers, ws).Keys == registers.Keys
    decreases |ws|
  {
    if ws != [] {
      assert WriteOne(registers, ws[0]).Keys == registers.Keys;
      KeysKept(WriteOne(registers, ws[0]), ws[1..]);
    }
  }

  lemma CutAllReaches(ws: seq<RegisterWrite>, lanes: Mask, c: Cell)
    requires Expected(ws) <= lanes
    ensures Reaching(Cut(ws, lanes), c).Some? == Reaching(ws, c).Some?
    ensures Reaching(ws, c).Some? ==>
              && Reaching(Cut(ws, lanes), c).value.values == Reaching(ws, c).value.values
              && Reaching(Cut(ws, lanes), c).value.byteMask == Reaching(ws, c).value.byteMask
  {
    hide Cut, Expected;
    CutReaching(ws, lanes, c);
    ReachingIn(ws, c);
    if Reaching(ws, c).Some? {
      var i :| 0 <= i < |ws| && ws[i] == Reaching(ws, c).value && Covers(ws[i], c);
      ExpectedHolds(ws, i, c.lane);
    }
  }

  lemma CutAll(ws: seq<RegisterWrite>, lanes: Mask, registers: map<Cell, bv32>)
    requires WritesOk(ws) && Expected(ws) <= lanes && forall c | c in registers :: c.lane < LANES
    ensures WritesOk(Cut(ws, lanes)) && Written(registers, Cut(ws, lanes)) == Written(registers, ws)
  {
    hide Merge, Bits, Cut, Expected, Written, Reaching, WriteOk;
    CutOk(ws, lanes);
    KeysKept(registers, Cut(ws, lanes));
    KeysKept(registers, ws);
    forall c | c in registers ensures Written(registers, Cut(ws, lanes))[c] == Written(registers, ws)[c] {
      WrittenMeans(registers, Cut(ws, lanes), c);
      WrittenMeans(registers, ws, c);
      CutAllReaches(ws, lanes, c);
    }
  }

  lemma {:induction false} ExpectedHolds(ws: seq<RegisterWrite>, i: nat, lane: nat)
    requires i < |ws| && lane in ws[i].mask
    ensures lane in Expected(ws)
    decreases |ws|
  {
    if i > 0 { ExpectedHolds(ws[1..], i - 1, lane); }
  }
}
