/**
 Thread divergence: SPLIT and JOIN are evaluated into effects (isa/custom.go) and
 the warp's owner applies them to its mask and divergence stack
 (emu/state/apply.go).
 */
module Divergence {
  import opened CacheTypes

  const LANES: nat := 4
  const DEPTH: nat := 3
  const PC_SPACE: nat := 0x1_0000_0000

  /** The active lanes. */
  type Mask = set<nat>

  predicate ValidMask(m: Mask) {
    forall l | l in m :: l < LANES
  }

  /** One row of the divergence stack. */
  datatype Row = Row(valid: bool, original: Mask, nextPC: nat, elseVisited: bool)

  const NO_ROW: Row := Row(false, {}, 0, false)

  datatype Warp = Warp(pc: nat, mask: Mask, running: bool, rows: seq<Row>, pointer: nat)

  datatype Action = SplitAction | JoinAction

  datatype Effect = Effect(action: Action, pointer: nat, divergent: bool, original: Mask, execute: Mask, deferred: Mask,
                           reconvergence: nat, push: bool, markElse: bool, pop: bool)

  datatype Reason = SplitMask | JoinMask

  datatype MaskEffect = MaskEffect(reason: Reason, mask: Mask, active: bool)

  datatype Control = Sequential | Reconverge(target: nat, decision: nat)

  datatype Bundle = Bundle(divergence: Effect, mask: Option<MaskEffect>, control: Control)

  // --------------------------------------------------------------- evaluation

  /** The highest active lane decides; lane 0 when there is none. */
  function Decision(m: Mask, from: nat): (r: nat)
    ensures (exists l :: l in m && l < from) ==> r in m && forall l | l in m && l < from :: l <= r
  {
    if from == 0 then 0 else if from - 1 in m then from - 1 else Decision(m, from - 1)
  }

  function NextOf(pc: nat): nat {
    (pc + 4) % PC_SPACE
  }

  function ThenMask(mask: Mask, condition: Mask, negated: bool): Mask {
    set l | l in mask && (l in condition) != negated
  }

  /** SPLIT: the smaller side runs first, the lanes whose condition holds on a tie. */
  function EvalSplit(w: Warp, condition: Mask, negated: bool): Option<Bundle> {
    if w.pointer >= 4 then None
    else
      var then_ := ThenMask(w.mask, condition, negated);
      var else_ := w.mask - then_;
      var divergent := then_ != {} && else_ != {};
      var (execute, deferred) := if |then_| > |else_| then (else_, then_) else (then_, else_);
      Some(Bundle(Effect(SplitAction, w.pointer, divergent, w.mask, execute, deferred, NextOf(w.pc), divergent, false, false),
                  if divergent then Some(MaskEffect(SplitMask, execute, true)) else None, Sequential))
  }

  /** JOIN on the row its operand names; the row is the view the owner supplies. */
  function EvalJoin(w: Warp, operand: nat, view: Option<Row>): Option<Bundle> {
    var pointer := operand % 4;
    if pointer == w.pointer then
      Some(Bundle(Effect(JoinAction, pointer, false, w.mask, {}, {}, 0, false, false, false), None, Sequential))
    else if view.None? || !view.value.valid || !ValidMask(view.value.original) then None
    else
      var row := view.value;
      var execute := if row.elseVisited then row.original else row.original - w.mask;
      var control := if row.elseVisited then Sequential else Reconverge(row.nextPC, Decision(w.mask, LANES));
      Some(Bundle(Effect(JoinAction, pointer, true, row.original, execute, {}, row.nextPC, false, !row.elseVisited, row.elseVisited),
                  Some(MaskEffect(JoinMask, execute, execute != {})), control))
  }

  /** The lane loop of SPLIT. */
  method CollectThen(mask: Mask, condition: Mask, negated: bool) returns (then_: Mask)
    requires ValidMask(mask)
    ensures then_ == ThenMask(mask, condition, negated)
  {
    then_ := {};
    for lane := 0 to LANES
      invariant then_ == set l | l in mask && l < lane && (l in condition) != negated
    {
      if lane in mask && (lane in condition) != negated {
        then_ := then_ + {lane};
      }
    }
  }

  // -------------------------------------------------------------- application

  /** The checks on SPLIT, in the owner's order; none of them changes anything. */
  predicate SplitOk(w: Warp, b: Bundle) {
    var e := b.divergence;
    && e.pointer == w.pointer && e.original == w.mask
    && !e.markElse && !e.pop && e.push == e.divergent
    && b.control == Sequential && e.reconvergence == NextOf(w.pc)
    && e.execute * e.deferred == {} && e.execute + e.deferred == e.original
    && (!e.divergent ==> b.mask.None? && (e.execute == {} || e.deferred == {}))
    && (e.divergent ==>
          && w.pointer < DEPTH && e.reconvergence % 4 == 0 && e.execute != {} && e.deferred != {}
          && b.mask == Some(MaskEffect(SplitMask, e.execute, true)))
  }

  predicate JoinOk(w: Warp, b: Bundle)
    requires |w.rows| == DEPTH
  {
    var e := b.divergence;
    && !e.push && (e.divergent ==> e.markElse != e.pop)
    && (!e.divergent ==>
          && e.pointer == w.pointer && e.original == w.mask && e.execute == {} && e.deferred == {} && e.reconvergence == 0
          && !e.markElse && !e.pop && b.mask.None? && b.control == Sequential)
    && (e.divergent ==>
          && e.pointer < DEPTH
          && var row := w.rows[e.pointer];
             && row.valid && e.original == row.original && e.reconvergence == row.nextPC
             && b.mask == Some(MaskEffect(JoinMask, e.execute, e.execute != {}))
             && (e.markElse ==>
                   && !row.elseVisited && e.execute == row.original - w.mask && e.execute != {}
                   && b.control.Reconverge? && b.control.target == row.nextPC)
             && (!e.markElse ==>
                   && row.elseVisited && e.pointer + 1 == w.pointer && e.execute == row.original
                   && b.control == Sequential))
  }

  predicate ControlOk(w: Warp, c: Control) {
    match c
    case Sequential => NextOf(w.pc) % 4 == 0
    case Reconverge(target, decision) => target % 4 == 0 && decision < LANES && decision in w.mask
  }

  predicate BundleOk(w: Warp, b: Bundle)
    requires |w.rows| == DEPTH
  {
    var e := b.divergence;
    && e.pointer <= DEPTH && ValidMask(e.original) && ValidMask(e.execute) && ValidMask(e.deferred)
    && (if e.action == SplitAction then SplitOk(w, b) else JoinOk(w, b))
    && ControlOk(w, b.control)
  }

  /** The warp after an accepted bundle. */
  function Applied(w: Warp, b: Bundle): Warp
    requires |w.rows| == DEPTH && BundleOk(w, b)
  {
    var e := b.divergence;
    var pc := if b.control.Sequential? then NextOf(w.pc) else b.control.target;
    if !e.divergent then w.(pc := pc)
    else
      var rows := if e.push then w.rows[w.pointer := Row(true, e.original, e.reconvergence, false)]
                  else if e.markElse then w.rows[e.pointer := w.rows[e.pointer].(elseVisited := true)]
                  else w.rows[e.pointer := NO_ROW];
      var pointer := if e.push then w.pointer + 1 else if e.markElse then w.pointer else w.pointer - 1;
      Warp(pc, b.mask.value.mask, b.mask.value.active, rows, pointer)
  }

  /** One instruction: evaluate, check, apply. None when either side refuses it. */
  function Split(w: Warp, condition: Mask, negated: bool): Option<Warp>
    requires |w.rows| == DEPTH
  {
    var b := EvalSplit(w, condition, negated);
    if b.Some? && BundleOk(w, b.value) then Some(Applied(w, b.value)) else None
  }

  function Join(w: Warp, operand: nat): Option<Warp>
    requires |w.rows| == DEPTH
  {
    var view := if operand % 4 < DEPTH then Some(w.rows[operand % 4]) else None;
    var b := EvalJoin(w, operand, view);
    if b.Some? && BundleOk(w, b.value) then Some(Applied(w, b.value)) else None
  }

  // ------------------------------------------------------------ the invariant

  /** The mask just inside row `i - 1`: the next row's original mask, or the active one. */
  function Inner(w: Warp, i: nat): Mask
    requires w.pointer <= |w.rows| && i <= w.pointer
  {
    if i == w.pointer then w.mask else w.rows[i].original
  }

  ghost predicate RowOk(w: Warp, i: nat)
    requires w.pointer <= |w.rows| && i < w.pointer
  {
    w.rows[i].valid && ValidMask(w.rows[i].original) && w.rows[i].nextPC % 4 == 0 && Inner(w, i + 1) < w.rows[i].original
  }

  /** The stacked masks and the active one strictly decrease; rows above the pointer are empty. */
  ghost predicate Nested(w: Warp) {
    && |w.rows| == DEPTH && w.pointer <= DEPTH && w.pc % 4 == 0
    && w.mask != {} && ValidMask(w.mask) && w.running
    && (forall i | 0 <= i < w.pointer :: RowOk(w, i))
    && (forall i | w.pointer <= i < DEPTH :: w.rows[i] == NO_ROW)
  }

  lemma SmallerSet(a: Mask, b: Mask)
    requires a < b
    ensures |a| < |b|
  {
    assert b == a + (b - a) && |b - a| > 0;
  }

  lemma MaskSize(m: Mask)
    requires ValidMask(m)
    ensures |m| <= LANES
  {
    var all := {0, 1, 2, 3};
    assert m <= all;
    assert all == m + (all - m);
  }

  /** Each row costs a lane. */
  lemma {:induction false} ChainBound(w: Warp, i: nat)
    requires Nested(w) && i <= w.pointer
    ensures ValidMask(Inner(w, i)) && |Inner(w, i)| + i <= LANES
  {
    if i == 0 {
      assert w.pointer > 0 ==> RowOk(w, 0);
      MaskSize(Inner(w, 0));
    } else {
      ChainBound(w, i - 1);
      assert RowOk(w, i - 1);
      assert i < w.pointer ==> RowOk(w, i);
      SmallerSet(Inner(w, i), Inner(w, i - 1));
    }
  }

  /** A warp that can diverge has a free row. */
  lemma RoomToDiverge(w: Warp, part: Mask)
    requires Nested(w) && {} < part < w.mask
    ensures w.pointer < DEPTH
  {
    ChainBound(w, w.pointer);
    SmallerSet({}, part);
    SmallerSet(part, w.mask);
  }

  lemma PcKeeps(w: Warp, pc: nat)
    requires Nested(w) && pc % 4 == 0
    ensures Nested(w.(pc := pc))
  {
    var t := w.(pc := pc);
    forall i | 0 <= i < t.pointer ensures RowOk(t, i) {
      assert RowOk(w, i);
      assert Inner(t, i + 1) == Inner(w, i + 1);
    }
  }

  lemma SplitUniform(w: Warp, condition: Mask, negated: bool)
    requires Nested(w)
    requires var then_ := ThenMask(w.mask, condition, negated); then_ == {} || then_ == w.mask
    ensures Split(w, condition, negated) == Some(w.(pc := NextOf(w.pc)))
  {
    var then_ := ThenMask(w.mask, condition, negated);
    assert then_ == {} ==> w.mask - then_ == w.mask;
    assert then_ == w.mask ==> w.mask - then_ == {};
    var b := EvalSplit(w, condition, negated).value;
    assert !b.divergence.divergent;
    assert BundleOk(w, b);
  }

  /** SPLIT is always accepted and keeps the chain. */
  lemma SplitKeeps(w: Warp, condition: Mask, negated: bool)
    requires Nested(w)
    ensures var r := Split(w, condition, negated);
            var then_ := ThenMask(w.mask, condition, negated);
            && r.Some? && Nested(r.value) && r.value.pc == NextOf(w.pc)
            && if then_ == {} || then_ == w.mask then r.value == w.(pc := NextOf(w.pc))
               else
                 && w.pointer < DEPTH
                 && r.value.mask == (if |then_| > |w.mask - then_| then w.mask - then_ else then_)
                 && r.value.pointer == w.pointer + 1
                 && r.value.rows == w.rows[w.pointer := Row(true, w.mask, NextOf(w.pc), false)]
  {
    hide Split, RowOk;
    var then_ := ThenMask(w.mask, condition, negated);
    if then_ == {} || then_ == w.mask {
      SplitUniform(w, condition, negated);
      PcKeeps(w, NextOf(w.pc));
    } else {
      assert then_ <= w.mask;
      RoomToDiverge(w, then_);
      SplitPushes(w, condition, negated);
    }
  }

  lemma SplitPushes(w: Warp, condition: Mask, negated: bool)
    requires Nested(w) && w.pointer < DEPTH
    requires var then_ := ThenMask(w.mask, condition, negated); then_ != {} && w.mask - then_ != {}
    ensures var r := Split(w, condition, negated);
            var then_ := ThenMask(w.mask, condition, negated);
            && r.Some? && Nested(r.value) && r.value.pc == NextOf(w.pc)
            && r.value.mask == (if |then_| > |w.mask - then_| then w.mask - then_ else then_)
            && r.value.pointer == w.pointer + 1
            && r.value.rows == w.rows[w.pointer := Row(true, w.mask, NextOf(w.pc), false)]
  {
    var then_ := ThenMask(w.mask, condition, negated);
    var else_ := w.mask - then_;
    assert then_ + else_ == w.mask && then_ * else_ == {};
    var b := EvalSplit(w, condition, negated).value;
    assert BundleOk(w, b);
    var t := Applied(w, b);
    assert t.mask < w.mask by {
      var p :| p in then_;
      var q :| q in else_;
      assert p !in else_ && q !in then_;
    }
    forall i | 0 <= i < t.pointer ensures RowOk(t, i) {
      if i < w.pointer {
        assert RowOk(w, i);
        assert Inner(t, i + 1) == Inner(w, i + 1);
      }
    }
  }

  /** The mask that follows a JOIN on the top row. */
  function JoinMaskOf(w: Warp): Mask
    requires w.pointer > 0 && w.pointer <= |w.rows|
  {
    var row := w.rows[w.pointer - 1];
    if row.elseVisited then row.original else row.original - w.mask
  }

  /** JOIN on the top row is always accepted: first the other lanes run, then the row is popped. */
  lemma JoinKeeps(w: Warp, operand: nat)
    requires Nested(w) && w.pointer > 0 && operand % 4 == w.pointer - 1
    ensures var r, row := Join(w, operand), w.rows[w.pointer - 1];
            && r.Some? && Nested(r.value) && r.value.mask == JoinMaskOf(w)
            && (if row.elseVisited then
                  && r.value.pc == NextOf(w.pc) && r.value.pointer == w.pointer - 1 && r.value.rows == w.rows[w.pointer - 1 := NO_ROW]
                else
                  && r.value.pc == row.nextPC && r.value.pointer == w.pointer
                  && r.value.rows == w.rows[w.pointer - 1 := row.(elseVisited := true)])
  {
    var p := w.pointer - 1;
    var row := w.rows[p];
    assert RowOk(w, p);
    var b := EvalJoin(w, operand, Some(row)).value;
    var l :| l in w.mask;
    assert l < LANES;
    var d := Decision(w.mask, LANES);
    assert d in w.mask && d < LANES;
    if !row.elseVisited {
      assert b.divergence.execute != {} by {
        assert w.mask < row.original;
        var k :| k in row.original && k !in w.mask;
        assert k in b.divergence.execute;
      }
      assert b.divergence.execute < row.original by {
        assert l in row.original && l !in b.divergence.execute;
      }
    }
    assert row.original != {};
    assert BundleOk(w, b);
    var t := Applied(w, b);
    forall i | 0 <= i < t.pointer ensures RowOk(t, i) {
      assert RowOk(w, i);
      if i + 1 < t.pointer {
        assert Inner(t, i + 1) == Inner(w, i + 1);
      }
    }
  }

  /** JOIN on the free row above the stack does nothing: its SPLIT was uniform. */
  lemma JoinUniform(w: Warp, operand: nat)
    requires Nested(w) && operand % 4 == w.pointer
    ensures Join(w, operand) == Some(w.(pc := NextOf(w.pc))) && Nested(w.(pc := NextOf(w.pc)))
  {
    var t := w.(pc := NextOf(w.pc));
    forall i | 0 <= i < t.pointer ensures RowOk(t, i) {
      assert RowOk(w, i);
      assert Inner(t, i + 1) == Inner(w, i + 1);
    }
  }

  // --------------------------------------------------------------------- runs

  datatype Instruction = SplitOn(condition: Mask, negated: bool) | JoinOn(operand: nat)

  function Execute(w: Warp, i: Instruction): Option<Warp>
    requires |w.rows| == DEPTH
  {
    match i
    case SplitOn(condition, negated) => Split(w, condition, negated)
    case JoinOn(operand) => Join(w, operand)
  }

  /** A JOIN that names the top row, or the free row a uniform SPLIT returned. */
  predicate AtTop(w: Warp, i: Instruction) {
    i.JoinOn? ==> i.operand % 4 == w.pointer || i.operand % 4 + 1 == w.pointer
  }

  ghost predicate IsRun(run: seq<Warp>, code: seq<Instruction>) {
    && |run| == |code| + 1 && Nested(run[0])
    && (forall k | 0 <= k < |run| :: |run[k].rows| == DEPTH)
    && (forall k | 0 <= k < |code| :: AtTop(run[k], code[k]) && Execute(run[k], code[k]) == Some(run[k + 1]))
  }

  lemma ExecuteKeeps(w: Warp, i: Instruction)
    requires Nested(w) && AtTop(w, i)
    ensures Execute(w, i).Some? && Nested(Execute(w, i).value)
  {
    match i
    case SplitOn(condition, negated) => SplitKeeps(w, condition, negated);
    case JoinOn(operand) =>
      if operand % 4 == w.pointer {
        JoinUniform(w, operand);
      } else {
        JoinKeeps(w, operand);
      }
  }

  /** Every state of every run keeps the strictly decreasing chain, and the next instruction is never refused. */
  lemma {:induction false} RunNested(run: seq<Warp>, code: seq<Instruction>, k: nat)
    requires IsRun(run, code) && k < |run|
    ensures Nested(run[k])
    ensures run[k].pointer + |run[k].mask| <= LANES
    ensures forall i | AtTop(run[k], i) :: Execute(run[k], i).Some?
  {
    if k > 0 {
      RunNested(run, code, k - 1);
      ExecuteKeeps(run[k - 1], code[k - 1]);
    }
    ChainBound(run[k], run[k].pointer);
    forall i | AtTop(run[k], i) ensures Execute(run[k], i).Some? {
      ExecuteKeeps(run[k], i);
    }
  }

  // ------------------------------------------------------------------ regions

  /**
   Well-nested code. `Work` stands for other instructions, named by `id`, that end at
   some aligned PC. `Fork` is a SPLIT, the code of either side up to its JOIN, and what
   follows; JOIN sends the second side back to the instruction after the SPLIT.
   */
  datatype Region =
    | Done
    | Work(id: nat, pc: nat, next: Region)
    | Fork(condition: Mask, negated: bool, then_: Region, else_: Region, next: Region)

  predicate Aligned(r: Region) {
    match r
    case Done => true
    case Work(_, pc, next) => pc % 4 == 0 && Aligned(next)
    case Fork(_, _, t, e, next) => Aligned(t) && Aligned(e) && Aligned(next)
  }

  /** Which work ran, under which mask. */
  datatype Entry = Entry(id: nat, mask: Mask)

  datatype Outcome = Refused | Ran(warp: Warp, trace: seq<Entry>)

  /** The token register after SPLIT: every active lane holds the pointer. */
  function Tokens(w: Warp): (r: seq<nat>)
    ensures |r| == LANES
  {
    seq(LANES, l => if l in w.mask then w.pointer else 0)
  }

  /** JOIN as the decision lane issues it, from the token register. */
  function JoinBy(w: Warp, tokens: seq<nat>): Option<Warp>
    requires |w.rows| == DEPTH && |tokens| == LANES
  {
    var d := Decision(w.mask, LANES);
    if d < LANES then Join(w, tokens[d]) else None
  }

  /** Runs a region on the hardware. */
  function Run(w: Warp, r: Region): Outcome
    requires |w.rows| == DEPTH
    decreases r, 0
  {
    match r
    case Done => Ran(w, [])
    case Work(id, pc, next) =>
      Prepend([Entry(id, w.mask)], Run(w.(pc := pc), next))
    case Fork(condition, negated, t, e, next) =>
      var s := Split(w, condition, negated);
      if s.None? || |s.value.rows| != DEPTH then Refused
      else if s.value.pointer == w.pointer then
        var body := if ThenMask(w.mask, condition, negated) == {} then e else t;
        RunThen(Run(s.value, body), Tokens(w), next)
      else
        var thenFirst := s.value.mask == ThenMask(w.mask, condition, negated);
        match Run(s.value, if thenFirst then t else e)
        case Refused => Refused
        case Ran(w1, trace1) =>
          if |w1.rows| != DEPTH then Refused
          else
            var j := JoinBy(w1, Tokens(w));
            if j.None? || |j.value.rows| != DEPTH then Refused
            else Prepend(trace1, RunThen(Run(j.value, if thenFirst then e else t), Tokens(w), next))
  }

  /** The last JOIN of a region, then what follows it. */
  function RunThen(o: Outcome, tokens: seq<nat>, next: Region): Outcome
    requires |tokens| == LANES
    decreases next, 1
  {
    match o
    case Refused => Refused
    case Ran(w, trace) =>
      if |w.rows| != DEPTH then Refused
      else
        var j := JoinBy(w, tokens);
        if j.None? || |j.value.rows| != DEPTH then Refused else Prepend(trace, Run(j.value, next))
  }

  function Prepend(trace: seq<Entry>, o: Outcome): Outcome {
    match o
    case Refused => Refused
    case Ran(w, rest) => Ran(w, trace + rest)
  }

  /** What one lane would run by itself: at a fork, the side its own condition picks. */
  function LaneTrace(l: nat, r: Region): seq<nat> {
    match r
    case Done => []
    case Work(id, _, next) => [id] + LaneTrace(l, next)
    case Fork(condition, negated, t, e, next) =>
      (if (l in condition) != negated then LaneTrace(l, t) else LaneTrace(l, e)) + LaneTrace(l, next)
  }

  /** The work of a trace that a lane took part in. */
  function SeenBy(l: nat, trace: seq<Entry>): seq<nat> {
    if trace == [] then []
    else (if l in trace[0].mask then [trace[0].id] else []) + SeenBy(l, trace[1..])
  }

  lemma {:induction false} SeenAppend(l: nat, a: seq<Entry>, b: seq<Entry>)
    ensures SeenBy(l, a + b) == SeenBy(l, a) + SeenBy(l, b)
  {
    if a == [] {
      assert a + b == b;
    } else {
      var first := if l in a[0].mask then [a[0].id] else [];
      assert (a + b)[0] == a[0] && (a + b)[1..] == a[1..] + b;
      SeenAppend(l, a[1..], b);
      assert first + (SeenBy(l, a[1..]) + SeenBy(l, b)) == first + SeenBy(l, a[1..]) + SeenBy(l, b);
    }
  }

  /** The region ran, left the mask and the stack as they were, and each lane saw exactly its own work. */
  ghost predicate Faithful(w: Warp, r: Region, o: Outcome) {
    && o.Ran? && Nested(o.warp)
    && o.warp.mask == w.mask && o.warp.rows == w.rows && o.warp.pointer == w.pointer
    && (forall l :: SeenBy(l, o.trace) == if l in w.mask then LaneTrace(l, r) else [])
  }

  /** The decision lane of any side reads the pointer SPLIT wrote. */
  lemma TokenReads(w: Warp, side: Warp)
    requires Nested(w) && Nested(side) && side.mask <= w.mask
    ensures Decision(side.mask, LANES) < LANES && Tokens(w)[Decision(side.mask, LANES)] == w.pointer
    ensures w.pointer % 4 == w.pointer
  {
    var l :| l in side.mask;
    assert l < LANES;
  }

  /** What follows a region runs faithfully from any warp shaped like `w`. */
  ghost predicate Continues(w: Warp, next: Region) {
    forall v: Warp | Nested(v) && v.mask == w.mask && v.rows == w.rows && v.pointer == w.pointer ::
      Faithful(v, next, Run(v, next))
  }

  /** The warp is back as it was and the lanes saw what they had seen, then what follows. */
  ghost predicate Rejoined(w: Warp, seen: seq<Entry>, next: Region, f: Outcome) {
    && f.Ran? && Nested(f.warp) && f.warp.mask == w.mask && f.warp.rows == w.rows && f.warp.pointer == w.pointer
    && (forall l :: SeenBy(l, f.trace) == SeenBy(l, seen) + if l in w.mask then LaneTrace(l, next) else [])
  }

  lemma RowsFit(w: Warp)
    requires Nested(w)
    ensures |w.rows| == DEPTH
  {
  }

  lemma RunTail(w: Warp, j: Warp, trace: seq<Entry>, next: Region)
    requires Continues(w, next) && Nested(j) && j.mask == w.mask && j.rows == w.rows && j.pointer == w.pointer
    ensures Rejoined(w, trace, next, Prepend(trace, Run(j, next)))
  {
    hide RowOk, Run, SeenBy, LaneTrace, Nested;
    RowsFit(j);
    var tail := Run(j, next);
    assert Faithful(j, next, tail);
    SeenTail(w, trace, tail, next);
  }

  lemma SeenTail(w: Warp, trace: seq<Entry>, tail: Outcome, next: Region)
    requires tail.Ran? && forall l :: SeenBy(l, tail.trace) == if l in w.mask then LaneTrace(l, next) else []
    ensures Prepend(trace, tail) == Ran(tail.warp, trace + tail.trace)
    ensures forall l :: SeenBy(l, trace + tail.trace) == SeenBy(l, trace) + if l in w.mask then LaneTrace(l, next) else []
  {
    hide SeenBy, LaneTrace;
    forall l ensures SeenBy(l, trace + tail.trace) == SeenBy(l, trace) + SeenBy(l, tail.trace) {
      SeenAppend(l, trace, tail.trace);
    }
  }

  /** The JOIN that ends a uniform region. */
  lemma UniformRest(w: Warp, o: Outcome, next: Region)
    requires Nested(w) && Continues(w, next)
    requires o.Ran? && Nested(o.warp) && o.warp.mask == w.mask && o.warp.rows == w.rows && o.warp.pointer == w.pointer
    ensures Rejoined(w, o.trace, next, RunThen(o, Tokens(w), next))
  {
    hide Join, Continues, Rejoined, RowOk, Run;
    TokenReads(w, o.warp);
    JoinUniform(o.warp, w.pointer);
    RunTail(w, o.warp.(pc := NextOf(o.warp.pc)), o.trace, next);
  }

  /** The JOIN that ends the second side pops the row. */
  lemma DivergentRest(w: Warp, o: Outcome, pc: nat, next: Region)
    requires Nested(w) && Continues(w, next) && w.pointer < DEPTH
    requires o.Ran? && Nested(o.warp) && o.warp.mask <= w.mask && o.warp.pointer == w.pointer + 1
    requires o.warp.rows == w.rows[w.pointer := Row(true, w.mask, pc, true)]
    ensures Rejoined(w, o.trace, next, RunThen(o, Tokens(w), next))
  {
    hide Join, Continues, Rejoined, RowOk, Run;
    TokenReads(w, o.warp);
    JoinKeeps(o.warp, w.pointer);
    var j := Join(o.warp, w.pointer).value;
    assert w.rows[w.pointer] == NO_ROW;
    assert j.rows == w.rows[w.pointer := NO_ROW] == w.rows;
    RunTail(w, j, o.trace, next);
  }

  /** The JOIN that ends the first side hands the region to the other lanes. */
  lemma SecondSide(w: Warp, w1: Warp, pc: nat)
    requires Nested(w) && w.pointer < DEPTH && Nested(w1) && w1.mask <= w.mask && w1.pointer == w.pointer + 1
    requires w1.rows == w.rows[w.pointer := Row(true, w.mask, pc, false)]
    ensures var j := JoinBy(w1, Tokens(w));
            && j.Some? && Nested(j.value) && j.value.mask == w.mask - w1.mask && j.value.pointer == w1.pointer
            && j.value.pc == pc && j.value.rows == w.rows[w.pointer := Row(true, w.mask, pc, true)]
  {
    TokenReads(w, w1);
    JoinKeeps(w1, w.pointer);
  }

  ghost predicate RunsFaithfully(r: Region) {
    forall v: Warp | Nested(v) :: Faithful(v, r, Run(v, r))
  }

  lemma FaithfulFrom(w: Warp, r: Region)
    requires RunsFaithfully(r)
    ensures Continues(w, r) && (Nested(w) ==> Faithful(w, r, Run(w, r)))
  {
    hide Faithful, Nested, Run;
  }

  lemma UniformFork(w: Warp, r: Region)
    requires Nested(w) && r.Fork? && RunsFaithfully(r.then_) && RunsFaithfully(r.else_) && RunsFaithfully(r.next)
    requires var t := ThenMask(w.mask, r.condition, r.negated); t == {} || t == w.mask
    ensures Faithful(w, r, Run(w, r))
  {
    hide Split, Join, JoinBy, RunThen, RowOk, RunsFaithfully, Continues, Tokens;
    var then_ := ThenMask(w.mask, r.condition, r.negated);
    SplitKeeps(w, r.condition, r.negated);
    var s := Split(w, r.condition, r.negated).value;
    var body := if then_ == {} then r.else_ else r.then_;
    var o := Run(s, body);
    FaithfulFrom(s, body);
    FaithfulFrom(w, r.next);
    UniformRest(w, o, r.next);
    assert Run(w, r) == RunThen(o, Tokens(w), r.next);
    forall l | l in w.mask ensures ((l in r.condition) != r.negated) == (then_ != {}) {
      assert l in then_ <==> (l in r.condition) != r.negated;
    }
  }

  lemma DivergentFork(w: Warp, r: Region)
    requires Nested(w) && r.Fork? && RunsFaithfully(r.then_) && RunsFaithfully(r.else_) && RunsFaithfully(r.next)
    requires var t := ThenMask(w.mask, r.condition, r.negated); t != {} && t != w.mask
    ensures Faithful(w, r, Run(w, r))
  {
    hide Split, Join, JoinBy, RunThen, RowOk, RunsFaithfully, Continues, Tokens, SeenBy, LaneTrace, Nested;
    RowsFit(w);
    var then_ := ThenMask(w.mask, r.condition, r.negated);
    SplitKeeps(w, r.condition, r.negated);
    var s := Split(w, r.condition, r.negated).value;
    var thenFirst := s.mask == then_;
    var first, second := if thenFirst then r.then_ else r.else_, if thenFirst then r.else_ else r.then_;
    RowsFit(s);
    var o1 := Run(s, first);
    FaithfulFrom(s, first);
    RowsFit(o1.warp);
    SecondSide(w, o1.warp, NextOf(w.pc));
    var j := JoinBy(o1.warp, Tokens(w)).value;
    RowsFit(j);
    var o2 := Run(j, second);
    FaithfulFrom(j, second);
    FaithfulFrom(w, r.next);
    DivergentRest(w, o2, NextOf(w.pc), r.next);
    var rest := RunThen(o2, Tokens(w), r.next);
    assert Run(w, r) == Ran(rest.warp, o1.trace + rest.trace);
    forall l ensures SeenBy(l, o1.trace + rest.trace) == if l in w.mask then LaneTrace(l, r) else [] {
      SidesSeen(w, r, s.mask, o1.trace, o2.trace, rest.trace, l);
    }
  }

  lemma LaneFork(l: nat, r: Region)
    requires r.Fork?
    ensures LaneTrace(l, r) ==
            (if (l in r.condition) != r.negated then LaneTrace(l, r.then_) else LaneTrace(l, r.else_)) + LaneTrace(l, r.next)
  {
  }

  /** Each lane was on one side: it saw that side's work, then what follows. */
  lemma SidesSeen(w: Warp, r: Region, side: Mask, trace1: seq<Entry>, trace2: seq<Entry>, rest: seq<Entry>, l: nat)
    requires r.Fork?
    requires var then_ := ThenMask(w.mask, r.condition, r.negated); side == then_ || side == w.mask - then_
    requires var thenFirst := side == ThenMask(w.mask, r.condition, r.negated);
             && SeenBy(l, trace1) == (if l in side then LaneTrace(l, if thenFirst then r.then_ else r.else_) else [])
             && SeenBy(l, trace2) == (if l in w.mask - side then LaneTrace(l, if thenFirst then r.else_ else r.then_) else [])
    requires SeenBy(l, rest) == SeenBy(l, trace2) + if l in w.mask then LaneTrace(l, r.next) else []
    ensures SeenBy(l, trace1 + rest) == if l in w.mask then LaneTrace(l, r) else []
  {
    hide SeenBy, LaneTrace;
    var then_ := ThenMask(w.mask, r.condition, r.negated);
    SeenAppend(l, trace1, rest);
    LaneFork(l, r);
    assert l in then_ <==> l in w.mask && (l in r.condition) != r.negated;
    if l in w.mask {
      var own := if (l in r.condition) != r.negated then LaneTrace(l, r.then_) else LaneTrace(l, r.else_);
      assert SeenBy(l, trace1) + SeenBy(l, trace2) == own;
      assert SeenBy(l, trace1) + (SeenBy(l, trace2) + LaneTrace(l, r.next)) == own + LaneTrace(l, r.next);
    }
  }

  lemma WorkFaithful(w: Warp, r: Region)
    requires Nested(w) && r.Work? && r.pc % 4 == 0 && RunsFaithfully(r.next)
    ensures Faithful(w, r, Run(w, r))
  {
    hide RowOk, RunsFaithfully, Continues;
    PcKeeps(w, r.pc);
    var v := w.(pc := r.pc);
    FaithfulFrom(v, r.next);
    var tail := Run(v, r.next);
    forall l ensures SeenBy(l, [Entry(r.id, w.mask)] + tail.trace) == if l in w.mask then LaneTrace(l, r) else [] {
      SeenAppend(l, [Entry(r.id, w.mask)], tail.trace);
    }
  }

  lemma {:induction false} RegionFaithful(r: Region)
    requires Aligned(r)
    ensures RunsFaithfully(r)
    decreases r
  {
    hide RowOk, Faithful, Split, RunThen, Run;
    if r.Work? {
      RegionFaithful(r.next);
    } else if r.Fork? {
      RegionFaithful(r.then_);
      RegionFaithful(r.else_);
      RegionFaithful(r.next);
    }
    forall w: Warp | Nested(w) ensures Faithful(w, r, Run(w, r)) {
      match r
      case Done => DoneFaithful(w);
      case Work(_, _, _) => WorkFaithful(w, r);
      case Fork(condition, negated, t, e, next) =>
        var then_ := ThenMask(w.mask, condition, negated);
        if then_ == {} || then_ == w.mask {
          UniformFork(w, r);
        } else {
          DivergentFork(w, r);
        }
    }
  }

  lemma DoneFaithful(w: Warp)
    requires Nested(w)
    ensures Faithful(w, Done, Run(w, Done))
  {
  }

  /**
   Every well-nested region, nested to any depth, runs to its end from every nested warp,
   restores the mask, the stack and the write pointer, and lets each lane that was active run
   exactly the work its own conditions pick, in order.
   */
  lemma WellNestedRegion(w: Warp, r: Region)
    requires Nested(w) && Aligned(r)
    ensures var o := Run(w, r);
            && o.Ran? && o.warp.mask == w.mask && o.warp.pointer == w.pointer && o.warp.rows == w.rows
            && (forall l | l in w.mask :: SeenBy(l, o.trace) == LaneTrace(l, r))
            && (forall l | l !in w.mask :: SeenBy(l, o.trace) == [])
  {
    RegionFaithful(r);
    assert Faithful(w, r, Run(w, r));
  }
}
