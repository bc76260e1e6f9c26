/**
 One warp's owned state and the staging of an instruction's effects on it
 (emu/state/apply.go): everything is checked against the old image, then a detached
 candidate is built. All effects here are addressed to the warp itself.
 */
module WarpEffects {
  import opened CacheTypes
  import Divergence

  type Mask = Divergence.Mask

  const LANES: nat := 4
  const REGISTERS: nat := 32
  const WORD_SPACE: nat := 0x1_0000_0000

  // ----------------------------------------------------------------------- state

  datatype File = Integer | Float

  datatype Register = Register(file: File, index: nat)

  datatype Cell = Cell(lane: nat, register: Register)

  predicate IsCell(c: Cell) {
    c.lane < LANES && c.register.index < REGISTERS
  }

  datatype Csrs = Csrs(fcsr: bv8, mstatus: nat, mtvec: nat, mscratch: nat, mepc: nat, mcause: nat, mtval: nat)

  datatype Warp = Warp(id: nat, flow: Divergence.Warp, saved: Mask, csrs: Csrs, registers: map<Cell, bv32>)

  ghost predicate WarpShaped(w: Warp) {
    |w.flow.rows| == Divergence.DEPTH && forall c :: c in w.registers <==> IsCell(c)
  }

  // --------------------------------------------------------------------- effects

  /** A byte mask of zero stands for the whole word. */
  datatype RegisterWrite = RegisterWrite(destination: Register, mask: Mask, byteMask: bv8, values: seq<bv32>)

  datatype Reason = Sequential | Branch | Jump | TrapEntry | TrapReturn | Reconverge

  datatype Control = Control(reason: Reason, current: nat, next: nat, target: nat, taken: bool, decision: nat)

  datatype Scope = WarpScope | ConstantScope | OtherScope

  datatype CsrEntry = CsrEntry(scope: Scope, writable: bool, writeIgnored: bool, writeMask: nat)

  type Catalog = map<nat, CsrEntry>

  datatype CsrRead = CsrRead(address: nat, scope: Scope, values: seq<nat>)

  datatype CsrWrite = CsrWrite(address: nat, scope: Scope, writeMask: nat, ignored: bool, oldValue: nat, value: nat)

  datatype TrapKind = Enter | Return

  datatype Trap = Trap(kind: TrapKind, cause: nat, epc: nat, vector: nat, save: Mask, restores: bool, restore: Mask)

  datatype MaskReason = TmcMask | PredicateMask | SplitMask | JoinMask

  datatype MaskEffect = MaskEffect(reason: MaskReason, mask: Mask, active: bool)

  datatype BarrierKind = NoBarrier | SyncBarrier | ArriveBarrier | WaitBarrier

  datatype Barrier = Barrier(kind: BarrierKind, addressWarp: nat, id: nat, sync: bool, arrive: bool, wait: bool,
                             release: bool, event: bool, drainLSU: bool)

  datatype DrainKind = OtherDrain | LsuDrain

  datatype Drain = Drain(kind: DrainKind, wait: bool, releaseAfter: bool)

  /** What the state's owner passes on: requests by lane, ordering, spawn, drains, barriers and faults by lane. */
  datatype Forward = Forward(memory: seq<nat>, ordering: Option<(nat, nat)>, packed: seq<nat>, spawn: Option<nat>,
                             drains: seq<Drain>, barriers: seq<Barrier>, faults: seq<nat>)

  const NO_FORWARD: Forward := Forward([], None, [], None, [], [], [])

  datatype Effects = Effects(writes: seq<RegisterWrite>, control: Option<Control>, flags: Option<bv8>, csrReads: seq<CsrRead>,
                             csrs: seq<CsrWrite>, trap: Option<Trap>, masks: seq<MaskEffect>,
                             divergence: Option<Divergence.Effect>, forward: Forward)

  const NOTHING: Effects := Effects([], None, None, [], [], None, [], None, NO_FORWARD)

  // ------------------------------------------------------------- register writes

  /** The bits a byte mask selects. */
  function Bits(byteMask: bv8): bv32 {
    var m := if byteMask == 0 then 15 else byteMask;
    (if m & 1 != 0 then 0x0000_00ff else 0) | (if m & 2 != 0 then 0x0000_ff00 else 0)
    | (if m & 4 != 0 then 0x00ff_0000 else 0) | (if m & 8 != 0 then 0xff00_0000 else 0)
  }

  function Merge(before: bv32, value: bv32, bits: bv32): bv32 {
    (before & !bits) | (value & bits)
  }

  predicate WriteOk(w: RegisterWrite) {
    w.destination.index < REGISTERS && w.byteMask & 0xf0 == 0 && Divergence.ValidMask(w.mask) && |w.values| == LANES
  }

  predicate WritesOk(ws: seq<RegisterWrite>) {
    && (forall i | 0 <= i < |ws| :: WriteOk(ws[i]))
    && (forall i, j | 0 <= i < j < |ws| :: ws[i].destination != ws[j].destination)
  }

  /** The write reaches the cell; the integer zero register has no storage. */
  predicate Covers(w: RegisterWrite, c: Cell) {
    c.register == w.destination && c.lane in w.mask && w.destination != Register(Integer, 0)
  }

  function WriteOne(registers: map<Cell, bv32>, w: RegisterWrite): (r: map<Cell, bv32>)
    requires WriteOk(w)
  {
    map c | c in registers :: if Covers(w, c) && c.lane < LANES then Merge(registers[c], w.values[c.lane], Bits(w.byteMask)) else registers[c]
  }

  function Written(registers: map<Cell, bv32>, ws: seq<RegisterWrite>): map<Cell, bv32>
    requires forall i | 0 <= i < |ws| :: WriteOk(ws[i])
    decreases |ws|
  {
    if ws == [] then registers else Written(WriteOne(registers, ws[0]), ws[1..])
  }

  /** The lane loop over one write. */
  method WriteLanes(registers: map<Cell, bv32>, w: RegisterWrite) returns (r: map<Cell, bv32>)
    requires WriteOk(w) && forall c :: c in registers <==> IsCell(c)
    ensures r == WriteOne(registers, w)
  {
    r := registers;
    if w.destination == Register(Integer, 0) {
      assert r == WriteOne(registers, w);
      return;
    }
    for lane := 0 to LANES
      invariant r.Keys == registers.Keys
      invariant forall c | c in registers ::
        r[c] == if Covers(w, c) && c.lane < lane then Merge(registers[c], w.values[c.lane], Bits(w.byteMask)) else registers[c]
    {
      if lane in w.mask {
        var c := Cell(lane, w.destination);
        r := r[c := Merge(r[c], w.values[lane], Bits(w.byteMask))];
      }
    }
    assert r == WriteOne(registers, w);
  }

  /** The write loop: checks each entry against the destinations seen so far, and applies it. */
  method StageRegisterWrites(registers: map<Cell, bv32>, ws: seq<RegisterWrite>) returns (r: Option<map<Cell, bv32>>)
    requires forall c :: c in registers <==> IsCell(c)
    requires forall i | 0 <= i < |ws| :: |ws[i].values| == LANES
    ensures r == if WritesOk(ws) then Some(Written(registers, ws)) else None
  {
    var seen: set<Register> := {};
    var out := registers;
    var i := 0;
    while i < |ws|
      invariant i <= |ws| && WritesOk(ws[..i])
      invariant seen == set k | 0 <= k < i :: ws[k].destination
      invariant forall c :: c in out <==> IsCell(c)
      invariant WritesOk(ws) ==> Written(registers, ws) == Written(out, ws[i..])
    {
      if !WriteOk(ws[i]) || ws[i].destination in seen {
        return None;
      }
      seen := seen + {ws[i].destination};
      out := WriteLanes(out, ws[i]);
      assert ws[i..][1..] == ws[i + 1..];
      i := i + 1;
    }
    assert ws[..i] == ws && ws[i..] == [];
    r := Some(out);
  }

  // ------------------------------------------------------------------------ CSRs

  predicate InMask(value: nat, mask: nat) {
    value < WORD_SPACE && mask < WORD_SPACE && (value as bv32) & !(mask as bv32) == 0
  }

  function CsrValue(c: Csrs, address: nat): Option<nat> {
    if address == 0x001 then Some((c.fcsr & 0x1f) as nat)
    else if address == 0x002 then Some((c.fcsr >> 5) as nat)
    else if address == 0x003 then Some(c.fcsr as nat)
    else if address == 0x300 then Some(c.mstatus)
    else if address == 0x305 then Some(c.mtvec)
    else if address == 0x340 then Some(c.mscratch)
    else if address == 0x341 then Some(c.mepc)
    else if address == 0x342 then Some(c.mcause)
    else if address == 0x343 then Some(c.mtval)
    else None
  }

  function MaskValue(m: Mask): nat {
    (if 0 in m then 1 else 0) + (if 1 in m then 2 else 0) + (if 2 in m then 4 else 0) + (if 3 in m then 8 else 0)
  }

  function CsrReadValue(w: Warp, address: nat): Option<nat> {
    if CsrValue(w.csrs, address).Some? then CsrValue(w.csrs, address)
    else if address == 0xcc1 then Some(w.id)
    else if address == 0xcc4 then Some(MaskValue(w.flow.mask))
    else None
  }

  function Byte(value: nat): bv8 {
    (value % 256) as bv8
  }

  /** The FCSR byte: flags in the low five bits, rounding mode above. */
  function SetFlags(f: bv8, v: bv8): bv8 {
    (f & 0xe0) | v
  }

  function SetMode(f: bv8, v: bv8): bv8 {
    (f & 0x1f) | (v << 5)
  }

  function RaiseFlags(f: bv8, flags: bv8): bv8 {
    f | flags
  }

  function SetCsr(c: Csrs, address: nat, value: nat): Csrs {
    if address == 0x001 then c.(fcsr := SetFlags(c.fcsr, Byte(value)))
    else if address == 0x002 then c.(fcsr := SetMode(c.fcsr, Byte(value)))
    else if address == 0x003 then c.(fcsr := Byte(value))
    else if address == 0x300 then c.(mstatus := value)
    else if address == 0x305 then c.(mtvec := value)
    else if address == 0x340 then c.(mscratch := value)
    else if address == 0x341 then c.(mepc := value)
    else if address == 0x342 then c.(mcause := value)
    else if address == 0x343 then c.(mtval := value)
    else c
  }

  predicate ReadOk(catalog: Catalog, w: Warp, r: CsrRead) {
    && r.address in catalog && r.scope == catalog[r.address].scope
    && (CsrReadValue(w, r.address).Some? ==> forall i | 0 <= i < |r.values| :: r.values[i] == CsrReadValue(w, r.address).value)
  }

  predicate ReadsOk(catalog: Catalog, w: Warp, rs: seq<CsrRead>) {
    forall i | 0 <= i < |rs| :: ReadOk(catalog, w, rs[i])
  }

  predicate IsFcsr(address: nat) {
    0x001 <= address <= 0x003
  }

  /** The write is this owner's; every other write is passed on. */
  predicate IsOwned(x: CsrWrite) {
    x.scope == WarpScope || (x.scope == ConstantScope && x.ignored)
  }

  predicate CsrEntryOk(catalog: Catalog, x: CsrWrite) {
    && x.address in catalog
    && var e := catalog[x.address];
       && x.scope == e.scope && x.writeMask == e.writeMask && x.ignored == e.writeIgnored
       && (e.writable || e.writeIgnored)
       && InMask(x.value, x.writeMask)
  }

  predicate CsrFresh(c: Csrs, x: CsrWrite) {
    IsOwned(x) ==>
      if CsrValue(c, x.address).Some? then x.oldValue == CsrValue(c, x.address).value
      else x.ignored && x.oldValue == 0 && x.value == 0
  }

  predicate CsrWritesOk(catalog: Catalog, c: Csrs, xs: seq<CsrWrite>) {
    && (forall i | 0 <= i < |xs| :: CsrEntryOk(catalog, xs[i]) && CsrFresh(c, xs[i]))
    && (forall i, j | 0 <= i < j < |xs| :: xs[i].address != xs[j].address && !(IsFcsr(xs[i].address) && IsFcsr(xs[j].address)))
  }

  function SetAll(c: Csrs, xs: seq<CsrWrite>): Csrs
    decreases |xs|
  {
    if xs == [] then c else SetAll(if IsOwned(xs[0]) then SetCsr(c, xs[0].address, xs[0].value) else c, xs[1..])
  }

  function Raise(c: Csrs, flags: Option<bv8>): Csrs {
    if flags.Some? then c.(fcsr := RaiseFlags(c.fcsr, flags.value)) else c
  }

  predicate FlagsOk(flags: Option<bv8>) {
    flags.Some? ==> flags.value & 0xe0 == 0
  }

  // ------------------------------------------------- control, masks, divergence, traps

  predicate ControlOk(w: Divergence.Warp, c: Control) {
    && c.current == w.pc && c.next % 4 == 0
    && var decides := c.decision < LANES && c.decision in w.mask;
       match c.reason
       case Sequential => !c.taken && c.next == Divergence.NextOf(c.current)
       case Branch => decides && c.next == (if c.taken then c.target else Divergence.NextOf(c.current))
       case Jump => decides && c.taken && c.next == c.target
       case TrapEntry => c.taken && c.next == c.target
       case TrapReturn => c.taken && c.next == c.target
       case Reconverge => decides && c.taken && c.next == c.target
  }

  /** A SPLIT or JOIN as the divergence stack sees it; None when its mask or control can never fit one. */
  function DivergenceView(e: Effects): Option<Divergence.Bundle>
    requires e.divergence.Some? && |e.masks| <= 1
  {
    if e.control.None? then None
    else if e.control.value.reason != Sequential && e.control.value.reason != Reconverge then None
    else if |e.masks| == 1 && e.masks[0].reason != SplitMask && e.masks[0].reason != JoinMask then None
    else
      var c := e.control.value;
      var mask := if |e.masks| == 0 then None
                  else Some(Divergence.MaskEffect(if e.masks[0].reason == SplitMask then Divergence.SplitMask else Divergence.JoinMask,
                                                  e.masks[0].mask, e.masks[0].active));
      Some(Divergence.Bundle(e.divergence.value, mask,
                             if c.reason == Sequential then Divergence.Sequential else Divergence.Reconverge(c.next, c.decision)))
  }

  predicate DivergenceOk(w: Divergence.Warp, e: Effects)
    requires |w.rows| == Divergence.DEPTH && |e.masks| <= 1
  {
    e.divergence.Some? ==> DivergenceView(e).Some? && Divergence.BundleOk(w, DivergenceView(e).value)
  }

  function AlignDown(v: nat): nat {
    v - v % 4
  }

  predicate TrapWritesMatch(xs: seq<CsrWrite>, t: Trap) {
    && |xs| == 3
    && (forall i, j | 0 <= i < j < 3 :: xs[i].address != xs[j].address)
    && forall i | 0 <= i < 3 ::
         && xs[i].scope == WarpScope
         && ( || (xs[i].address == 0x341 && xs[i].value == t.epc)
              || (xs[i].address == 0x342 && xs[i].value == t.cause)
              || (xs[i].address == 0x343 && xs[i].value == 0))
  }

  predicate TrapOk(w: Warp, e: Effects) {
    if e.trap.None? then e.control.Some? ==> e.control.value.reason != TrapEntry && e.control.value.reason != TrapReturn
    else
      var t := e.trap.value;
      && e.divergence.None? && e.masks == [] && e.writes == [] && e.flags.None?
      && Divergence.ValidMask(t.save) && Divergence.ValidMask(t.restore) && e.control.Some?
      && var c := e.control.value;
         if t.kind == Enter then
           var vector := AlignDown(w.csrs.mtvec);
           && c.reason == TrapEntry && t.epc == w.flow.pc && t.vector == vector && c.next == vector && c.target == vector
           && t.save == w.flow.mask && t.save != {} && !t.restores && t.restore == {}
           && TrapWritesMatch(e.csrs, t)
         else
           && c.reason == TrapReturn && t.epc == w.csrs.mepc && c.next == AlignDown(t.epc) && t.save == {} && e.csrs == []
           && (if t.restores then t.restore != {} && t.restore == w.saved else t.restore == {} && w.saved == {})
  }

  predicate MaskOk(e: Effects) {
    && |e.masks| <= 1
    && (|e.masks| == 1 ==>
          && Divergence.ValidMask(e.masks[0].mask) && e.masks[0].active == (e.masks[0].mask != {})
          && (e.divergence.None? ==>
                && (e.masks[0].reason == TmcMask || e.masks[0].reason == PredicateMask)
                && e.control.Some? && e.control.value.reason == Sequential))
    && (e.divergence.None? && e.control.Some? ==> e.control.value.reason != Reconverge)
  }

  predicate FlowOk(w: Warp, e: Effects)
    requires |w.flow.rows| == Divergence.DEPTH
  {
    MaskOk(e) && DivergenceOk(w.flow, e) && TrapOk(w, e) && (e.control.Some? ==> ControlOk(w.flow, e.control.value))
  }

  /** Mask, lifecycle and divergence stack after the bundle, before the PC moves. */
  function Turned(w: Divergence.Warp, e: Effects): Divergence.Warp
    requires |w.rows| == Divergence.DEPTH && |e.masks| <= 1 && DivergenceOk(w, e)
  {
    if e.divergence.Some? then Divergence.Applied(w, DivergenceView(e).value)
    else if |e.masks| == 1 then w.(mask := e.masks[0].mask, running := e.masks[0].active)
    else if e.trap.Some? && e.trap.value.kind == Return && e.trap.value.restores then w.(mask := e.trap.value.restore, running := true)
    else w
  }

  function FlowAfter(w: Divergence.Warp, e: Effects): Divergence.Warp
    requires |w.rows| == Divergence.DEPTH && |e.masks| <= 1 && DivergenceOk(w, e)
  {
    Turned(w, e).(pc := if e.control.Some? then e.control.value.next else w.pc)
  }

  function SavedAfter(w: Warp, e: Effects): Mask {
    if e.trap.Some? && e.trap.value.kind == Enter then e.trap.value.save else w.saved
  }

  // -------------------------------------------------------------- passing effects on

  predicate ForwardOk(f: Forward) {
    && (forall i | 0 <= i < |f.memory| :: f.memory[i] < LANES)
    && (f.ordering.Some? ==> f.ordering.value.0 < 16 && f.ordering.value.1 < 16)
    && (f.spawn.Some? ==> f.spawn.value % 4 == 0)
    && (forall i | 0 <= i < |f.barriers| :: f.barriers[i].addressWarp < 4 && f.barriers[i].id < 8 && f.barriers[i].kind != NoBarrier)
    && (forall i | 0 <= i < |f.packed| :: f.packed[i] < LANES)
    && (forall i | 0 <= i < |f.faults| :: f.faults[i] < LANES)
  }

  /** The bundle needs another owner's success. */
  predicate NeedsExternal(e: Effects) {
    var f := e.forward;
    || f.memory != [] || f.ordering.Some? || f.spawn.Some? || f.drains != [] || f.barriers != [] || f.packed != [] || f.faults != []
    || exists i :: 0 <= i < |e.csrs| && !IsOwned(e.csrs[i])
  }

  predicate MutatesLocally(e: Effects) {
    || e.writes != [] || e.control.Some? || e.flags.Some? || e.trap.Some? || e.masks != [] || e.divergence.Some?
    || exists i :: 0 <= i < |e.csrs| && IsOwned(e.csrs[i])
  }

  // -------------------------------------------------------------------- the stage

  /** Everything the owner checks, against the old image only. */
  predicate Stages(catalog: Catalog, w: Warp, e: Effects)
    requires |w.flow.rows| == Divergence.DEPTH
  {
    && ForwardOk(e.forward) && !(e.forward.faults != [] && MutatesLocally(e))
    && WritesOk(e.writes) && FlagsOk(e.flags) && ReadsOk(catalog, w, e.csrReads) && CsrWritesOk(catalog, w.csrs, e.csrs)
    && FlowOk(w, e)
  }

  /** The candidate: flags are raised before the software CSR writes. */
  function Staged(catalog: Catalog, w: Warp, e: Effects): (r: Warp)
    requires |w.flow.rows| == Divergence.DEPTH && Stages(catalog, w, e)
    ensures |r.flow.rows| == Divergence.DEPTH
  {
    Warp(w.id, FlowAfter(w.flow, e), SavedAfter(w, e), SetAll(Raise(w.csrs, e.flags), e.csrs), Written(w.registers, e.writes))
  }
}
