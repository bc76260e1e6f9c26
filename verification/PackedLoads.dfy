/**
 Packed loads (isa/custom.go): element responses assembled into one word per lane, all at
 once or one element's part at a time under a byte mask.
 */
module PackedLoads {
  import opened CacheTypes
  import opened WarpEffects
  import Divergence

  datatype Fault = NoFault | LoadFault | OtherFault

  datatype Response = Response(lane: nat, element: nat, width: nat, data: bv32, fault: Fault)

  datatype Outcome = Refused | Faulted(lanes: seq<nat>) | Loaded(writes: seq<RegisterWrite>, control: bool)

  /** Four bytes or two halves to a word. */
  function Packed(width: nat): nat {
    if width == 1 then 4 else 2
  }

  // ------------------------------------------------------------------- the bit fields

  function FieldMask(width: nat): bv32 {
    if width == 1 then 0xff else 0xffff
  }

  function Place(width: nat, element: nat, v: bv32): bv32 {
    if element == 0 then v
    else if width == 2 then v << 16
    else if element == 1 then v << 8
    else if element == 2 then v << 16
    else v << 24
  }

  function Shifted(width: nat, element: nat, data: bv32): bv32 {
    Place(width, element, data & FieldMask(width))
  }

  /** The byte mask of one element's part. */
  function PartMask(width: nat, element: nat): bv8 {
    if width == 2 then (if element == 0 then 3 else 12)
    else if element == 0 then 1 else if element == 1 then 2 else if element == 2 then 4 else 8
  }

  function ElementBits(width: nat, element: nat): bv32 {
    Bits(PartMask(width, element))
  }

  /** The bits of a word under a mask, and two words laid over each other. */
  function Field(v: bv32, m: bv32): bv32 {
    v & m
  }

  function Join(a: bv32, b: bv32): bv32 {
    a | b
  }

  lemma ElementField(width: nat, element: nat, data: bv32)
    requires (width == 1 || width == 2) && element < Packed(width)
    ensures Field(Shifted(width, element, data), ElementBits(width, element)) == Shifted(width, element, data)
  {
    FieldCases(width, element);
  }

  lemma FieldCases(width: nat, element: nat)
    requires (width == 1 || width == 2) && element < Packed(width)
    ensures ElementBits(width, element) == Place(width, element, FieldMask(width))
    ensures ElementBits(width, element) != 0
  {
  }

  lemma FieldsDisjoint(width: nat, i: nat, j: nat, data: bv32)
    requires (width == 1 || width == 2) && i < Packed(width) && j < Packed(width) && i != j
    ensures Field(Shifted(width, i, data), ElementBits(width, j)) == 0
  {
    FieldCases(width, j);
  }

  // ---------------------------------------------------------------------- completion

  predicate ResponseOk(width: nat, r: Response) {
    r.lane < LANES && r.element < Packed(width) && r.width == width && r.fault != OtherFault
  }

  function Key(r: Response): (nat, nat) {
    (r.lane, r.element)
  }

  predicate Distinct(rs: seq<Response>) {
    forall i, j | 0 <= i < j < |rs| :: Key(rs[i]) != Key(rs[j])
  }

  function Wanted(width: nat, expected: Mask, part: Option<nat>): set<(nat, nat)> {
    set l, e | 0 <= l < LANES && 0 <= e < Packed(width) && l in expected && (part.None? || part.value == e) :: (l, e)
  }

  function Keys(rs: seq<Response>): set<(nat, nat)> {
    set i | 0 <= i < |rs| :: Key(rs[i])
  }

  /** The responses are good ones for exactly the lanes and elements wanted. */
  predicate Covered(width: nat, expected: Mask, part: Option<nat>, rs: seq<Response>) {
    && (width == 1 || width == 2) && Divergence.ValidMask(expected)
    && (part.Some? ==> part.value < Packed(width))
    && AllOk(width, rs) && Distinct(rs)
    && Keys(rs) == Wanted(width, expected, part)
  }

  function Faults(rs: seq<Response>): seq<nat>
    decreases |rs|
  {
    if rs == [] then [] else Faults(rs[..|rs| - 1]) + (if rs[|rs| - 1].fault == LoadFault then [rs[|rs| - 1].lane] else [])
  }

  /** One lane's word: its elements' fields put together. */
  function Assembled(width: nat, rs: seq<Response>, lane: nat): bv32
    decreases |rs|
  {
    if rs == [] then 0
    else
      var last := rs[|rs| - 1];
      var sofar := Assembled(width, rs[..|rs| - 1], lane);
      if last.lane == lane && last.fault == NoFault then Join(sofar, Shifted(width, last.element, last.data)) else sofar
  }

  function Values(width: nat, rs: seq<Response>): seq<bv32> {
    [Assembled(width, rs, 0), Assembled(width, rs, 1), Assembled(width, rs, 2), Assembled(width, rs, 3)]
  }

  function PartWrite(width: nat, destination: Register, expected: Mask, part: Option<nat>, rs: seq<Response>): RegisterWrite {
    RegisterWrite(destination, expected, if part.None? then 0 else PartMask(width, part.value), Values(width, rs))
  }

  function Completed(width: nat, destination: Register, expected: Mask, part: Option<nat>, rs: seq<Response>): Outcome {
    if !Covered(width, expected, part, rs) then Refused
    else if Faults(rs) != [] then Faulted(Faults(rs))
    else Loaded(if expected == {} then [] else [PartWrite(width, destination, expected, part, rs)], part.None?)
  }

  predicate AllOk(width: nat, rs: seq<Response>) {
    forall i | 0 <= i < |rs| :: ResponseOk(width, rs[i])
  }

  /** One more response. */
  lemma Appended(width: nat, rs: seq<Response>, r: Response)
    ensures Distinct(rs + [r]) <==> Distinct(rs) && Key(r) !in Keys(rs)
    ensures Keys(rs + [r]) == Keys(rs) + {Key(r)}
    ensures Faults(rs + [r]) == Faults(rs) + if r.fault == LoadFault then [r.lane] else []
    ensures AllOk(width, rs + [r]) <==> AllOk(width, rs) && ResponseOk(width, r)
  {
    var next := rs + [r];
    assert next[..|rs|] == rs && next[|rs|] == r;
    assert forall k | 0 <= k < |rs| :: next[k] == rs[k];
    if Distinct(rs) && Key(r) !in Keys(rs) {
      forall i, j | 0 <= i < j < |next| ensures Key(next[i]) != Key(next[j]) {
        assert j < |rs| ==> Key(rs[i]) != Key(rs[j]);
        assert Key(rs[i]) in Keys(rs);
      }
    }
    if Distinct(next) {
      assert forall i, j | 0 <= i < j < |rs| :: Key(next[i]) != Key(next[j]);
      assert forall i | 0 <= i < |rs| :: Key(next[i]) != Key(next[|rs|]);
    }
  }

  lemma AssembledAppended(width: nat, rs: seq<Response>, r: Response, l: nat)
    ensures Assembled(width, rs + [r], l) ==
            if r.lane == l && r.fault == NoFault then Join(Assembled(width, rs, l), Shifted(width, r.element, r.data))
            else Assembled(width, rs, l)
  {
    hide Join, Shifted;
    assert (rs + [r])[..|rs|] == rs;
  }

  lemma OkPrefix(width: nat, rs: seq<Response>, i: nat)
    requires i <= |rs|
    ensures AllOk(width, rs) && Distinct(rs) ==> AllOk(width, rs[..i]) && Distinct(rs[..i])
  {
  }

  /** The response loop: each (lane, element) once, good data put in its field, faults collected. */
  method Collect(width: nat, rs: seq<Response>) returns (ok: bool, seen: set<(nat, nat)>, values: seq<bv32>, faults: seq<nat>)
    requires width == 1 || width == 2
    ensures ok == (AllOk(width, rs) && Distinct(rs))
    ensures ok ==> seen == Keys(rs) && values == Values(width, rs) && faults == Faults(rs)
  {
    hide Shifted, Join, AllOk, Distinct, Keys, Faults, Assembled;
    seen, values, faults := {}, [0, 0, 0, 0], [];
    Blank(width);
    var i := 0;
    while i < |rs|
      invariant i <= |rs| && AllOk(width, rs[..i]) && Distinct(rs[..i])
      invariant seen == Keys(rs[..i]) && faults == Faults(rs[..i])
      invariant |values| == LANES && forall l | 0 <= l < LANES :: values[l] == Assembled(width, rs[..i], l)
    {
      var r := rs[i];
      assert rs[..i + 1] == rs[..i] + [r];
      Appended(width, rs[..i], r);
      if !(r.lane < LANES && r.element < Packed(width) && r.width == width) || (r.lane, r.element) in seen || r.fault == OtherFault {
        OkPrefix(width, rs, i + 1);
        ok := false;
        return;
      }
      seen := seen + {(r.lane, r.element)};
      forall l | 0 <= l < LANES { AssembledAppended(width, rs[..i], r, l); }
      if r.fault == LoadFault {
        faults := faults + [r.lane];
      } else {
        values := values[r.lane := Join(values[r.lane], Shifted(width, r.element, r.data))];
      }
      i := i + 1;
    }
    assert rs[..i] == rs;
    ok := true;
  }

  lemma Blank(width: nat)
    ensures AllOk(width, []) && Distinct([]) && Keys([]) == {} && Faults([]) == []
    ensures forall l: nat :: Assembled(width, [], l) == 0
  {
  }

  /** The whole completion; with a part, one element of every lane and no control. */
  method CompletePackedLoad(width: nat, destination: Register, expected: Mask, part: Option<nat>, rs: seq<Response>)
    returns (r: Outcome)
    ensures r == Completed(width, destination, expected, part, rs)
  {
    if !(width == 1 || width == 2) || !Divergence.ValidMask(expected) || (part.Some? && part.value >= Packed(width)) {
      return Refused;
    }
    var ok, seen, values, faults := Collect(width, rs);
    if !ok {
      return Refused;
    }
    if seen != Wanted(width, expected, part) {
      return Refused;
    }
    if faults != [] {
      return Faulted(faults);
    }
    if expected == {} {
      return Loaded([], part.None?);
    }
    r := Loaded([RegisterWrite(destination, expected, if part.None? then 0 else PartMask(width, part.value), values)], part.None?);
  }

  // ------------------------------------------------------------- parts make the whole

  /** The memory's answer for one lane and element. */
  ghost predicate Answers(rs: seq<Response>, lane: nat, element: nat, data: bv32) {
    exists i :: 0 <= i < |rs| && rs[i].lane == lane && rs[i].element == element && rs[i].fault == NoFault && rs[i].data == data
  }

  /** Nothing answered for the element leaves its field clear. */
  lemma {:induction false} FieldClear(width: nat, rs: seq<Response>, lane: nat, element: nat)
    requires (width == 1 || width == 2) && element < Packed(width)
    requires forall i | 0 <= i < |rs| :: ResponseOk(width, rs[i]) && Key(rs[i]) != (lane, element)
    ensures Field(Assembled(width, rs, lane), ElementBits(width, element)) == 0
    decreases |rs|
  {
    hide Shifted, ElementBits, Field, Join;
    JoinZero(ElementBits(width, element));
    if rs != [] {
      var last := rs[|rs| - 1];
      FieldClear(width, rs[..|rs| - 1], lane, element);
      if last.lane == lane {
        assert Key(last) != (lane, element);
        FieldsDisjoint(width, last.element, element, last.data);
        FieldJoin(Assembled(width, rs[..|rs| - 1], lane), Shifted(width, last.element, last.data), ElementBits(width, element));
        JoinZero(0);
      }
    }
  }

  lemma FieldJoin(a: bv32, b: bv32, m: bv32)
    ensures Field(Join(a, b), m) == Join(Field(a, m), Field(b, m))
  {
  }

  /** The word's field for an element is the element's own answer. */
  lemma {:induction false} FieldHolds(width: nat, rs: seq<Response>, lane: nat, element: nat, data: bv32)
    requires (width == 1 || width == 2) && element < Packed(width)
    requires (forall i | 0 <= i < |rs| :: ResponseOk(width, rs[i])) && Distinct(rs) && Answers(rs, lane, element, data)
    ensures Field(Assembled(width, rs, lane), ElementBits(width, element)) == Shifted(width, element, data)
    decreases |rs|
  {
    hide Shifted, ElementBits, Field, Join;
    var last, front := rs[|rs| - 1], rs[..|rs| - 1];
    var i :| 0 <= i < |rs| && rs[i].lane == lane && rs[i].element == element && rs[i].fault == NoFault && rs[i].data == data;
    var m := ElementBits(width, element);
    if i == |rs| - 1 {
      forall k | 0 <= k < |front| ensures Key(front[k]) != (lane, element) {
        assert Key(rs[k]) != Key(rs[i]);
      }
      FieldClear(width, front, lane, element);
      ElementField(width, element, data);
      FieldJoin(Assembled(width, front, lane), Shifted(width, element, data), m);
      JoinZero(Shifted(width, element, data));
    } else {
      assert front[i] == rs[i];
      FieldHolds(width, front, lane, element, data);
      if last.lane == lane {
        assert Key(rs[i]) != Key(last);
        FieldsDisjoint(width, last.element, element, last.data);
        FieldJoin(Assembled(width, front, lane), Shifted(width, last.element, last.data), m);
        JoinZero(Shifted(width, element, data));
      }
    }
  }

  lemma JoinZero(a: bv32)
    ensures Join(a, 0) == a && Join(0, a) == a && Field(a, 0) == 0 && Field(0, a) == 0
  {
  }

  /** The bits of the elements in a list. */
  function Union(width: nat, order: seq<nat>): bv32
    decreases |order|
  {
    if order == [] then 0 else Join(ElementBits(width, order[0]), Union(width, order[1..]))
  }

  function MergeAll(before: bv32, width: nat, order: seq<nat>, words: seq<bv32>): bv32
    requires forall i | 0 <= i < |order| :: order[i] < |words|
    decreases |order|
  {
    if order == [] then before else MergeAll(Merge(before, words[order[0]], ElementBits(width, order[0])), width, order[1..], words)
  }

  lemma FieldOfMerge(before: bv32, v: bv32, m: bv32, d: bv32)
    ensures Field(Merge(before, v, m), d) == Join(Field(Field(before, d), !m), Field(Field(v, m), d))
  {
  }

  lemma FieldsSwap(v: bv32, m: bv32, d: bv32)
    ensures Field(Field(v, m), d) == Field(Field(v, d), m)
  {
  }

  lemma FieldHalves(v: bv32, m: bv32)
    ensures Join(Field(v, !m), Field(v, m)) == v
  {
  }

  lemma FieldOver(full: bv32, m: bv32, d: bv32)
    ensures Field(full, Join(d, m)) == Join(Field(full, d), Field(full, m))
  {
  }

  lemma MergeField(before: bv32, v: bv32, m: bv32)
    ensures Field(Merge(before, v, m), m) == Field(v, m)
  {
  }

  lemma MergeStep(before: bv32, v: bv32, full: bv32, m: bv32, done: bv32)
    requires Field(v, m) == Field(full, m) && Field(before, done) == Field(full, done)
    ensures Field(Merge(before, v, m), Join(done, m)) == Field(full, Join(done, m))
  {
    hide Field, Join, Merge;
    FieldOfMerge(before, v, m, done);
    FieldsSwap(full, m, done);
    FieldHalves(Field(full, done), m);
    MergeField(before, v, m);
    FieldOver(full, m, done);
    FieldOver(Merge(before, v, m), m, done);
  }

  /** What has been merged agrees with the full word on every field merged. */
  lemma {:induction false} MergedAgrees(before: bv32, width: nat, order: seq<nat>, words: seq<bv32>, full: bv32, done: bv32)
    requires forall i | 0 <= i < |order| :: order[i] < |words|
    requires forall e | 0 <= e < |words| :: Field(words[e], ElementBits(width, e)) == Field(full, ElementBits(width, e))
    requires Field(before, done) == Field(full, done)
    ensures Field(MergeAll(before, width, order, words), Join(done, Union(width, order))) == Field(full, Join(done, Union(width, order)))
    decreases |order|
  {
    hide ElementBits, Merge, Field, Join;
    if order == [] {
      JoinZero(done);
    } else {
      var m := ElementBits(width, order[0]);
      MergeStep(before, words[order[0]], full, m, done);
      MergedAgrees(Merge(before, words[order[0]], m), width, order[1..], words, full, Join(done, m));
      JoinAssociates(done, m, Union(width, order[1..]));
    }
  }

  lemma JoinAssociates(a: bv32, b: bv32, c: bv32)
    ensures Join(Join(a, b), c) == Join(a, Join(b, c))
  {
  }

  lemma {:induction false} UnionHolds(width: nat, order: seq<nat>, k: nat)
    requires k < |order|
    ensures Field(Union(width, order), ElementBits(width, order[k])) == ElementBits(width, order[k])
    decreases |order|
  {
    hide ElementBits, Field, Join;
    var m, rest := ElementBits(width, order[k]), Union(width, order[1..]);
    if k > 0 {
      UnionHolds(width, order[1..], k - 1);
    }
    FieldJoin(ElementBits(width, order[0]), rest, m);
    Absorb(ElementBits(width, order[0]), rest, m);
  }

  lemma Absorb(a: bv32, b: bv32, m: bv32)
    requires a == m || Field(b, m) == m
    ensures Join(Field(a, m), Field(b, m)) == m
  {
  }

  /** All elements together select every bit. */
  lemma AllBits(width: nat, order: seq<nat>)
    requires (width == 1 || width == 2) && forall e | 0 <= e < Packed(width) :: e in order
    ensures Union(width, order) == 0xffff_ffff
  {
    var u := Union(width, order);
    forall e | 0 <= e < Packed(width) ensures Field(u, ElementBits(width, e)) == ElementBits(width, e) {
      assert e in order;
      var k :| 0 <= k < |order| && order[k] == e;
      UnionHolds(width, order, k);
    }
    FourFields(u);
    if width == 1 {
      assert ElementBits(1, 0) == 0xff && ElementBits(1, 1) == 0xff00 && ElementBits(1, 2) == 0xff_0000 && ElementBits(1, 3) == 0xff00_0000;
    } else {
      assert ElementBits(2, 0) == 0xffff && ElementBits(2, 1) == 0xffff_0000;
    }
  }

  lemma FourFields(u: bv32)
    ensures u & 0xff == 0xff && u & 0xff00 == 0xff00 && u & 0xff_0000 == 0xff_0000 && u & 0xff00_0000 == 0xff00_0000 ==> u == 0xffff_ffff
    ensures u & 0xffff == 0xffff && u & 0xffff_0000 == 0xffff_0000 ==> u == 0xffff_ffff
  {
  }

  /** Merging every element's part, in any order, leaves the full word whatever the register held. */
  lemma PartsMergeToWord(before: bv32, width: nat, order: seq<nat>, words: seq<bv32>, full: bv32)
    requires (width == 1 || width == 2) && |words| == Packed(width)
    requires (forall i | 0 <= i < |order| :: order[i] < |words|) && forall e | 0 <= e < Packed(width) :: e in order
    requires forall e | 0 <= e < |words| :: Field(words[e], ElementBits(width, e)) == Field(full, ElementBits(width, e))
    ensures MergeAll(before, width, order, words) == full
  {
    hide ElementBits, MergeAll, Union, Field, Join;
    JoinZero(before);
    JoinZero(full);
    MergedAgrees(before, width, order, words, full, 0);
    AllBits(width, order);
    JoinZero(Union(width, order));
    Saturated(MergeAll(before, width, order, words), full);
  }

  lemma Saturated(a: bv32, b: bv32)
    requires Field(a, 0xffff_ffff) == Field(b, 0xffff_ffff)
    ensures a == b
  {
  }

  // --------------------------------------------------------------- on the register file

  /** The parts' writes, one element after the other. */
  function PartsWritten(registers: map<Cell, bv32>, order: seq<nat>, ws: seq<RegisterWrite>): map<Cell, bv32>
    requires (forall e | 0 <= e < |ws| :: WriteOk(ws[e])) && forall i | 0 <= i < |order| :: order[i] < |ws|
    decreases |order|
  {
    if order == [] then registers else PartsWritten(WriteOne(registers, ws[order[0]]), order[1..], ws)
  }

  function LaneOf(w: RegisterWrite, lane: nat): bv32
    requires lane < LANES && WriteOk(w)
  {
    w.values[lane]
  }

  /** One lane's words, element by element. */
  function LaneWords(ws: seq<RegisterWrite>, lane: nat): seq<bv32>
    requires lane < LANES && forall e | 0 <= e < |ws| :: WriteOk(ws[e])
  {
    seq(|ws|, e requires 0 <= e < |ws| => LaneOf(ws[e], lane))
  }

  ghost predicate AreParts(width: nat, destination: Register, expected: Mask, ws: seq<RegisterWrite>) {
    && |ws| == Packed(width)
    && forall e | 0 <= e < |ws| ::
         WriteOk(ws[e]) && ws[e].destination == destination && ws[e].mask == expected && ws[e].byteMask == PartMask(width, e)
  }

  lemma {:induction false} PartsWrittenMeans(registers: map<Cell, bv32>, width: nat, order: seq<nat>, ws: seq<RegisterWrite>,
                                             destination: Register, expected: Mask, c: Cell)
    requires AreParts(width, destination, expected, ws) && (forall i | 0 <= i < |order| :: order[i] < |ws|)
    requires c in registers && c.lane < LANES
    ensures PartsWritten(registers, order, ws).Keys == registers.Keys
    ensures PartsWritten(registers, order, ws)[c] ==
            if c.register == destination && c.lane in expected && destination != Register(Integer, 0)
            then MergeAll(registers[c], width, order, LaneWords(ws, c.lane)) else registers[c]
    decreases |order|
  {
    hide Merge, Bits;
    if order != [] {
      var next := WriteOne(registers, ws[order[0]]);
      assert next.Keys == registers.Keys;
      PartsWrittenMeans(next, width, order[1..], ws, destination, expected, c);
    }
  }

  /**
   A packed load whose elements come back separately: whatever order their parts are
   written in, the registers end as the whole load's one write leaves them, given that
   the parts and the whole carry the same answers.
   */
  lemma PartsLoadWhole(registers: map<Cell, bv32>, width: nat, destination: Register, expected: Mask,
                       whole: seq<Response>, parts: seq<seq<Response>>, ws: seq<RegisterWrite>, full: RegisterWrite, order: seq<nat>)
    requires (forall c | c in registers :: c.lane < LANES) && destination.file == Float && destination.index < REGISTERS && expected != {}
    requires Completed(width, destination, expected, None, whole) == Loaded([full], true)
    requires |parts| == Packed(width) && |ws| == Packed(width)
    requires forall e | 0 <= e < |parts| :: Completed(width, destination, expected, Some(e), parts[e]) == Loaded([ws[e]], false)
    requires forall e, l | 0 <= e < |parts| && l in expected :: SameAnswer(whole, parts[e], l, e)
    requires (forall i | 0 <= i < |order| :: order[i] < |parts|) && forall e | 0 <= e < Packed(width) :: e in order
    ensures AreParts(width, destination, expected, ws) && WriteOk(full)
    ensures PartsWritten(registers, order, ws) == WriteOne(registers, full)
  {
    hide Completed, ElementBits, Merge, Bits, MergeAll, Covered, SameAnswer, Field, Join, Assembled, PartsWritten;
    WholeWrites(width, destination, expected, whole, full);
    forall e | 0 <= e < |parts| ensures ws[e] == PartWrite(width, destination, expected, Some(e), parts[e]) && WriteOk(ws[e]) {
      PartWrites(width, destination, expected, e, parts[e], ws[e]);
    }
    var after := PartsWritten(registers, order, ws);
    forall c | c in registers ensures c in after && after[c] == WriteOne(registers, full)[c] {
      PartsWrittenMeans(registers, width, order, ws, destination, expected, c);
      if c.register == destination && c.lane in expected {
        CellMerges(registers[c], width, destination, expected, whole, parts, ws, full, order, c.lane);
      }
    }
    if registers == map[] {
      EmptyParts(order, ws);
    } else {
      var c :| c in registers;
      PartsWrittenMeans(registers, width, order, ws, destination, expected, c);
    }
    assert after.Keys == registers.Keys;
  }

  lemma {:induction false} EmptyParts(order: seq<nat>, ws: seq<RegisterWrite>)
    requires (forall e | 0 <= e < |ws| :: WriteOk(ws[e])) && forall i | 0 <= i < |order| :: order[i] < |ws|
    ensures PartsWritten(map[], order, ws) == map[]
    decreases |order|
  {
    if order != [] {
      assert WriteOne(map[], ws[order[0]]) == map[];
      EmptyParts(order[1..], ws);
    }
  }

  /** Both answer the lane's element with the same data. */
  ghost predicate SameAnswer(whole: seq<Response>, part: seq<Response>, lane: nat, element: nat) {
    exists data :: Answers(whole, lane, element, data) && Answers(part, lane, element, data)
  }

  lemma WholeWrites(width: nat, destination: Register, expected: Mask, rs: seq<Response>, w: RegisterWrite)
    requires destination.index < REGISTERS && Completed(width, destination, expected, None, rs) == Loaded([w], true)
    ensures w == PartWrite(width, destination, expected, None, rs) && Covered(width, expected, None, rs) && WriteOk(w)
  {
  }

  lemma PartWrites(width: nat, destination: Register, expected: Mask, e: nat, rs: seq<Response>, w: RegisterWrite)
    requires destination.index < REGISTERS && Completed(width, destination, expected, Some(e), rs) == Loaded([w], false)
    ensures w == PartWrite(width, destination, expected, Some(e), rs) && Covered(width, expected, Some(e), rs) && WriteOk(w)
  {
    hide Assembled;
  }

  lemma CellMerges(before: bv32, width: nat, destination: Register, expected: Mask, whole: seq<Response>,
                   parts: seq<seq<Response>>, ws: seq<RegisterWrite>, full: RegisterWrite, order: seq<nat>, lane: nat)
    requires destination.index < REGISTERS && lane in expected && lane < LANES
    requires Covered(width, expected, None, whole) && full == PartWrite(width, destination, expected, None, whole) && WriteOk(full)
    requires |parts| == Packed(width) && AreParts(width, destination, expected, ws)
    requires forall e | 0 <= e < |parts| ::
               Completed(width, destination, expected, Some(e), parts[e]) == Loaded([ws[e]], false)
    requires forall e, l | 0 <= e < |parts| && l in expected :: SameAnswer(whole, parts[e], l, e)
    requires (forall i | 0 <= i < |order| :: order[i] < |parts|) && forall e | 0 <= e < Packed(width) :: e in order
    ensures MergeAll(before, width, order, LaneWords(ws, lane)) == Merge(before, full.values[lane], Bits(full.byteMask))
  {
    hide Completed, ElementBits, MergeAll, Merge, Bits, Assembled, Shifted, Field, Join, WriteOk;
    var words := LaneWords(ws, lane);
    var word := Assembled(width, whole, lane);
    assert full.values[lane] == word;
    forall e | 0 <= e < |words| ensures Field(words[e], ElementBits(width, e)) == Field(word, ElementBits(width, e)) {
      assert SameAnswer(whole, parts[e], lane, e);
      var data :| Answers(whole, lane, e, data) && Answers(parts[e], lane, e, data);
      PartWrites(width, destination, expected, e, parts[e], ws[e]);
      assert words[e] == Assembled(width, parts[e], lane);
      FieldHolds(width, whole, lane, e, data);
      FieldHolds(width, parts[e], lane, e, data);
    }
    PartsMergeToWord(before, width, order, words, word);
    WholeWordMerge(before, word);
  }

  lemma WholeWordMerge(before: bv32, v: bv32)
    ensures Merge(before, v, Bits(0)) == v
  {
    assert Bits(0) == 0xffff_ffff;
  }
}
