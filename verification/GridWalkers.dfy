/**
 Kernel launch (emu/device/launch.go): the validator that normalizes a launch, and
 the walker that generates its CTAs cluster by cluster with X the fastest axis at
 both levels.
 */
module GridWalkers {
  import opened Arithmetic
  import opened CacheTypes

  const WORD_SPACE: nat := 0x1_0000_0000
  const LONG_SPACE: nat := 0x1_0000_0000_0000_0000
  const WARPS: nat := 4
  const LANES: nat := 4
  const LOCAL_MEMORY: nat := 16384
  const BLOCK_BYTES: nat := 64

  type Word = x: nat | x < WORD_SPACE

  /** One value per axis. */
  type Triple = s: seq<nat> | |s| == 3 && forall i | 0 <= i < 3 :: s[i] < WORD_SPACE witness [0, 0, 0]

  const ORIGIN: Triple := [0, 0, 0]

  // ------------------------------------------------------------- mixed radix

  type Radix = d: nat | d > 0 witness 1

  function Product(rs: seq<Radix>): nat {
    if rs == [] then 1 else rs[0] * Product(rs[1..])
  }

  predicate Digital(ds: seq<nat>, rs: seq<Radix>) {
    |ds| == |rs| && forall i | 0 <= i < |ds| :: ds[i] < rs[i]
  }

  function Quotient(n: nat, d: Radix): nat {
    n / d
  }

  function Remainder(n: nat, d: Radix): nat {
    n % d
  }

  /** The mixed-radix digits of `n`, least significant first; the last digit wraps. */
  function Digits(n: nat, rs: seq<Radix>): (ds: seq<nat>)
    ensures |ds| == |rs|
    decreases rs
  {
    if rs == [] then [] else [Remainder(n, rs[0])] + Digits(Quotient(n, rs[0]), rs[1..])
  }

  function Value(ds: seq<nat>, rs: seq<Radix>): nat
    requires |ds| == |rs|
  {
    if rs == [] then 0 else ds[0] + rs[0] * Value(ds[1..], rs[1..])
  }

  /** Adds one: the first digit with room grows, the digits before it restart. */
  function Increment(ds: seq<nat>, rs: seq<Radix>): (r: seq<nat>)
    requires |ds| == |rs|
    ensures |r| == |rs|
  {
    if rs == [] then []
    else if ds[0] + 1 < rs[0] then [ds[0] + 1] + ds[1..]
    else [0] + Increment(ds[1..], rs[1..])
  }

  lemma {:induction false} DigitsFit(n: nat, rs: seq<Radix>)
    ensures Digital(Digits(n, rs), rs)
    decreases rs
  {
    hide Quotient, Remainder;
    if rs != [] {
      DivisionMeans(n, rs[0]);
      DigitsFit(Quotient(n, rs[0]), rs[1..]);
    }
  }

  lemma DivisionMeans(n: nat, d: Radix)
    ensures n == d * Quotient(n, d) + Remainder(n, d) && Remainder(n, d) < d
  {
  }

  lemma DivisionIs(n: nat, d: nat, q: nat, r: nat)
    requires r < d && n == d * q + r
    ensures Quotient(n, d) == q && Remainder(n, d) == r
  {
    Commute(d, q);
    DivUnique(n, d, q, r);
  }

  lemma StepDivision(n: nat, d: Radix)
    ensures var q, r := Quotient(n, d), Remainder(n, d);
            if r + 1 < d then Remainder(n + 1, d) == r + 1 && Quotient(n + 1, d) == q
            else Remainder(n + 1, d) == 0 && Quotient(n + 1, d) == q + 1
  {
    hide Quotient, Remainder;
    var q, r := Quotient(n, d), Remainder(n, d);
    DivisionMeans(n, d);
    if r + 1 < d {
      DivisionIs(n + 1, d, q, r + 1);
    } else {
      assert d * (q + 1) == d * q + d;
      DivisionIs(n + 1, d, q + 1, 0);
    }
  }

  /** Counting up is adding one to the digits. */
  lemma {:induction false} IncrementDigits(n: nat, rs: seq<Radix>)
    ensures Increment(Digits(n, rs), rs) == Digits(n + 1, rs)
    decreases rs
  {
    if rs != [] {
      hide Quotient, Remainder;
      var d, rest := rs[0], rs[1..];
      StepDivision(n, d);
      assert Digits(n, rs)[1..] == Digits(Quotient(n, d), rest);
      IncrementDigits(Quotient(n, d), rest);
    }
  }

  lemma QuotientFits(n: nat, d: nat, p: nat)
    requires d > 0 && n < d * p
    ensures Quotient(n, d) < p
  {
    hide Quotient, Remainder;
    DivisionMeans(n, d);
    var q := Quotient(n, d);
    if q >= p {
      ProductMonotone(p, q, d);
      Commute(d, p);
      Commute(d, q);
    }
  }

  lemma {:induction false} ValueDigits(n: nat, rs: seq<Radix>)
    requires n < Product(rs)
    ensures Value(Digits(n, rs), rs) == n
    decreases rs
  {
    if rs != [] {
      hide Quotient, Remainder;
      var d, rest := rs[0], rs[1..];
      var q := Quotient(n, d);
      DivisionMeans(n, d);
      QuotientFits(n, d, Product(rest));
      assert Digits(n, rs)[1..] == Digits(q, rest);
      ValueDigits(q, rest);
    }
  }

  lemma {:induction false} DigitsValue(ds: seq<nat>, rs: seq<Radix>)
    requires Digital(ds, rs)
    ensures Value(ds, rs) < Product(rs) && Digits(Value(ds, rs), rs) == ds
  {
    if rs != [] {
      hide Quotient, Remainder;
      var d, rest := rs[0], rs[1..];
      var v := Value(ds[1..], rest);
      DigitsValue(ds[1..], rest);
      DigitBound(v, Product(rest), ds[0], d);
      Commute(v, d);
      Commute(Product(rest), d);
      DivisionIs(d * v + ds[0], d, v, ds[0]);
      assert Digits(Value(ds, rs), rs) == [ds[0]] + ds[1..];
    }
  }

  // -------------------------------------------------------------------- launch

  /** A launch as requested, with the values the validator derives. */
  datatype Launch = Launch(startupPC: Word, kernelEntryPC: Word, parameterAddress: Word,
                           grid: Triple, block: Triple, blockSize: Word, warpStep: Triple,
                           localMemory: Word, cluster: Triple, derived: Derived)

  datatype Derived = Derived(blockVolume: Word, warpsPerCTA: Word, alignedLocalMemory: Word, clusterSize: Word,
                             clusterWarps: Word, clusterLocalMemory: Word, residentCapacity: Word, totalCTAs: Word)

  function Volume(t: Triple): nat {
    t[0] * t[1] * t[2]
  }

  function WarpsFor(blockSize: nat): nat {
    (blockSize + LANES - 1) / LANES
  }

  /** Rounds up to whole memory blocks. */
  function AlignUp(bytes: nat): nat {
    (bytes + BLOCK_BYTES - 1) / BLOCK_BYTES * BLOCK_BYTES
  }

  function Capacity(warps: nat, aligned: nat): nat
    requires warps > 0
  {
    var byWarps := WARPS / warps;
    var byMemory := if aligned == 0 || LOCAL_MEMORY / aligned > WARPS then WARPS else LOCAL_MEMORY / aligned;
    if byWarps < byMemory then byWarps else byMemory
  }

  predicate EmptyGrid(l: Launch) {
    l.grid[0] == 0 || l.grid[1] == 0 || l.grid[2] == 0
  }

  predicate AxisOk(l: Launch, axis: nat)
    requires axis < 3
  {
    0 < l.block[axis] <= 31 && l.warpStep[axis] <= 15 && 0 < l.cluster[axis] <= 7
  }

  /** What a launch must satisfy apart from the derived values it may carry. */
  predicate ResourcesOk(l: Launch) {
    && l.startupPC % 4 == 0 && l.kernelEntryPC % 4 == 0
    && AxisOk(l, 0) && AxisOk(l, 1) && AxisOk(l, 2)
    && 0 < l.blockSize <= WARPS * LANES
    && l.localMemory <= LOCAL_MEMORY
    && Volume(l.cluster) * WarpsFor(l.blockSize) <= WARPS
    && Volume(l.cluster) * AlignUp(l.localMemory) <= LOCAL_MEMORY
    && (!EmptyGrid(l) ==>
          && l.grid[0] % l.cluster[0] == 0 && l.grid[1] % l.cluster[1] == 0 && l.grid[2] % l.cluster[2] == 0
          && Volume(l.grid) < WORD_SPACE)
  }

  function Derive(l: Launch): (d: Derived)
    requires ResourcesOk(l)
  {
    DerivedFit(l);
    var warps, aligned, size := WarpsFor(l.blockSize), AlignUp(l.localMemory), Volume(l.cluster);
    Derived(Volume(l.block), warps, aligned, size, size * warps, size * aligned, Capacity(warps, aligned),
            if EmptyGrid(l) then 0 else Volume(l.grid))
  }

  lemma DerivedFit(l: Launch)
    requires ResourcesOk(l)
    ensures 0 < Volume(l.block) < WORD_SPACE && 0 < Volume(l.cluster) <= WARPS && 0 < WarpsFor(l.blockSize) <= WARPS
    ensures AlignUp(l.localMemory) <= LOCAL_MEMORY && Capacity(WarpsFor(l.blockSize), AlignUp(l.localMemory)) <= WARPS
  {
    VolumeBound(l.block, 31);
    VolumePositive(l.cluster);
    var s, w := Volume(l.cluster), WarpsFor(l.blockSize);
    ProductMonotone(1, w, s);
    Commute(s, w);
  }

  lemma VolumeBound(t: Triple, m: nat)
    requires 0 < t[0] <= m && 0 < t[1] <= m && 0 < t[2] <= m
    ensures 0 < Volume(t) <= m * m * m
  {
    VolumePositive(t);
    ProductMonotone(t[0], m, t[1]);
    ProductMonotone(t[1], m, m);
    Commute(m, t[1]);
    ProductMonotone(t[0] * t[1], m * m, t[2]);
    ProductMonotone(t[2], m, m * m);
    Commute(t[2], m * m);
    Commute(m, m * m);
  }

  lemma VolumePositive(t: Triple)
    requires t[0] > 0 && t[1] > 0 && t[2] > 0
    ensures Volume(t) > 0
  {
    ProductMonotone(1, t[0], t[1]);
    ProductMonotone(1, t[0] * t[1], t[2]);
  }

  predicate Agrees(given: Word, computed: Word) {
    given == 0 || given == computed
  }

  /** Every derived value the caller supplied is zero or right. */
  predicate DerivedOk(given: Derived, d: Derived) {
    && Agrees(given.blockVolume, d.blockVolume) && Agrees(given.warpsPerCTA, d.warpsPerCTA)
    && Agrees(given.alignedLocalMemory, d.alignedLocalMemory) && Agrees(given.clusterSize, d.clusterSize)
    && Agrees(given.clusterWarps, d.clusterWarps) && Agrees(given.clusterLocalMemory, d.clusterLocalMemory)
    && Agrees(given.residentCapacity, d.residentCapacity) && Agrees(given.totalCTAs, d.totalCTAs)
  }

  /** The source's 64-bit multiplication with its overflow check. */
  method CheckedMultiply(left: nat, right: nat) returns (ok: bool, product: nat)
    ensures ok <==> left * right < LONG_SPACE
    ensures ok ==> product == left * right
  {
    if left != 0 && right > (LONG_SPACE - 1) / left {
      OverflowMeans(left, right);
      return false, 0;
    }
    if left != 0 {
      OverflowMeans(left, right);
    }
    return true, left * right;
  }

  lemma OverflowMeans(left: nat, right: nat)
    requires left > 0
    ensures right > (LONG_SPACE - 1) / left <==> left * right >= LONG_SPACE
  {
    var q, r := (LONG_SPACE - 1) / left, (LONG_SPACE - 1) % left;
    assert LONG_SPACE - 1 == left * q + r;
    Commute(left, right);
    Commute(left, q);
    if right > q {
      ProductMonotone(q + 1, right, left);
      assert (q + 1) * left == q * left + left;
    } else {
      ProductMonotone(right, q, left);
    }
  }

  /** The product of three bounded axes, multiplied one at a time; false when an axis or a partial product is too large. */
  method BoundedProduct(t: Triple, axisMax: nat, productMax: nat) returns (ok: bool, product: nat)
    requires axisMax <= 31 && 0 < productMax < WORD_SPACE
    ensures ok <==> (forall i | 0 <= i < 3 :: 0 < t[i] <= axisMax) && Volume(t) <= productMax
    ensures ok ==> product == Volume(t)
  {
    ok, product := false, 1;
    for axis := 0 to 3
      invariant forall i | 0 <= i < axis :: 0 < t[i] <= axisMax
      invariant 0 < product <= productMax
      invariant product == (if axis > 0 then t[0] else 1) * (if axis > 1 then t[1] else 1) * (if axis > 2 then t[2] else 1)
    {
      if t[axis] == 0 || t[axis] > axisMax { return; }
      SmallProduct(product, t[axis]);
      var fits, next := CheckedMultiply(product, t[axis]);
      assert fits;
      if next > productMax {
        PartialProduct(t, axis, productMax);
        return;
      }
      product := next;
    }
    ok := true;
  }

  lemma SmallProduct(p: nat, x: nat)
    requires 0 < p < WORD_SPACE && 0 < x < WORD_SPACE
    ensures 0 < p * x < LONG_SPACE
  {
    ProductMonotone(p, WORD_SPACE, x);
    ProductMonotone(1, p, x);
    assert WORD_SPACE * x < WORD_SPACE * WORD_SPACE;
  }

  /** A partial product that is too large stays too large, unless an axis is zero. */
  lemma PartialProduct(t: Triple, axis: nat, m: nat)
    requires axis < 3
    requires (if axis >= 0 then t[0] else 1) * (if axis >= 1 then t[1] else 1) * (if axis >= 2 then t[2] else 1) > m
    ensures (t[1] == 0 || t[2] == 0) || Volume(t) > m
  {
    if t[1] > 0 && t[2] > 0 {
      ProductMonotone(1, t[2], t[0] * t[1]);
      ProductMonotone(1, t[1], t[0]);
      Commute(t[2], t[0] * t[1]);
      Commute(t[1], t[0]);
    }
  }

  /** The CTA count of a non-empty grid; false when a cluster does not tile it or the count passes 32 bits. */
  method CountCTAs(grid: Triple, cluster: Triple) returns (ok: bool, total: nat)
    requires forall i | 0 <= i < 3 :: grid[i] > 0 && cluster[i] > 0
    ensures ok <==> (forall i | 0 <= i < 3 :: grid[i] % cluster[i] == 0) && Volume(grid) < WORD_SPACE
    ensures ok ==> total == Volume(grid)
  {
    ok, total := false, 1;
    for axis := 0 to 3
      invariant forall i | 0 <= i < axis :: grid[i] % cluster[i] == 0
      invariant 0 < total < WORD_SPACE
      invariant total == (if axis > 0 then grid[0] else 1) * (if axis > 1 then grid[1] else 1) * (if axis > 2 then grid[2] else 1)
    {
      if grid[axis] % cluster[axis] != 0 { return; }
      SmallProduct(total, grid[axis]);
      var fits, next := CheckedMultiply(total, grid[axis]);
      assert fits;
      if next >= WORD_SPACE {
        PartialProduct(grid, axis, WORD_SPACE - 1);
        return;
      }
      total := next;
    }
    ok := true;
  }

  /** The demand checks already bound the cluster by what fits at once. */
  lemma CapacityImplied(size: nat, warps: nat, aligned: nat)
    requires 0 < warps && size <= WARPS && size * warps <= WARPS && size * aligned <= LOCAL_MEMORY
    ensures size <= Capacity(warps, aligned)
  {
    QuotientAtLeast(size, warps, WARPS);
    if aligned > 0 {
      QuotientAtLeast(size, aligned, LOCAL_MEMORY);
    }
  }

  lemma SmallCluster(size: nat, warps: nat)
    requires warps > 0 && size * warps <= WARPS
    ensures size <= WARPS
  {
    ProductMonotone(1, warps, size);
    Commute(size, warps);
  }

  /** Accepts exactly the launches whose resources fit and whose supplied derived values are right, and fills those in. */
  method ValidateLaunch(l: Launch) returns (r: Option<Launch>)
    ensures r == if ResourcesOk(l) && DerivedOk(l.derived, Derive(l)) then Some(l.(derived := Derive(l))) else None
  {
    r := None;
    if l.startupPC % 4 != 0 || l.kernelEntryPC % 4 != 0 { return; }
    var ok, volume := BoundedProduct(l.block, 31, WORD_SPACE - 1);
    if !ok {
      BlockVolumeFits(l);
      return;
    }
    if l.warpStep[0] > 15 || l.warpStep[1] > 15 || l.warpStep[2] > 15 { return; }
    if l.blockSize == 0 || l.blockSize > WARPS * LANES { return; }
    var warps := WarpsFor(l.blockSize);
    if l.localMemory > LOCAL_MEMORY { return; }
    var aligned := AlignUp(l.localMemory);
    assert aligned <= LOCAL_MEMORY;
    var size: nat;
    ok, size := BoundedProduct(l.cluster, 7, WARPS);
    if !ok {
      ClusterTooLarge(l);
      return;
    }
    if size * warps > WARPS || size * aligned > LOCAL_MEMORY { return; }
    var capacity := Capacity(warps, aligned);
    CapacityImplied(size, warps, aligned);
    assert size <= capacity;
    var total := 0;
    if !EmptyGrid(l) {
      ok, total := CountCTAs(l.grid, l.cluster);
      if !ok { return; }
    }
    assert ResourcesOk(l);
    DerivedFit(l);
    var d := Derived(volume, warps, aligned, size, size * warps, size * aligned, capacity, total);
    assert d == Derive(l);
    if DerivedOk(l.derived, d) {
      r := Some(l.(derived := d));
    }
  }

  lemma BlockVolumeFits(l: Launch)
    requires !((forall i | 0 <= i < 3 :: 0 < l.block[i] <= 31) && Volume(l.block) <= WORD_SPACE - 1)
    ensures !ResourcesOk(l)
  {
    if AxisOk(l, 0) && AxisOk(l, 1) && AxisOk(l, 2) {
      VolumeBound(l.block, 31);
    }
  }

  lemma ClusterTooLarge(l: Launch)
    requires !((forall i | 0 <= i < 3 :: 0 < l.cluster[i] <= 7) && Volume(l.cluster) <= WARPS)
    ensures !ResourcesOk(l)
  {
    if ResourcesOk(l) {
      SmallCluster(Volume(l.cluster), WarpsFor(l.blockSize));
    }
  }

  // -------------------------------------------------------------------- walker

  /** A validated launch. */
  predicate Walkable(l: Launch) {
    ResourcesOk(l) && l.derived == Derive(l)
  }

  /** The two-level radices: the axes of a cluster, then the clusters along each axis. */
  function Radices(l: Launch): (rs: seq<Radix>)
    requires Walkable(l) && !EmptyGrid(l)
    ensures |rs| == 6
  {
    TilesPositive(l, 0);
    TilesPositive(l, 1);
    TilesPositive(l, 2);
    [l.cluster[0], l.cluster[1], l.cluster[2], l.grid[0] / l.cluster[0], l.grid[1] / l.cluster[1], l.grid[2] / l.cluster[2]]
  }

  lemma TilesPositive(l: Launch, i: nat)
    requires Walkable(l) && !EmptyGrid(l) && i < 3
    ensures l.cluster[i] > 0 && l.grid[i] / l.cluster[i] > 0 && l.grid[i] == l.cluster[i] * (l.grid[i] / l.cluster[i])
  {
    TilesExactly(l.grid[i], l.cluster[i]);
  }

  lemma TilesExactly(g: nat, c: nat)
    requires g > 0 && c > 0 && g % c == 0
    ensures g / c > 0 && g == c * (g / c)
  {
    assert g == c * (g / c) + g % c;
  }

  /** The offset inside the cluster, then the cluster's index along each axis. */
  function Position(l: Launch, n: nat): (ds: seq<nat>)
    requires Walkable(l) && !EmptyGrid(l)
    ensures |ds| == 6
  {
    Digits(n, Radices(l))
  }

  /** The n-th block: cluster origin plus offset, axis by axis. */
  function BlockAt(l: Launch, n: nat): (b: seq<nat>)
    requires Walkable(l) && !EmptyGrid(l)
    ensures |b| == 3
  {
    var p := Position(l, n);
    [l.cluster[0] * p[3] + p[0], l.cluster[1] * p[4] + p[1], l.cluster[2] * p[5] + p[2]]
  }

  predicate InGrid(l: Launch, b: seq<nat>) {
    |b| == 3 && forall i | 0 <= i < 3 :: b[i] < l.grid[i]
  }

  lemma {:induction false} ProductSix(a: Radix, b: Radix, c: Radix, x: Radix, y: Radix, z: Radix)
    ensures Product([a, b, c, x, y, z]) == (a * x) * (b * y) * (c * z)
  {
    assert Product([z]) == z by { assert [z][1..] == []; }
    assert Product([y, z]) == y * z by { assert [y, z][1..] == [z]; }
    assert Product([x, y, z]) == x * (y * z) by { assert [x, y, z][1..] == [y, z]; }
    assert Product([c, x, y, z]) == c * (x * (y * z)) by { assert [c, x, y, z][1..] == [x, y, z]; }
    assert Product([b, c, x, y, z]) == b * (c * (x * (y * z))) by { assert [b, c, x, y, z][1..] == [c, x, y, z]; }
    assert [a, b, c, x, y, z][1..] == [b, c, x, y, z];
    Regroup(a, b, c, x, y, z);
  }

  lemma Regroup(a: nat, b: nat, c: nat, x: nat, y: nat, z: nat)
    ensures a * (b * (c * (x * (y * z)))) == (a * x) * (b * y) * (c * z)
  {
    calc {
      (a * x) * (b * y) * (c * z);
      { Swap(a, x, b * y, c * z); }
      a * (x * ((b * y) * (c * z)));
      { Swap(b, y, 1, c * z); assert (b * y) * (c * z) == b * (y * (c * z)); }
      a * (x * (b * (y * (c * z))));
      { assert y * (c * z) == c * (y * z); }
      a * (x * (b * (c * (y * z))));
      { assert x * (b * (c * (y * z))) == b * (x * (c * (y * z))); assert x * (c * (y * z)) == c * (x * (y * z)); }
      a * (b * (c * (x * (y * z))));
    }
  }

  lemma Swap(a: nat, x: nat, m: nat, n: nat)
    ensures (a * x) * m * n == a * (x * (m * n))
  {
    assert (a * x) * m * n == (a * x) * (m * n);
    assert (a * x) * (m * n) == a * (x * (m * n));
  }

  lemma TotalIsProduct(l: Launch)
    requires Walkable(l) && !EmptyGrid(l)
    ensures Product(Radices(l)) == l.derived.totalCTAs == Volume(l.grid)
  {
    var r := Radices(l);
    ProductSix(r[0], r[1], r[2], r[3], r[4], r[5]);
    TilesPositive(l, 0);
    TilesPositive(l, 1);
    TilesPositive(l, 2);
  }

  /** Block coordinates and walk position determine each other. */
  lemma BlockDigits(l: Launch, n: nat, i: nat)
    requires Walkable(l) && !EmptyGrid(l) && i < 3
    ensures var p, b := Position(l, n), BlockAt(l, n);
            && b[i] < l.grid[i]
            && p[i] == Remainder(b[i], l.cluster[i]) && p[i + 3] == Quotient(b[i], l.cluster[i])
  {
    hide Walkable, Quotient, Remainder, Digits;
    var p := Position(l, n);
    DigitsFit(n, Radices(l));
    TilesPositive(l, i);
    var c, t := l.cluster[i], l.grid[i] / l.cluster[i];
    assert p[i] < c && p[i + 3] < t;
    DivisionIs(c * p[i + 3] + p[i], c, p[i + 3], p[i]);
    DigitBound(p[i + 3], t, p[i], c);
    Commute(p[i + 3], c);
    Commute(t, c);
  }

  /** The walk position of a block. */
  function DigitsOf(l: Launch, b: seq<nat>): (ds: seq<nat>)
    requires Walkable(l) && !EmptyGrid(l) && InGrid(l, b)
    ensures |ds| == 6
  {
    var r := Radices(l);
    [Remainder(b[0], r[0]), Remainder(b[1], r[1]), Remainder(b[2], r[2]),
     Quotient(b[0], r[0]), Quotient(b[1], r[1]), Quotient(b[2], r[2])]
  }

  lemma DigitsOfFit(l: Launch, b: seq<nat>, i: nat)
    requires Walkable(l) && !EmptyGrid(l) && InGrid(l, b) && i < 3
    ensures var ds, r := DigitsOf(l, b), Radices(l);
            ds[i] < r[i] && ds[i + 3] < r[i + 3] && b[i] == l.cluster[i] * ds[i + 3] + ds[i]
  {
    hide Walkable, Quotient, Remainder;
    TilesPositive(l, i);
    DivisionMeans(b[i], l.cluster[i]);
    QuotientFits(b[i], l.cluster[i], l.grid[i] / l.cluster[i]);
  }

  /** Every block of the grid comes up... */
  lemma EachBlockOnce(l: Launch, b: seq<nat>) returns (n: nat)
    requires Walkable(l) && !EmptyGrid(l) && InGrid(l, b)
    ensures n < l.derived.totalCTAs && BlockAt(l, n) == b
  {
    hide Walkable, Quotient, Remainder, Digits, Radices, DigitsOf;
    var ds, rs := DigitsOf(l, b), Radices(l);
    DigitsOfFit(l, b, 0);
    DigitsOfFit(l, b, 1);
    DigitsOfFit(l, b, 2);
    assert Digital(ds, rs);
    DigitsValue(ds, rs);
    TotalIsProduct(l);
    n := Value(ds, rs);
  }

  lemma SameDigits(l: Launch, n: nat, m: nat, i: nat)
    requires Walkable(l) && !EmptyGrid(l) && i < 3 && BlockAt(l, n) == BlockAt(l, m)
    ensures Position(l, n)[i] == Position(l, m)[i] && Position(l, n)[i + 3] == Position(l, m)[i + 3]
    ensures BlockAt(l, n)[i] < l.grid[i]
  {
    hide Walkable, Quotient, Remainder, Digits;
    BlockDigits(l, n, i);
    BlockDigits(l, m, i);
  }

  /** ... and comes up once. */
  lemma BlockOnlyOnce(l: Launch, n: nat, m: nat)
    requires Walkable(l) && !EmptyGrid(l) && n < l.derived.totalCTAs && m < l.derived.totalCTAs
    requires BlockAt(l, n) == BlockAt(l, m)
    ensures n == m && InGrid(l, BlockAt(l, n))
  {
    var p, q := Position(l, n), Position(l, m);
    SameDigits(l, n, m, 0);
    SameDigits(l, n, m, 1);
    SameDigits(l, n, m, 2);
    assert p == q;
    TotalIsProduct(l);
    ValueDigits(n, Radices(l));
    ValueDigits(m, Radices(l));
  }

  function RankOf(l: Launch, intra: seq<nat>): nat
    requires |intra| >= 3
  {
    intra[0] + l.cluster[0] * (intra[1] + l.cluster[1] * intra[2])
  }

  /** Clusters are emitted one after another: `n` counts whole clusters, then ranks inside one. */
  lemma ClusterByCluster(l: Launch, n: nat)
    requires Walkable(l) && !EmptyGrid(l) && n < l.derived.totalCTAs
    ensures var p, size, rs := Position(l, n), l.derived.clusterSize, Radices(l);
            RankOf(l, p) < size && n == size * ClusterIndex(p, rs) + RankOf(l, p)
  {
    hide Walkable, Digits, Value, Radices, Position, RankOf, ClusterIndex, Volume;
    var p, rs := Position(l, n), Radices(l);
    LowRadices(l, n);
    TotalIsProduct(l);
    ValueDigits(n, rs);
    DigitsFit(n, rs);
    ClusterVolume(l);
    TwoLevels(l, p, rs, n);
  }

  lemma LowRadices(l: Launch, n: nat)
    requires Walkable(l) && !EmptyGrid(l)
    ensures var rs := Radices(l);
            rs[0] == l.cluster[0] && rs[1] == l.cluster[1] && rs[2] == l.cluster[2] && Position(l, n) == Digits(n, rs)
  {
  }

  /** Which cluster a walk position lies in. */
  function ClusterIndex(p: seq<nat>, rs: seq<Radix>): nat
    requires |p| == 6 && |rs| == 6
  {
    p[3] + rs[3] * (p[4] + rs[4] * p[5])
  }

  lemma TwoLevels(l: Launch, p: seq<nat>, rs: seq<Radix>, n: nat)
    requires |p| == 6 && |rs| == 6 && p[0] < rs[0] && p[1] < rs[1] && p[2] < rs[2] && Value(p, rs) == n
    requires rs[0] == l.cluster[0] && rs[1] == l.cluster[1] && rs[2] == l.cluster[2]
    ensures RankOf(l, p) < Volume(l.cluster) && n == Volume(l.cluster) * ClusterIndex(p, rs) + RankOf(l, p)
  {
    hide Value, ClusterIndex;
    ValueSix(p, rs);
    var c, high := l.cluster, ClusterIndex(p, rs);
    assert n == p[0] + c[0] * (p[1] + c[1] * (p[2] + c[2] * high));
    RankFits(p[0], p[1], p[2], c[0], c[1], c[2]);
    Spread(p[0], p[1], p[2], c[0], c[1], c[2], high);
  }

  lemma ClusterVolume(l: Launch)
    requires Walkable(l)
    ensures l.derived.clusterSize == Volume(l.cluster) > 0
  {
    VolumePositive(l.cluster);
  }

  lemma ValueSix(p: seq<nat>, rs: seq<Radix>)
    requires |p| == 6 && |rs| == 6
    ensures Value(p, rs) == p[0] + rs[0] * (p[1] + rs[1] * (p[2] + rs[2] * ClusterIndex(p, rs)))
  {
    assert Value(p[5..], rs[5..]) == p[5] by { assert p[5..][1..] == []; }
    assert Value(p[4..], rs[4..]) == p[4] + rs[4] * p[5] by { assert p[4..][1..] == p[5..] && rs[4..][1..] == rs[5..]; }
    assert Value(p[3..], rs[3..]) == p[3] + rs[3] * Value(p[4..], rs[4..]) by { assert p[3..][1..] == p[4..] && rs[3..][1..] == rs[4..]; }
    assert Value(p[2..], rs[2..]) == p[2] + rs[2] * Value(p[3..], rs[3..]) by { assert p[2..][1..] == p[3..] && rs[2..][1..] == rs[3..]; }
    assert Value(p[1..], rs[1..]) == p[1] + rs[1] * Value(p[2..], rs[2..]) by { assert p[1..][1..] == p[2..] && rs[1..][1..] == rs[2..]; }
  }

  lemma RankFits(x: nat, y: nat, z: nat, a: nat, b: nat, c: nat)
    requires x < a && y < b && z < c
    ensures x + a * (y + b * z) < a * b * c
  {
    DigitBound(z, c, y, b);
    Commute(z, b);
    DigitBound(y + b * z, c * b, x, a);
    Commute(y + b * z, a);
    assert c * b * a == a * b * c;
  }

  lemma Spread(x: nat, y: nat, z: nat, a: nat, b: nat, c: nat, high: nat)
    ensures x + a * (y + b * (z + c * high)) == a * b * c * high + (x + a * (y + b * z))
  {
    assert b * (z + c * high) == b * z + b * (c * high);
    assert a * (y + (b * z + b * (c * high))) == a * (y + b * z) + a * (b * (c * high));
    assert a * (b * (c * high)) == a * b * c * high;
  }

  /** The record generated for one CTA. */
  datatype CTA = CTA(id: nat, block: seq<nat>, origin: seq<nat>, intra: seq<nat>, rank: nat, first: bool, launch: Launch)

  /** The n-th record of a launch. */
  function RecordAt(l: Launch, n: nat): CTA
    requires Walkable(l) && !EmptyGrid(l)
  {
    var p := Position(l, n);
    CTA(n, BlockAt(l, n), [l.cluster[0] * p[3], l.cluster[1] * p[4], l.cluster[2] * p[5]], p[..3], RankOf(l, p), RankOf(l, p) == 0, l)
  }

  lemma {:induction false} ZeroDigits(rs: seq<Radix>)
    ensures forall i | 0 <= i < |rs| :: Digits(0, rs)[i] == 0
    decreases rs
  {
    if rs != [] {
      ZeroDigits(rs[1..]);
      DivisionIs(0, rs[0], 0, 0);
    }
  }

  /** A carry out of the first digit moves on to the others. */
  lemma CarryFirst(ds: seq<nat>, rs: seq<Radix>, k: nat)
    requires |ds| == |rs| && k < |rs|
    ensures if ds[k] + 1 < rs[k] then Increment(ds[k..], rs[k..]) == [ds[k] + 1] + ds[k + 1..]
            else Increment(ds[k..], rs[k..]) == [0] + Increment(ds[k + 1..], rs[k + 1..])
  {
    assert ds[k..][1..] == ds[k + 1..] && rs[k..][1..] == rs[k + 1..];
  }

  class GridWalker {
    const launch: Launch
    var origin: Triple
    var intra: Triple
    var emitted: nat

    ghost predicate Valid()
      reads this
    {
      && Walkable(launch) && emitted <= launch.derived.totalCTAs
      && (!EmptyGrid(launch) ==>
            var p := Position(launch, emitted);
            && intra == p[..3]
            && (forall i | 0 <= i < 3 :: origin[i] == launch.cluster[i] * p[i + 3]))
    }

    constructor (l: Launch)
      requires Walkable(l)
      ensures Valid() && launch == l && emitted == 0
    {
      launch, origin, intra, emitted := l, ORIGIN, ORIGIN, 0;
      new;
      hide Walkable, Digits, Radices;
      if !EmptyGrid(l) {
        ZeroDigits(Radices(l));
      }
    }

    /** Returns the next record of the walk, or nothing once every CTA has been generated. */
    method Next() returns (r: Option<CTA>)
      requires Valid()
      modifies this
      ensures Valid()
      ensures r.None? <==> old(emitted) == launch.derived.totalCTAs
      ensures r.None? ==> emitted == old(emitted)
      ensures r.Some? ==> !EmptyGrid(launch) && r.value == RecordAt(launch, old(emitted)) && emitted == old(emitted) + 1
    {
      hide Walkable, Digits, Wrap;
      if emitted >= launch.derived.totalCTAs {
        return None;
      }
      ghost var n := emitted;
      NonEmpty(launch);
      BlockInWords(launch, n);
      WrapSmall(origin[0] + intra[0]);
      WrapSmall(origin[1] + intra[1]);
      WrapSmall(origin[2] + intra[2]);
      var block := [Wrap(origin[0] + intra[0]), Wrap(origin[1] + intra[1]), Wrap(origin[2] + intra[2])];
      var rank := RankOf(launch, intra);
      r := Some(CTA(emitted, block, origin, intra, rank, rank == 0, launch));
      assert r.value == RecordAt(launch, n);
      emitted := emitted + 1;
      Advance(n);
    }

    /** Moves to the next offset; past the last one, to the next cluster. */
    method Advance(ghost n: nat)
      requires Walkable(launch) && !EmptyGrid(launch) && emitted == n + 1 <= launch.derived.totalCTAs
      requires intra == Position(launch, n)[..3]
      requires forall i | 0 <= i < 3 :: origin[i] == launch.cluster[i] * Position(launch, n)[i + 3]
      modifies this`origin, this`intra
      ensures Valid()
    {
      hide Walkable, Digits, Increment, OriginOk;
      ghost var p, rs := Position(launch, n), Radices(launch);
      AdvancedPosition(launch, n);
      SmallClusters(launch);
      var carried := AdvanceIntra(rs[..3]);
      if carried {
        OriginBounds(launch, n);
        AdvanceOrigin(p[3..], rs[3..]);
      }
    }

    /** Adds one to the offset; true when every axis wrapped. */
    method AdvanceIntra(ghost rs: seq<Radix>) returns (carried: bool)
      requires |rs| == 3 && (forall i | 0 <= i < 3 :: rs[i] == launch.cluster[i] <= 7) && Digital(intra, rs)
      modifies this`intra
      ensures intra == Increment(old(intra), rs)
      ensures carried == Full(old(intra), rs)
    {
      hide Increment, Wrap;
      ghost var p := intra;
      assert p[0..] == p && rs[0..] == rs;
      for axis := 0 to 3
        invariant (forall i | 0 <= i < axis :: intra[i] == 0 && p[i] + 1 == rs[i]) && (forall i | axis <= i < 3 :: intra[i] == p[i])
        invariant Increment(p, rs) == intra[..axis] + Increment(p[axis..], rs[axis..])
      {
        CarryFirst(p, rs, axis);
        WrapSmall(intra[axis] + 1);
        var next := Wrap(intra[axis] + 1);
        if next < launch.cluster[axis] {
          intra := intra[axis := next];
          assert Increment(p, rs) == intra[..axis] + ([p[axis] + 1] + p[axis + 1..]) == intra;
          return false;
        }
        intra := intra[axis := 0];
      }
      NoDigits(p[3..], rs[3..]);
      assert intra == intra[..3] + [];
      return true;
    }

    /** Adds one cluster to the origin; past the last cluster it returns to the start. */
    method AdvanceOrigin(ghost p: seq<nat>, ghost rs: seq<Radix>)
      requires |p| == 3 && |rs| == 3 && Digital(p, rs)
      requires forall i | 0 <= i < 3 :: origin[i] == launch.cluster[i] * p[i] && OriginOk(launch.cluster[i], p[i], rs[i], launch.grid[i])
      modifies this`origin
      ensures var q := Increment(p, rs); forall i | 0 <= i < 3 :: origin[i] == launch.cluster[i] * q[i]
    {
      hide Increment, Wrap, OriginOk;
      ghost var q := Increment(p, rs);
      assert p[0..] == p && rs[0..] == rs && q[0..] == q;
      for axis := 0 to 3
        invariant (forall i | 0 <= i < axis :: origin[i] == 0 == q[i]) && (forall i | axis <= i < 3 :: origin[i] == launch.cluster[i] * p[i])
        invariant q[axis..] == Increment(p[axis..], rs[axis..])
      {
        CarryFirst(p, rs, axis);
        OriginMeans(launch.cluster[axis], p[axis], rs[axis], launch.grid[axis]);
        assert q[axis..][1..] == q[axis + 1..];
        var next := Wrap(origin[axis] + launch.cluster[axis]);
        if next < launch.grid[axis] {
          assert q[axis..] == [p[axis] + 1] + p[axis + 1..];
          origin := origin[axis := next];
          assert forall i | axis < i < 3 :: q[i] == q[axis..][i - axis] == p[i];
          assert q[axis] == q[axis..][0] == p[axis] + 1;
          return;
        }
        origin := origin[axis := 0];
        assert q[axis] == q[axis..][0] == 0;
      }
    }
  }

  predicate Full(ds: seq<nat>, rs: seq<Radix>)
    requires |ds| == |rs|
  {
    forall i | 0 <= i < |ds| :: ds[i] + 1 >= rs[i]
  }

  /** Adding one changes the high digits exactly when the low ones are full. */
  lemma {:induction false} IncrementSplit(ds: seq<nat>, rs: seq<Radix>, k: nat)
    requires |ds| == |rs| && k <= |rs|
    ensures Increment(ds, rs) ==
            Increment(ds[..k], rs[..k]) + if Full(ds[..k], rs[..k]) then Increment(ds[k..], rs[k..]) else ds[k..]
    decreases k
  {
    hide Increment, Full;
    if k == 0 {
      NoDigits(ds[..0], rs[..0]);
      assert ds[0..] == ds && rs[0..] == rs;
      assert [] + Increment(ds, rs) == Increment(ds, rs);
    } else {
      var dt, rt := ds[1..], rs[1..];
      SliceTail(ds, k);
      SliceTail(rs, k);
      IncrementSplit(dt, rt, k - 1);
      IncrementHead(ds, rs);
      IncrementHead(ds[..k], rs[..k]);
      if ds[0] + 1 < rs[0] {
        NotFull(ds[..k], rs[..k]);
        assert [ds[0] + 1] + dt == [ds[0] + 1] + dt[..k - 1] + ds[k..];
      } else {
        FullTail(ds[..k], rs[..k]);
        var t := if Full(ds[..k], rs[..k]) then Increment(ds[k..], rs[k..]) else ds[k..];
        var low := Increment(dt[..k - 1], rt[..k - 1]);
        assert [0] + (low + t) == [0] + low + t;
      }
    }
  }

  lemma SliceTail<T>(s: seq<T>, k: nat)
    requires 0 < k <= |s|
    ensures s[..k][1..] == s[1..][..k - 1] && s[1..][k - 1..] == s[k..] && s[..k][0] == s[0]
  {
  }

  lemma IncrementHead(ds: seq<nat>, rs: seq<Radix>)
    requires |ds| == |rs| > 0
    ensures Increment(ds, rs) == if ds[0] + 1 < rs[0] then [ds[0] + 1] + ds[1..] else [0] + Increment(ds[1..], rs[1..])
  {
  }

  lemma NotFull(ds: seq<nat>, rs: seq<Radix>)
    requires |ds| == |rs| > 0 && ds[0] + 1 < rs[0]
    ensures !Full(ds, rs)
  {
  }

  lemma FullTail(ds: seq<nat>, rs: seq<Radix>)
    requires |ds| == |rs| > 0 && ds[0] + 1 >= rs[0]
    ensures Full(ds, rs) <==> Full(ds[1..], rs[1..])
  {
    if Full(ds[1..], rs[1..]) {
      forall i | 0 <= i < |ds| ensures ds[i] + 1 >= rs[i] {
        assert i > 0 ==> ds[i] == ds[1..][i - 1] && rs[i] == rs[1..][i - 1];
      }
    }
  }

  /** The position after one more CTA. */
  lemma AdvancedPosition(l: Launch, n: nat)
    requires Walkable(l) && !EmptyGrid(l)
    ensures var p, q, rs := Position(l, n), Position(l, n + 1), Radices(l);
            && Digital(p, rs)
            && q[..3] == Increment(p[..3], rs[..3])
            && q[3..] == if Full(p[..3], rs[..3]) then Increment(p[3..], rs[3..]) else p[3..]
  {
    hide Walkable, Digits, Radices, Full;
    var p, rs := Position(l, n), Radices(l);
    DigitsFit(n, rs);
    IncrementDigits(n, rs);
    IncrementSplit(p, rs, 3);
  }

  /** The next origin along an axis fits its word, and reaches the grid's edge exactly when its digit carries. */
  predicate OriginOk(c: nat, d: nat, t: nat, grid: nat) {
    c * d + c <= grid < WORD_SPACE && c * (d + 1) == c * d + c && (c * d + c < grid <==> d + 1 < t)
  }

  lemma NonEmpty(l: Launch)
    requires Walkable(l) && l.derived.totalCTAs > 0
    ensures !EmptyGrid(l)
  {
  }

  lemma SmallClusters(l: Launch)
    requires Walkable(l)
    ensures forall i | 0 <= i < 3 :: l.cluster[i] <= 7
  {
    assert AxisOk(l, 0) && AxisOk(l, 1) && AxisOk(l, 2);
  }

  lemma OriginMeans(c: nat, d: nat, t: nat, grid: nat)
    requires OriginOk(c, d, t, grid)
    ensures Wrap(c * d + c) == c * d + c == c * (d + 1) && (c * d + c < grid <==> d + 1 < t)
  {
  }

  lemma WrapSmall(x: nat)
    requires x < WORD_SPACE
    ensures Wrap(x) == x
  {
  }

  lemma NoDigits(ds: seq<nat>, rs: seq<Radix>)
    requires |ds| == |rs| == 0
    ensures Increment(ds, rs) == [] && Full(ds, rs)
  {
  }

  lemma OriginBounds(l: Launch, n: nat)
    requires Walkable(l) && !EmptyGrid(l)
    ensures var p, rs := Position(l, n), Radices(l);
            forall i | 0 <= i < 3 :: OriginOk(l.cluster[i], p[3..][i], rs[3..][i], l.grid[i])
  {
    OriginStep(l, n, 0);
    OriginStep(l, n, 1);
    OriginStep(l, n, 2);
  }

  /** 32-bit wrap-around. */
  function Wrap(x: nat): Word {
    x % WORD_SPACE
  }

  /** Block coordinates fit the source's 32-bit words. */
  lemma BlockInWords(l: Launch, n: nat)
    requires Walkable(l) && !EmptyGrid(l)
    ensures forall i | 0 <= i < 3 :: BlockAt(l, n)[i] < l.grid[i] < WORD_SPACE
  {
    BlockDigits(l, n, 0);
    BlockDigits(l, n, 1);
    BlockDigits(l, n, 2);
  }

  lemma OriginStep(l: Launch, n: nat, i: nat)
    requires Walkable(l) && !EmptyGrid(l) && i < 3
    ensures OriginOk(l.cluster[i], Position(l, n)[i + 3], Radices(l)[i + 3], l.grid[i])
  {
    hide Walkable, Digits;
    var c, d, t := l.cluster[i], Position(l, n)[i + 3], Radices(l)[i + 3];
    DigitsFit(n, Radices(l));
    TilesPositive(l, i);
    assert c * (d + 1) == c * d + c;
    ScaleOrder(c, d + 1, t);
  }

  lemma ScaleOrder(c: nat, d: nat, t: nat)
    requires c > 0 && d <= t
    ensures c * d <= c * t && (c * d < c * t <==> d < t)
  {
    assert c * (t - d) == c * t - c * d;
    assert t > d ==> c * (t - d) > 0;
  }
}
