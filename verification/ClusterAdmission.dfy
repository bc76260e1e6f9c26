/**
 All-or-nothing admission of one generated cluster (emu/core/core.go, emu/core/cta.go):
 the checks on its context, the choice of warps, and the placement of its CTAs.
 Every cluster a validated launch generates passes the checks, so only missing
 resources can hold it back, and on an empty core nothing can.
 */
module ClusterAdmission {
  import opened Arithmetic
  import opened CacheTypes
  import opened GridWalkers
  import Residency
  import LocalMemory

  /** What the core is told about one CTA. */
  datatype Config = Config(startupPC: nat, blockID: seq<nat>, block: Triple, grid: Triple, blockSize: nat, warpStep: Triple,
                           entry: nat, parameter: nat, localMemory: nat, cluster: Triple, clusterSize: nat, first: bool)

  function CoreConfig(c: CTA): Config {
    var l := c.launch;
    Config(l.startupPC, c.block, l.block, l.grid, l.blockSize, l.warpStep, l.kernelEntryPC, l.parameterAddress,
           l.derived.alignedLocalMemory, l.cluster, l.derived.clusterSize, c.first)
  }

  // ------------------------------------------------------------------- checks

  /** The offset of a rank inside its cluster. */
  function OffsetOf(rank: nat, d: Triple): seq<nat>
    requires d[0] > 0 && d[1] > 0
  {
    [Remainder(rank, d[0]), Remainder(Quotient(rank, d[0]), d[1]), Quotient(Quotient(rank, d[0]), d[1])]
  }

  predicate DimensionsOk(d: Triple, size: nat) {
    0 < d[0] <= 7 && 0 < d[1] <= 7 && 0 < d[2] <= 7 && Volume(d) == size
  }

  predicate SameContext(a: Config, b: Config) {
    && a.startupPC == b.startupPC && a.block == b.block && a.grid == b.grid && a.blockSize == b.blockSize
    && a.warpStep == b.warpStep && a.entry == b.entry && a.parameter == b.parameter && a.localMemory == b.localMemory
    && a.clusterSize == b.clusterSize && a.cluster == b.cluster
  }

  /** The block lies at its rank's place relative to the cluster origin. */
  predicate AtRank(block: seq<nat>, d: Triple, rank: nat, origin: seq<nat>) {
    && |block| == 3 && |origin| == 3 && d[0] > 0 && d[1] > 0
    && var o := OffsetOf(rank, d);
       block[0] == origin[0] + o[0] && block[1] == origin[1] + o[1] && block[2] == origin[2] + o[2]
  }

  /** A complete cluster, in rank order, from one launch. */
  predicate ClusterOk(configs: seq<Config>) {
    && 0 < |configs| <= WARPS && configs[0].clusterSize == |configs| && DimensionsOk(configs[0].cluster, |configs|)
    && (forall k | 0 <= k < |configs| :: RankOk(configs[0], configs[k], k))
  }

  predicate RankOk(origin: Config, c: Config, rank: nat) {
    && c.first == (rank == 0) && SameContext(c, origin) && AtRank(c.blockID, c.cluster, rank, origin.blockID)
    && 0 < c.blockSize <= WARPS * LANES
  }

  predicate InBlockGrid(block: seq<nat>, grid: Triple) {
    |block| == 3 && block[0] < grid[0] && block[1] < grid[1] && block[2] < grid[2]
  }

  /** The checks on one CTA that has been given its warps. */
  predicate ConfigOk(c: Config, warps: nat) {
    && c.entry % 4 == 0 && c.startupPC % 4 == 0
    && 0 < c.clusterSize <= WARPS && DimensionsOk(c.cluster, c.clusterSize)
    && InBlockGrid(c.blockID, c.grid) && (forall i | 0 <= i < 3 :: 0 < c.block[i] <= 31 && c.warpStep[i] <= 15)
    && 0 < c.blockSize <= WARPS * LANES && WarpsFor(c.blockSize) == warps
    && c.localMemory <= LOCAL_MEMORY && AlignUp(c.localMemory) <= LOCAL_MEMORY
  }

  // ------------------------------------------------------------ generated ones

  /** The number of the CTA with rank `i` in cluster `k`. */
  function Nth(size: nat, k: nat, i: nat): nat {
    k * size + i
  }

  /** The records of the k-th cluster of a launch. */
  function Generated(l: Launch, k: nat): (cs: seq<Config>)
    requires Walkable(l) && !EmptyGrid(l)
    ensures |cs| == l.derived.clusterSize
  {
    seq(l.derived.clusterSize, i requires 0 <= i < l.derived.clusterSize => CoreConfig(RecordAt(l, Nth(l.derived.clusterSize, k, i))))
  }

  lemma NthUnique(size: nat, k: nat, i: nat, index: nat, rank: nat)
    requires i < size && rank < size && Nth(size, k, i) == size * index + rank
    ensures index == k && rank == i
  {
    Commute(size, index);
    DivUnique(Nth(size, k, i), size, index, rank);
    DivUnique(Nth(size, k, i), size, k, i);
  }

  /** A position is its rank's digits followed by its cluster's digits. */
  lemma PositionSplits(l: Launch, k: nat, i: nat)
    requires Walkable(l) && !EmptyGrid(l) && i < l.derived.clusterSize
    requires Nth(l.derived.clusterSize, k, i) < l.derived.totalCTAs
    ensures var p := Position(l, Nth(l.derived.clusterSize, k, i));
            && RankOf(l, p) == i && ClusterIndex(p, Radices(l)) == k
  {
    hide Walkable, Digits, Radices, RankOf, ClusterIndex, Nth, Position;
    var n, size := Nth(l.derived.clusterSize, k, i), l.derived.clusterSize;
    ClusterByCluster(l, n);
    var p := Position(l, n);
    NthUnique(size, k, i, ClusterIndex(p, Radices(l)), RankOf(l, p));
  }

  /** The offset computed from a rank is the walk's own offset. */
  lemma OffsetIsIntra(l: Launch, p: seq<nat>)
    requires Walkable(l) && |p| == 6 && p[0] < l.cluster[0] && p[1] < l.cluster[1] && p[2] < l.cluster[2]
    ensures OffsetOf(RankOf(l, p), l.cluster) == p[..3]
  {
    hide Walkable, Quotient, Remainder;
    var c := l.cluster;
    DivisionIs(RankOf(l, p), c[0], p[1] + c[1] * p[2], p[0]);
    DivisionIs(p[1] + c[1] * p[2], c[1], p[2], p[1]);
  }

  /** Positions of one cluster differ only in their offset. */
  lemma SameOrigin(p: seq<nat>, q: seq<nat>, rs: seq<Radix>)
    requires |p| == |q| == |rs| == 6 && p[3] < rs[3] && p[4] < rs[4] && q[3] < rs[3] && q[4] < rs[4]
    requires ClusterIndex(p, rs) == ClusterIndex(q, rs)
    ensures p[3] == q[3] && p[4] == q[4] && p[5] == q[5]
  {
    hide Quotient, Remainder;
    var n := ClusterIndex(p, rs);
    DivisionIs(n, rs[3], p[4] + rs[4] * p[5], p[3]);
    DivisionIs(n, rs[3], q[4] + rs[4] * q[5], q[3]);
    DivisionIs(p[4] + rs[4] * p[5], rs[4], p[5], p[4]);
    DivisionIs(q[4] + rs[4] * q[5], rs[4], q[5], q[4]);
  }

  lemma ZeroOffset(d: Triple)
    requires d[0] > 0 && d[1] > 0
    ensures OffsetOf(0, d) == [0, 0, 0]
  {
    hide Quotient, Remainder;
    DivisionIs(0, d[0], 0, 0);
    DivisionIs(0, d[1], 0, 0);
  }

  /** The cluster lies in the grid. */
  predicate InRun(l: Launch, k: nat)
    requires Walkable(l)
  {
    !EmptyGrid(l) && Nth(l.derived.clusterSize, k, l.derived.clusterSize) <= l.derived.totalCTAs
  }

  lemma IndexInRun(l: Launch, k: nat, i: nat)
    requires Walkable(l) && InRun(l, k) && i < l.derived.clusterSize
    ensures !EmptyGrid(l) && Nth(l.derived.clusterSize, k, i) < l.derived.totalCTAs
  {
    hide Walkable;
  }

  /** Each generated CTA lies at its rank's place in its cluster. */
  lemma BlockAtRank(l: Launch, k: nat, i: nat)
    requires Walkable(l) && InRun(l, k) && i < l.derived.clusterSize
    ensures !EmptyGrid(l)
    ensures var size := l.derived.clusterSize;
            AtRank(BlockAt(l, Nth(size, k, i)), l.cluster, i, BlockAt(l, Nth(size, k, 0)))
  {
    hide Walkable, Digits, Radices, Quotient, Remainder, RankOf, ClusterIndex, InRun, OffsetOf, Nth, Position;
    IndexInRun(l, k, i);
    IndexInRun(l, k, 0);
    var size, rs := l.derived.clusterSize, Radices(l);
    var n, m := Nth(size, k, i), Nth(size, k, 0);
    PositionSplits(l, k, i);
    PositionSplits(l, k, 0);
    var p, q := Position(l, n), Position(l, m);
    DigitsFit(n, rs);
    DigitsFit(m, rs);
    GridWalkers.LowRadices(l, n);
    GridWalkers.LowRadices(l, m);
    SameOrigin(p, q, rs);
    OffsetIsIntra(l, p);
    OffsetIsIntra(l, q);
    ZeroOffset(l.cluster);
  }

  lemma GeneratedAt(l: Launch, k: nat, i: nat)
    requires Walkable(l) && InRun(l, k) && i < l.derived.clusterSize
    ensures !EmptyGrid(l)
    ensures var c, n := Generated(l, k)[i], Nth(l.derived.clusterSize, k, i);
            && c == CoreConfig(RecordAt(l, n)) && c.blockID == BlockAt(l, n) && c.first == (i == 0)
            && InBlockGrid(c.blockID, l.grid)
  {
    hide Walkable, Digits, Radices, RankOf, ClusterIndex, BlockAt, Nth, InRun;
    IndexInRun(l, k, i);
    PositionSplits(l, k, i);
    BlockInWords(l, Nth(l.derived.clusterSize, k, i));
  }

  lemma LaunchFacts(l: Launch)
    requires Walkable(l)
    ensures l.startupPC % 4 == 0 && l.kernelEntryPC % 4 == 0 && 0 < l.blockSize <= WARPS * LANES
    ensures 0 < l.derived.clusterSize <= WARPS && DimensionsOk(l.cluster, l.derived.clusterSize)
    ensures forall i | 0 <= i < 3 :: 0 < l.block[i] <= 31 && l.warpStep[i] <= 15
    ensures l.derived.alignedLocalMemory == AlignUp(l.localMemory) <= LOCAL_MEMORY
    ensures l.derived.clusterSize * WarpsFor(l.blockSize) <= WARPS && l.derived.clusterSize * l.derived.alignedLocalMemory <= LOCAL_MEMORY
  {
    assert AxisOk(l, 0) && AxisOk(l, 1) && AxisOk(l, 2);
    DerivedFit(l);
  }

  lemma AlignTwice(bytes: nat)
    ensures AlignUp(AlignUp(bytes)) == AlignUp(bytes)
  {
  }

  /** Every cluster a validated launch generates passes every check that is not about free resources. */
  lemma GeneratedOk(l: Launch, k: nat)
    requires Walkable(l) && InRun(l, k)
    ensures !EmptyGrid(l)
    ensures var cs := Generated(l, k);
            ClusterOk(cs) && forall i | 0 <= i < |cs| :: ConfigOk(cs[i], WarpsFor(l.blockSize))
  {
    hide Walkable, InRun, AtRank, BlockAt, RankOf, WarpsFor, Volume, AlignUp, Position, Generated, Nth;
    LaunchFacts(l);
    AlignTwice(l.localMemory);
    GeneratedAt(l, k, 0);
    var cs := Generated(l, k);
    forall i | 0 <= i < |cs| ensures ConfigOk(cs[i], WarpsFor(l.blockSize)) && RankOk(cs[0], cs[i], i) {
      GeneratedAt(l, k, i);
      BlockAtRank(l, k, i);
    }
  }

  // -------------------------------------------------------------- choosing warps

  /** The lowest free warps from `from` on, at most as many as required. */
  function Pick(free: seq<bool>, required: nat, from: nat): (r: seq<nat>)
    requires from <= |free|
    ensures |r| <= required && forall w | w in r :: from <= w < |free| && free[w]
    decreases |free| - from
  {
    if required == 0 || from == |free| then []
    else if free[from] then [from] + Pick(free, required - 1, from + 1)
    else Pick(free, required, from + 1)
  }

  function CountFree(free: seq<bool>, from: nat): nat
    requires from <= |free|
    decreases |free| - from
  {
    if from == |free| then 0 else (if free[from] then 1 else 0) + CountFree(free, from + 1)
  }

  function Without(free: seq<bool>, picked: seq<nat>): (r: seq<bool>)
    ensures |r| == |free|
  {
    seq(|free|, w requires 0 <= w < |free| => free[w] && w !in picked)
  }

  /** One set of warps for each of `n` CTAs, or nothing when some CTA finds too few. */
  function ChooseAll(free: seq<bool>, n: nat, required: nat): (r: Option<seq<seq<nat>>>)
    ensures r.Some? ==> |r.value| == n
    decreases n
  {
    if n == 0 then Some([])
    else
      var picked := Pick(free, required, 0);
      if |picked| != required then None
      else
        var rest := ChooseAll(Without(free, picked), n - 1, required);
        if rest.None? then None else Some([picked] + rest.value)
  }

  lemma {:induction false} PickCounts(free: seq<bool>, required: nat, from: nat)
    requires from <= |free|
    ensures var r := Pick(free, required, from);
            && |r| == (if required <= CountFree(free, from) then required else CountFree(free, from))
            && CountFree(Without(free, r), from) == CountFree(free, from) - |r|
    decreases |free| - from
  {
    if required > 0 && from < |free| {
      var r := Pick(free, required, from);
      var rest := Pick(free, if free[from] then required - 1 else required, from + 1);
      PickCounts(free, if free[from] then required - 1 else required, from + 1);
      SameCount(Without(free, r), Without(free, rest), from + 1);
    } else if required == 0 {
      SameCount(Without(free, []), free, from);
    }
  }

  lemma {:induction false} SameCount(a: seq<bool>, b: seq<bool>, from: nat)
    requires |a| == |b| && from <= |a| && forall w | from <= w < |a| :: a[w] == b[w]
    ensures CountFree(a, from) == CountFree(b, from)
    decreases |a| - from
  {
    if from < |a| {
      SameCount(a, b, from + 1);
    }
  }

  /** Enough free warps for everyone are enough. */
  lemma {:induction false} ChooseFits(free: seq<bool>, n: nat, required: nat)
    requires n * required <= CountFree(free, 0)
    ensures ChooseAll(free, n, required).Some?
    decreases n
  {
    if n > 0 {
      hide CountFree, Pick;
      LessOne(n, required);
      PickCounts(free, required, 0);
      ChooseFits(Without(free, Pick(free, required, 0)), n - 1, required);
    }
  }

  lemma LessOne(n: nat, required: nat)
    requires n > 0
    ensures n * required == required + (n - 1) * required && (n - 1) * required >= 0
  {
  }

  predicate FreeIn(free: seq<bool>, warps: seq<nat>) {
    forall w | w in warps :: w < |free| && free[w]
  }

  /** The chosen sets are free warps, the right number for each CTA, and share none. */
  ghost predicate Chosen(free: seq<bool>, sets: seq<seq<nat>>, required: nat) {
    && (forall k | 0 <= k < |sets| :: |sets[k]| == required)
    && (forall k | 0 <= k < |sets| :: FreeIn(free, sets[k]))
    && (forall i, j | 0 <= i < j < |sets| :: Residency.NoCommonWarp(sets[i], sets[j]))
  }

  lemma {:induction false} ChooseMeans(free: seq<bool>, n: nat, required: nat)
    requires ChooseAll(free, n, required).Some?
    ensures Chosen(free, ChooseAll(free, n, required).value, required)
    decreases n
  {
    if n > 0 {
      var picked := Pick(free, required, 0);
      var less := Without(free, picked);
      ChooseMeans(less, n - 1, required);
      var rest := ChooseAll(less, n - 1, required).value;
      var all := [picked] + rest;
      forall i, j | 0 <= i < j < |all| ensures Residency.NoCommonWarp(all[i], all[j]) {
        if i > 0 {
          assert Residency.NoCommonWarp(rest[i - 1], rest[j - 1]);
        } else {
          assert FreeIn(less, rest[j - 1]);
        }
      }
      forall k | 0 <= k < |all| ensures FreeIn(free, all[k]) {
        assert k > 0 ==> FreeIn(less, rest[k - 1]);
      }
    }
  }

  // ------------------------------------------------------------------ admission

  function FreeWarps(s: Residency.State): seq<bool>
    requires |s.byWarp| == WARPS
  {
    seq(WARPS, w requires 0 <= w < WARPS => s.byWarp[w].None?)
  }

  function Candidates(configs: seq<Config>, sets: seq<seq<nat>>): (r: seq<Residency.Candidate>)
    requires |configs| == |sets|
    ensures |r| == |configs|
  {
    seq(|configs|, k requires 0 <= k < |configs| => Residency.Candidate(AlignUp(configs[k].localMemory), sets[k]))
  }

  datatype Result = Rejected | Unavailable | Admitted(state: Residency.State)

  datatype Staged = Malformed | Short | Placed(residents: seq<Residency.Resident>)

  /** Validates and places the CTAs one after another. */
  function StageEach(configs: seq<Config>, sets: seq<seq<nat>>, intervals: seq<LocalMemory.Interval>): Staged
    requires |configs| == |sets|
    decreases |configs|
  {
    if configs == [] then Placed([])
    else if !ConfigOk(configs[0], |sets[0]|) then Malformed
    else
      var size := AlignUp(configs[0].localMemory);
      match LocalMemory.FirstFit(intervals, size)
      case None => Short
      case Some(o) =>
        match StageEach(configs[1..], sets[1..], intervals + [LocalMemory.Interval(o, o + size)])
        case Placed(rs) => Placed([Residency.Resident(size, o, sets[0])] + rs)
        case bad => bad
  }

  /** The core's answer to a cluster: malformed, no room now, or admitted as a whole. */
  function AdmitCluster(s: Residency.State, configs: seq<Config>): Result
    requires |s.byWarp| == WARPS
  {
    if !ClusterOk(configs) then Rejected
    else
      match ChooseAll(FreeWarps(s), |configs|, WarpsFor(configs[0].blockSize))
      case None => Unavailable
      case Some(sets) =>
        var free := Residency.FreeIds(s, 0);
        if |free| < |configs| then Unavailable
        else
          match StageEach(configs, sets, Residency.Occupied(s, 0))
          case Malformed => Rejected
          case Short => Unavailable
          case Placed(rs) => if |rs| <= |free| then Admitted(Residency.InstallAll(s, free, rs)) else Rejected
  }

  /** With every CTA well formed, staging is placement. */
  lemma {:induction false} StageIsPlacement(configs: seq<Config>, sets: seq<seq<nat>>, intervals: seq<LocalMemory.Interval>)
    requires |configs| == |sets| && forall k | 0 <= k < |configs| :: ConfigOk(configs[k], |sets[k]|)
    ensures StageEach(configs, sets, intervals) ==
            match Residency.PlaceAll(Candidates(configs, sets), intervals)
            case None => Short
            case Some(rs) => Placed(rs)
    decreases |configs|
  {
    hide ConfigOk, AlignUp, LocalMemory.FirstFit;
    if configs != [] {
      var size := AlignUp(configs[0].localMemory);
      var fit := LocalMemory.FirstFit(intervals, size);
      assert Candidates(configs, sets)[1..] == Candidates(configs[1..], sets[1..]);
      if fit.Some? {
        StageIsPlacement(configs[1..], sets[1..], intervals + [LocalMemory.Interval(fit.value, fit.value + size)]);
      }
    }
  }

  /** Admission of a well-formed cluster is admission of its candidates by the manager. */
  lemma AdmitIsGroup(s: Residency.State, configs: seq<Config>, required: nat)
    requires Residency.Valid(s) && ClusterOk(configs) && required == WarpsFor(configs[0].blockSize)
    requires forall k | 0 <= k < |configs| :: ConfigOk(configs[k], required)
    ensures AdmitCluster(s, configs) != Rejected
    ensures var chosen := ChooseAll(FreeWarps(s), |configs|, required);
            if chosen.None? then AdmitCluster(s, configs) == Unavailable
            else
              var group := Candidates(configs, chosen.value);
              && Residency.WarpsFree(s, group)
              && AdmitCluster(s, configs) ==
                 match Residency.Admit(s, group)
                 case None => Unavailable
                 case Some(t) => Admitted(t)
  {
    hide ClusterOk, ConfigOk, AlignUp, Residency.PlaceAll, Residency.Occupied, Residency.FreeIds;
    var chosen := ChooseAll(FreeWarps(s), |configs|, required);
    if chosen.Some? {
      var sets := chosen.value;
      ChooseMeans(FreeWarps(s), |configs|, required);
      ChosenFree(s, configs, sets, required);
      StageIsPlacement(configs, sets, Residency.Occupied(s, 0));
    }
  }

  lemma ChosenFree(s: Residency.State, configs: seq<Config>, sets: seq<seq<nat>>, required: nat)
    requires Residency.Valid(s) && |configs| == |sets| && Chosen(FreeWarps(s), sets, required)
    ensures Residency.WarpsFree(s, Candidates(configs, sets))
  {
    hide AlignUp;
    var group := Candidates(configs, sets);
    forall k | 0 <= k < |group| ensures Residency.WarpFree(s, group[k]) {
      assert group[k].warps == sets[k] && FreeIn(FreeWarps(s), sets[k]);
    }
  }

  /**
   A cluster of a validated launch is never rejected: it is admitted as a whole or held back by the
   retryable shortage of resources; and an empty core always admits it.
   */
  lemma GeneratedAdmission(s: Residency.State, l: Launch, k: nat)
    requires Residency.Valid(s) && Walkable(l) && InRun(l, k)
    ensures !EmptyGrid(l)
    ensures AdmitCluster(s, Generated(l, k)) != Rejected
    ensures AdmitCluster(s, Generated(l, k)).Admitted? ==> Residency.Valid(AdmitCluster(s, Generated(l, k)).state)
    ensures s.ctas == map[] ==> AdmitCluster(s, Generated(l, k)).Admitted?
  {
    hide Walkable, InRun, ClusterOk, ConfigOk, Residency.Valid, Residency.Admit, AdmitCluster;
    GeneratedOk(l, k);
    LaunchFacts(l);
    ValidShape(s);
    var cs := Generated(l, k);
    var required := WarpsFor(l.blockSize);
    ClusterSizes(l, k);
    AdmitIsGroup(s, cs, required);
    var chosen := ChooseAll(FreeWarps(s), |cs|, required);
    if chosen.Some? {
      var group := Candidates(cs, chosen.value);
      if Residency.Admit(s, group).Some? {
        Residency.AdmitKeeps(s, group);
      }
    }
    if s.ctas == map[] {
      EmptyCore(s, cs, required, l.derived.alignedLocalMemory);
    }
  }

  lemma ValidShape(s: Residency.State)
    requires Residency.Valid(s)
    ensures |s.byWarp| == WARPS
    ensures s.ctas == map[] ==> s == Residency.EmptyState()
  {
    if s.ctas == map[] {
      forall w | 0 <= w < WARPS ensures s.byWarp[w] == None {
        assert Residency.OwnedBack(s, w);
      }
    }
  }

  lemma ClusterSizes(l: Launch, k: nat)
    requires Walkable(l) && InRun(l, k)
    ensures !EmptyGrid(l)
    ensures forall i | 0 <= i < |Generated(l, k)| ::
              AlignUp(Generated(l, k)[i].localMemory) == l.derived.alignedLocalMemory && Generated(l, k)[i].blockSize == l.blockSize
  {
    hide Walkable, AlignUp;
    LaunchFacts(l);
    AlignTwice(l.localMemory);
    forall i | 0 <= i < |Generated(l, k)|
      ensures AlignUp(Generated(l, k)[i].localMemory) == l.derived.alignedLocalMemory && Generated(l, k)[i].blockSize == l.blockSize
    {
      GeneratedAt(l, k, i);
    }
  }

  lemma {:induction false} EqualTotal(group: seq<Residency.Candidate>, size: nat)
    requires forall k | 0 <= k < |group| :: group[k].size == size
    ensures Residency.TotalSize(group) == |group| * size
  {
    if group != [] {
      EqualTotal(group[1..], size);
      LessOne(|group|, size);
    }
  }

  lemma EmptyCore(s: Residency.State, configs: seq<Config>, required: nat, size: nat)
    requires s == Residency.EmptyState() && Residency.Valid(s) && ClusterOk(configs) && required == WarpsFor(configs[0].blockSize)
    requires forall k | 0 <= k < |configs| :: ConfigOk(configs[k], required) && AlignUp(configs[k].localMemory) == size
    requires |configs| * required <= WARPS && |configs| * size <= LOCAL_MEMORY
    ensures AdmitCluster(s, configs).Admitted?
  {
    hide ClusterOk, ConfigOk, AlignUp, Residency.Admit, AdmitCluster, Residency.Valid;
    AllFree();
    ChooseFits(FreeWarps(s), |configs|, required);
    AdmitIsGroup(s, configs, required);
    var group := Candidates(configs, ChooseAll(FreeWarps(s), |configs|, required).value);
    EqualTotal(group, size);
    ClusterCount(configs);
    Residency.EmptyAdmits(group);
  }

  lemma ClusterCount(configs: seq<Config>)
    requires ClusterOk(configs)
    ensures |configs| <= WARPS
  {
  }

  lemma AllFree()
    ensures CountFree(FreeWarps(Residency.EmptyState()), 0) == WARPS
  {
    var f := FreeWarps(Residency.EmptyState());
    assert CountFree(f, 4) == 0;
    assert CountFree(f, 3) == 1;
    assert CountFree(f, 2) == 2;
    assert CountFree(f, 1) == 3;
  }
}
