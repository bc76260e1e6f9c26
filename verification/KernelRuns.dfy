/**
 One kernel execution (emu/device/kernel.go): clusters are generated, admitted and
 reclaimed while the core steps. `done` and `stop` stand for what the core reports.
 The counts are totals over all resumed runs.
 */
module KernelRuns {
  import opened Arithmetic
  import opened CacheTypes
  import opened GridWalkers
  import opened ClusterAdmission
  import Residency
  import LocalMemory

  /** What the core reports in one turn of the run loop: finished CTAs, then whether its step ends the run. */
  datatype Round = Round(done: seq<nat>, stop: bool)

  datatype Outcome = Complete | Stopped | Budget | Fault

  /** The records of the k-th cluster. */
  function Cluster(l: Launch, k: nat): (r: seq<CTA>)
    requires Walkable(l) && !EmptyGrid(l)
    ensures |r| == l.derived.clusterSize
  {
    seq(l.derived.clusterSize, i requires 0 <= i < l.derived.clusterSize => RecordAt(l, Nth(l.derived.clusterSize, k, i)))
  }

  function Configs(ctas: seq<CTA>): (r: seq<Config>)
    ensures |r| == |ctas|
  {
    seq(|ctas|, i requires 0 <= i < |ctas| => CoreConfig(ctas[i]))
  }

  /** Clusters tile the grid: one more fits whenever anything is left. */
  lemma NextClusterFits(l: Launch, k: nat)
    requires Walkable(l) && !EmptyGrid(l) && Nth(l.derived.clusterSize, k, 0) < l.derived.totalCTAs
    ensures InRun(l, k)
  {
    hide Walkable, Radices, Volume;
    var rs, size := Radices(l), l.derived.clusterSize;
    TotalIsProduct(l);
    GridWalkers.LowRadices(l, 0);
    ClusterVolume(l);
    Tiled(l);
    var tiles := rs[3] * rs[4] * rs[5];
    assert l.derived.totalCTAs == tiles * size;
    if tiles <= k {
      ProductMonotone(tiles, k, size);
    }
    ProductMonotone(k + 1, tiles, size);
    assert (k + 1) * size == k * size + size;
  }

  lemma Tiled(l: Launch)
    requires Walkable(l) && !EmptyGrid(l)
    ensures var rs := Radices(l); l.derived.totalCTAs == (rs[3] * rs[4] * rs[5]) * l.derived.clusterSize
  {
    var rs := Radices(l);
    TilesPositive(l, 0);
    TilesPositive(l, 1);
    TilesPositive(l, 2);
    Regroup(rs[0], rs[1], rs[2], rs[3], rs[4], rs[5]);
    Gather(rs[0], rs[1], rs[2], rs[3], rs[4], rs[5]);
  }

  lemma Gather(a: nat, b: nat, c: nat, x: nat, y: nat, z: nat)
    ensures a * (b * (c * (x * (y * z)))) == (x * y * z) * (a * b * c)
  {
    assert x * (y * z) == x * y * z;
    var t := x * y * z;
    assert a * (b * (c * t)) == (a * b * c) * t;
  }

  lemma NthStep(size: nat, k: nat)
    ensures Nth(size, k + 1, 0) == Nth(size, k, 0) + size
  {
    assert (k + 1) * size == k * size + size;
  }

  lemma NthSum(size: nat, k: nat, i: nat)
    ensures Nth(size, k, i) == Nth(size, k, 0) + i
  {
  }

  lemma RunEnds(l: Launch, k: nat)
    requires Walkable(l) && InRun(l, k)
    ensures Nth(l.derived.clusterSize, k, l.derived.clusterSize) <= l.derived.totalCTAs
  {
  }

  /** The resident records after the first `n` new ones are entered. */
  function Assigned(m: map<nat, CTA>, ids: seq<nat>, ctas: seq<CTA>, n: nat): map<nat, CTA>
    requires n <= |ids| && n <= |ctas|
    decreases n
  {
    if n == 0 then m else Assigned(m, ids, ctas, n - 1)[ids[n - 1] := ctas[n - 1]]
  }

  lemma AddKey(m: map<nat, CTA>, x: nat, c: CTA)
    requires x !in m
    ensures m[x := c].Keys == m.Keys + {x} && |m[x := c].Keys| == |m.Keys| + 1
  {
  }

  /** The first `n` of a list of numbers, as a set. */
  function FirstOf(ids: seq<nat>, n: nat): set<nat>
    requires n <= |ids|
  {
    if n == 0 then {} else FirstOf(ids, n - 1) + {ids[n - 1]}
  }

  lemma {:induction false} FirstOfMeans(ids: seq<nat>, n: nat, x: nat)
    requires n <= |ids|
    ensures x in FirstOf(ids, n) <==> exists k :: 0 <= k < n && ids[k] == x
  {
    if n > 0 {
      FirstOfMeans(ids, n - 1, x);
    }
  }

  lemma FirstOfIs(ids: seq<nat>, n: nat)
    requires n <= |ids|
    ensures FirstOf(ids, n) == set k | 0 <= k < n :: ids[k]
  {
    hide FirstOf;
    forall x: nat ensures x in FirstOf(ids, n) <==> x in (set k | 0 <= k < n :: ids[k]) {
      FirstOfMeans(ids, n, x);
    }
  }

  /** The numbers are new to the map and none comes twice. */
  ghost predicate NewIds(m: map<nat, CTA>, ids: seq<nat>) {
    (forall i, j | 0 <= i < j < |ids| :: ids[i] < ids[j]) && forall i | 0 <= i < |ids| :: ids[i] !in m
  }

  lemma NextIsNew(m: map<nat, CTA>, ids: seq<nat>, n: nat)
    requires NewIds(m, ids) && n < |ids|
    ensures ids[n] !in m && ids[n] !in FirstOf(ids, n)
  {
    hide FirstOf;
    FirstOfMeans(ids, n, ids[n]);
  }

  lemma AssignedStep(m: map<nat, CTA>, ids: seq<nat>, ctas: seq<CTA>, n: nat)
    requires 0 < n <= |ids| && n <= |ctas|
    ensures Assigned(m, ids, ctas, n) == Assigned(m, ids, ctas, n - 1)[ids[n - 1] := ctas[n - 1]]
    ensures FirstOf(ids, n) == FirstOf(ids, n - 1) + {ids[n - 1]}
  {
  }

  lemma AssignedNone(m: map<nat, CTA>, ids: seq<nat>, ctas: seq<CTA>)
    ensures Assigned(m, ids, ctas, 0) == m && FirstOf(ids, 0) == {}
  {
  }

  lemma OneMoreKey(keys: set<nat>, more: set<nat>, m: map<nat, CTA>, x: nat, c: CTA)
    requires m.Keys == keys + more && x !in keys && x !in more
    ensures m[x := c].Keys == keys + (more + {x}) && |m[x := c].Keys| == |m.Keys| + 1
  {
    AddKey(m, x, c);
  }

  lemma {:induction false} AssignedKeys(m: map<nat, CTA>, ids: seq<nat>, ctas: seq<CTA>, n: nat)
    requires n <= |ids| && n <= |ctas| && NewIds(m, ids)
    ensures Assigned(m, ids, ctas, n).Keys == m.Keys + FirstOf(ids, n)
    ensures |Assigned(m, ids, ctas, n).Keys| == |m.Keys| + n
    decreases n
  {
    hide Assigned, FirstOf, NewIds;
    if n == 0 {
      AssignedNone(m, ids, ctas);
    } else {
      AssignedKeys(m, ids, ctas, n - 1);
      AssignedStep(m, ids, ctas, n);
      NextIsNew(m, ids, n - 1);
      OneMoreKey(m.Keys, FirstOf(ids, n - 1), Assigned(m, ids, ctas, n - 1), ids[n - 1], ctas[n - 1]);
    }
  }

  lemma {:induction false} StagedCount(configs: seq<Config>, sets: seq<seq<nat>>, intervals: seq<LocalMemory.Interval>)
    requires |configs| == |sets| && StageEach(configs, sets, intervals).Placed?
    ensures |StageEach(configs, sets, intervals).residents| == |configs|
    decreases |configs|
  {
    hide ConfigOk, AlignUp, LocalMemory.FirstFit;
    if configs != [] {
      var size := AlignUp(configs[0].localMemory);
      var o := LocalMemory.FirstFit(intervals, size).value;
      StagedCount(configs[1..], sets[1..], intervals + [LocalMemory.Interval(o, o + size)]);
    }
  }

  /** An admitted cluster takes the lowest free CTA numbers, one for each CTA. */
  lemma AdmittedKeys(s: Residency.State, configs: seq<Config>)
    requires |s.byWarp| == WARPS && AdmitCluster(s, configs).Admitted?
    ensures var ids := Residency.FreeIds(s, 0);
            && |configs| <= |ids|
            && AdmitCluster(s, configs).state.ctas.Keys == s.ctas.Keys + set k | 0 <= k < |configs| :: ids[k]
  {
    hide StageEach, Residency.FreeIds, Residency.Occupied, WarpsFor, RankOk, DimensionsOk;
    var sets := ChooseAll(FreeWarps(s), |configs|, WarpsFor(configs[0].blockSize)).value;
    StagedCount(configs, sets, Residency.Occupied(s, 0));
    Residency.InstallAllKeys(s, Residency.FreeIds(s, 0), StageEach(configs, sets, Residency.Occupied(s, 0)).residents);
  }

  /** Takes one cluster's records from the walk at CTA number `from`; nothing when the walk ends inside it. */
  method TakeCluster(l: Launch, from: nat, ghost k: nat) returns (r: Option<seq<CTA>>)
    requires Walkable(l) && InRun(l, k) && from == Nth(l.derived.clusterSize, k, 0)
    ensures !EmptyGrid(l) && r == Some(Cluster(l, k))
  {
    hide Walkable, InRun, RecordAt, Nth;
    RunNotEmpty(l, k);
    var size := l.derived.clusterSize;
    var list: seq<CTA> := [];
    var index := 0;
    while index < size
      invariant index <= size && |list| == index
      invariant forall i | 0 <= i < index :: list[i] == RecordAt(l, Nth(size, k, i))
    {
      IndexInRun(l, k, index);
      NthSum(size, k, index);
      if from + index >= l.derived.totalCTAs { return None; }
      list := list + [RecordAt(l, from + index)];
      index := index + 1;
    }
    assert list == Cluster(l, k);
    return Some(list);
  }

  lemma RunNotEmpty(l: Launch, k: nat)
    requires Walkable(l) && InRun(l, k)
    ensures !EmptyGrid(l)
  {
  }

  lemma SameConfigs(l: Launch, k: nat)
    requires Walkable(l) && !EmptyGrid(l)
    ensures Configs(Cluster(l, k)) == Generated(l, k)
  {
    hide Walkable, RecordAt, Nth;
  }

  lemma EmptyKeys(resident: map<nat, CTA>, ctas: map<nat, Residency.Resident>)
    requires resident.Keys == ctas.Keys
    ensures resident == map[] ==> ctas == map[]
  {
    if resident == map[] {
      assert ctas.Keys == {};
    }
  }

  /** The core's records after an admission, with the counts it adds. */
  lemma AdmissionCounts(core: Residency.State, configs: seq<Config>, resident: map<nat, CTA>, pending: seq<CTA>)
    requires |core.byWarp| == WARPS && AdmitCluster(core, configs).Admitted? && |pending| == |configs|
    requires resident.Keys == core.ctas.Keys
    ensures var ids := Residency.FreeIds(core, 0);
            && |pending| <= |ids|
            && var next := Assigned(resident, ids, pending, |pending|);
               && next.Keys == AdmitCluster(core, configs).state.ctas.Keys
               && |next.Keys| == |resident.Keys| + |pending|
  {
    hide AdmitCluster, Assigned;
    AdmittedKeys(core, configs);
    AssignedKeys(resident, Residency.FreeIds(core, 0), pending, |pending|);
    FirstOfIs(Residency.FreeIds(core, 0), |pending|);
  }

  /** The first `n` CTAs of a list. */
  function Leaving(done: seq<nat>, n: nat): set<nat>
    requires n <= |done|
  {
    set k | 0 <= k < n :: done[k]
  }

  /** The first `n` are resident and different. */
  predicate AllLeave(done: seq<nat>, n: nat, resident: set<nat>)
    requires n <= |done|
  {
    (forall k | 0 <= k < n :: done[k] in resident) && forall j, k | 0 <= j < k < n :: done[j] != done[k]
  }

  lemma StopsThere(done: seq<nat>, n: nat, keys: set<nat>, left: set<nat>)
    requires n < |done| && left == keys - Leaving(done, n) && done[n] !in left
    ensures !AllLeave(done, n + 1, keys)
  {
    if done[n] in Leaving(done, n) {
      var k :| 0 <= k < n && done[k] == done[n];
    }
  }

  lemma LeavePrefix(done: seq<nat>, n: nat, keys: set<nat>)
    requires n <= |done|
    ensures AllLeave(done, |done|, keys) ==> AllLeave(done, n, keys)
  {
  }

  lemma LeaveMore(done: seq<nat>, n: nat, keys: set<nat>)
    requires n < |done|
    ensures Leaving(done, n + 1) == Leaving(done, n) + {done[n]}
    ensures AllLeave(done, n, keys) && done[n] in keys && done[n] !in Leaving(done, n) ==> AllLeave(done, n + 1, keys)
  {
  }

  class KernelExecution {
    const launch: Launch
    var emitted: nat
    var pending: seq<CTA>
    var resident: map<nat, CTA>
    var core: Residency.State
    var generated: nat
    var admitted: nat
    var completed: nat
    ghost var clusters: nat

    /** Nothing is lost: generated = admitted + pending, admitted = completed + resident. */
    ghost predicate Conserved()
      reads this
    {
      generated == emitted == admitted + |pending| && admitted == completed + |resident.Keys|
    }

    ghost predicate Valid()
      reads this
    {
      && Walkable(launch) && Residency.Valid(core) && resident.Keys == core.ctas.Keys
      && emitted <= launch.derived.totalCTAs && Conserved()
      && (EmptyGrid(launch) ==> pending == [])
      && (!EmptyGrid(launch) ==>
            && emitted == Nth(launch.derived.clusterSize, clusters, 0)
            && (pending != [] ==> clusters > 0 && InRun(launch, clusters - 1) && pending == Cluster(launch, clusters - 1)))
    }

    constructor (l: Launch)
      requires Walkable(l)
      ensures Valid() && launch == l && generated == 0
    {
      launch, emitted, pending, resident, core := l, 0, [], map[], Residency.EmptyState();
      generated, admitted, completed, clusters := 0, 0, 0, 0;
      new;
      Residency.EmptyTables();
    }

    /**
     Finished CTAs leave the core one by one; an unknown or repeated one is an error that
     stops the scan there.
     */
    method ReclaimCompleted(done: seq<nat>) returns (ok: bool, count: nat)
      requires Valid()
      modifies this
      ensures Valid() && pending == old(pending) && emitted == old(emitted)
      ensures generated == old(generated) && admitted == old(admitted) && completed == old(completed) + count
      ensures count <= |done| && resident == old(resident) - Leaving(done, count)
      ensures ok <==> AllLeave(done, |done|, old(resident.Keys))
      ensures AllLeave(done, count, old(resident.Keys))
      ensures if ok then count == |done| else count < |done| && !AllLeave(done, count + 1, old(resident.Keys))
    {
      hide Walkable, Residency.Valid, InRun, Cluster, Valid;
      ghost var keys := resident.Keys;
      count := 0;
      assert resident == resident - Leaving(done, 0);
      while count < |done|
        invariant count <= |done| && Valid() && pending == old(pending) && emitted == old(emitted)
        invariant generated == old(generated) && admitted == old(admitted) && completed == old(completed) + count
        invariant resident == old(resident) - Leaving(done, count) && AllLeave(done, count, keys)
      {
        if done[count] !in resident {
          assert !AllLeave(done, count + 1, keys) by { StopsThere(done, count, keys, resident.Keys); }
          LeavePrefix(done, count + 1, keys);
          ok := false;
          return;
        }
        ReclaimOne(done[count]);
        LeaveMore(done, count, keys);
        count := count + 1;
      }
      ok := true;
    }

    method ReclaimOne(id: nat)
      requires Valid() && id in resident
      modifies this
      ensures Valid() && pending == old(pending) && emitted == old(emitted)
      ensures generated == old(generated) && admitted == old(admitted)
      ensures completed == old(completed) + 1 && resident == old(resident) - {id}
    {
      hide Walkable, Residency.Valid, InRun, Cluster, Residency.Reclaim;
      ValidShape(core);
      Residency.ReclaimKeeps(core, id);
      core := Residency.Reclaim(core, id);
      resident := resident - {id};
      completed := completed + 1;
    }

    /** Generates the next cluster; running out inside one would be an error, and cannot happen. */
    method GenerateCluster() returns (ok: bool)
      requires Valid() && pending == [] && emitted < launch.derived.totalCTAs
      modifies this
      ensures Valid() && ok && |pending| == launch.derived.clusterSize
      ensures generated == old(generated) + launch.derived.clusterSize
    {
      hide Walkable, Residency.Valid, InRun, RecordAt, Nth, Conserved, Cluster;
      NonEmpty(launch);
      NextClusterFits(launch, clusters);
      ConservedMeans();
      var size := launch.derived.clusterSize;
      var list := TakeCluster(launch, emitted, clusters);
      NthStep(size, clusters);
      NthSum(size, clusters, size);
      RunEnds(launch, clusters);
      pending := list.value;
      emitted, generated := emitted + size, generated + size;
      clusters := clusters + 1;
      ConservedNow();
      ok := true;
    }

    lemma ConservedMeans()
      requires Conserved()
      ensures generated == emitted == admitted + |pending| && admitted == completed + |resident.Keys|
    {
    }

    lemma ConservedNow()
      requires generated == emitted == admitted + |pending| && admitted == completed + |resident.Keys|
      ensures Conserved()
    {
    }

    /** Offers the pending cluster to the core. */
    method AdmitPending() returns (r: Result)
      requires Valid() && pending != []
      modifies this
      ensures Valid() && r != Rejected && (old(resident) == map[] ==> r.Admitted?)
      ensures r.Admitted? ==> pending == [] && admitted == old(admitted) + |old(pending)|
      ensures !r.Admitted? ==> pending == old(pending) && resident == old(resident)
    {
      hide Walkable, Residency.Valid, InRun, Nth, Conserved, AdmitCluster, Residency.FreeIds, Assigned, Cluster, Generated;
      PendingNotEmpty();
      ValidShape(core);
      SameConfigs(launch, clusters - 1);
      GeneratedAdmission(core, launch, clusters - 1);
      EmptyKeys(resident, core.ctas);
      var configs := Configs(pending);
      r := AdmitCluster(core, configs);
      if r.Admitted? {
        AdmissionCounts(core, configs, resident, pending);
        ConservedMeans();
        var next := Assigned(resident, Residency.FreeIds(core, 0), pending, |pending|);
        resident, core, admitted, pending := next, r.state, admitted + |pending|, [];
        ConservedNow();
      }
    }

    lemma PendingNotEmpty()
      requires Valid() && pending != []
      ensures !EmptyGrid(launch)
    {
    }

    /** The run loop, one entry of `script` for each turn until the run ends. */
    method Run(script: seq<Round>) returns (outcome: Outcome)
      requires Valid()
      modifies this
      ensures Valid()
      ensures outcome == Complete ==>
                && generated == admitted == completed == launch.derived.totalCTAs && pending == [] && resident == map[]
    {
      var turn := 0;
      while turn < |script|
        invariant turn <= |script| && Valid()
      {
        var ok, _ := ReclaimCompleted(script[turn].done);
        if !ok { return Fault; }
        if emitted == launch.derived.totalCTAs && pending == [] && resident == map[] {
          Finished();
          return Complete;
        }
        if pending == [] && emitted < launch.derived.totalCTAs {
          ok := GenerateCluster();
        }
        if pending != [] {
          var r := AdmitPending();
          if r.Admitted? {
            turn := turn + 1;
            continue;
          }
          assert resident != map[];
        }
        if script[turn].stop { return Stopped; }
        turn := turn + 1;
      }
      return Budget;
    }

    lemma Finished()
      requires Conserved() && pending == [] && resident == map[]
      ensures generated == admitted == completed == emitted
    {
    }
  }
}
