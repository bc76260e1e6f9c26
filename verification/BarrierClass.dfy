/**
 The coordinator and the scheduler as the source keeps them: a record map and a
 slot table changed in place. Requests are staged first, checked against the
 scheduler, and committed only if the record is still the one they were staged on.
 */
module BarrierClass {
  import opened CacheTypes
  import opened Barriers

  /** A detached transaction on one record. */
  datatype Stage = Stage(key: Key, before: Option<Record>, outcome: Outcome)

  class BarrierCoordinator {
    const members: Members
    var records: map<Key, Record>

    constructor (m: Members)
      requires |m| == WARPS
      ensures members == m && records == map[]
    {
      members, records := m, map[];
    }

    function Find(key: Key): Option<Record>
      reads this
    {
      if key in records then Some(records[key]) else None
    }

    function Current(key: Key): Record
      reads this
    {
      if key in records then records[key] else NO_RECORD
    }

    /** Validates and stages one request without changing anything. */
    method StageRequest(e: Effect) returns (stage: Option<Stage>)
      requires |members| == WARPS
      ensures stage.Some? <==> KeyOf(members, e).Some? && Barriers.StageRequest(members, Current(KeyOf(members, e).value), e).Some?
      ensures stage.Some? ==>
                var key := KeyOf(members, e).value;
                stage.value == Stage(key, Find(key), Barriers.StageRequest(members, Current(key), e).value)
    {
      stage := None;
      var found := KeyOf(members, e);
      if found.None? { return; }
      var key := found.value;
      var r := Current(key);
      var after := r;
      var block, releases := false, {};
      if e.event {
        if !EventOk(r, e) { return; }
        after := after.(events := after.events + e.expected);
      } else if e.kind == Wait {
        if !WaitOk(r, e) { return; }
        if e.phase == after.phase {
          after := after.(waiters := after.waiters + {e.warp});
          block := true;
        }
      } else {
        if !ArrivalOk(r, e, MemberCount(members, key.cta)) { return; }
        after := after.(participants := e.participants, arrivals := after.arrivals + {e.warp});
        if e.sync {
          after := after.(waiters := after.waiters + {e.warp});
          block := true;
        }
        if |after.arrivals| == e.participants {
          after := after.(complete := true);
          if after.events == 0 {
            releases, block := after.waiters, false;
            after := Record({}, {}, 0, after.events, !after.phase, false);
          }
        }
      }
      stage := Some(Stage(key, Find(key), Outcome(after, block, releases)));
    }

    method StageEventCompletion(key: Key) returns (stage: Option<Stage>)
      requires |members| == WARPS
      ensures stage.Some? <==> KeyValid(members, key) && key in records && StageCompletion(records[key]).Some?
      ensures stage.Some? ==> stage.value == Stage(key, Find(key), StageCompletion(records[key]).value)
    {
      stage := None;
      if !KeyValid(members, key) || key !in records || records[key].events == 0 { return; }
      var after := records[key].(events := records[key].events - 1);
      var releases := {};
      if after.events == 0 && after.complete {
        releases := after.waiters;
        after := Record({}, {}, 0, after.events, !after.phase, false);
      }
      stage := Some(Stage(key, Find(key), Outcome(after, false, releases)));
    }

    /** Installs a staged record; a record changed since the staging is left alone. */
    method Commit(stage: Stage) returns (ok: bool)
      modifies this
      ensures ok == old(Find(stage.key) == stage.before)
      ensures records == if ok then old(records)[stage.key := stage.outcome.after] else old(records)
    {
      ok := Find(stage.key) == stage.before;
      if ok {
        records := records[stage.key := stage.outcome.after];
      }
    }
  }

  class Core {
    const barriers: BarrierCoordinator
    var slots: seq<Slot>

    ghost predicate Valid()
      reads this
    {
      |barriers.members| == WARPS && |slots| == WARPS
    }

    function Model(): State
      reads this, barriers
    {
      State(barriers.records, slots)
    }

    constructor (b: BarrierCoordinator)
      requires |b.members| == WARPS
      ensures Valid() && barriers == b && slots == seq(WARPS, _ => Elsewhere)
    {
      barriers, slots := b, seq(WARPS, _ => Elsewhere);
    }

    method ValidateReleases(source: nat, key: Key, releases: set<nat>) returns (ok: bool)
      requires Valid()
      ensures ok == ReleasesOk(Model(), source, key, releases)
    {
      if !(forall w | w in releases :: w < WARPS) { return false; }
      var id := 0;
      while id < WARPS
        invariant id <= WARPS && forall w | 0 <= w < id && w in releases && w != source :: slots[w] == Waiting(key)
      {
        if id in releases && id != source && slots[id] != Waiting(key) { return false; }
        id := id + 1;
      }
      return true;
    }

    method ApplyReleases(source: nat, releases: set<nat>)
      requires Valid()
      modifies this
      ensures Valid() && slots == Released(old(slots), source, releases)
    {
      var id := 0;
      while id < WARPS
        invariant id <= WARPS && |slots| == WARPS
        invariant forall w | 0 <= w < id :: slots[w] == if w in releases && w != source then Unblocked else old(slots)[w]
        invariant forall w | id <= w < WARPS :: slots[w] == old(slots)[w]
      {
        if id in releases && id != source {
          slots := slots[id := Unblocked];
        }
        id := id + 1;
      }
    }

    /** A warp's barrier instruction: stage, check the releases, commit, then move the slots. */
    method CoordinateBarrier(e: Effect) returns (ok: bool)
      requires Valid() && e.warp < WARPS && slots[e.warp] == Unblocked
      modifies this, barriers
      ensures Valid() && ok == old(Next(barriers.members, Model(), Ask(e))).Some?
      ensures Model() == if ok then old(Next(barriers.members, Model(), Ask(e))).value else old(Model())
    {
      ok := false;
      var stage := barriers.StageRequest(e);
      if stage.None? { return; }
      var key, o := stage.value.key, stage.value.outcome;
      var pass := ValidateReleases(e.warp, key, o.releases);
      if !pass { return; }
      ok := barriers.Commit(stage.value);
      ApplyReleases(e.warp, o.releases);
      slots := slots[e.warp := if o.block then Waiting(key) else Unblocked];
    }

    method CompleteBarrierEvent(key: Key) returns (ok: bool)
      requires Valid()
      modifies this, barriers
      ensures Valid() && ok == old(Next(barriers.members, Model(), Complete(key))).Some?
      ensures Model() == if ok then old(Next(barriers.members, Model(), Complete(key))).value else old(Model())
    {
      ok := false;
      var stage := barriers.StageEventCompletion(key);
      if stage.None? { return; }
      var o := stage.value.outcome;
      var pass := ValidateReleases(WARPS, key, o.releases);
      if !pass { return; }
      ok := barriers.Commit(stage.value);
      ApplyReleases(WARPS, o.releases);
    }
  }
}
