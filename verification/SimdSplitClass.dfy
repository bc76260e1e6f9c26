/** The SIMD split as the object it is: its fields, its validation loops and its clock edge (timing/memsys/split.go). */
module SimdSplitClass {
  import opened CacheTypes
  import opened Coalescing
  import opened SimdSplits
  import SimdSplitLedger
  import CoalescingOrder

  // ------------------------------------------------------------------------ running masks

  function Got(m: map<Identity, Lanes>, id: Identity): Lanes {
    if id in m then m[id] else {}
  }

  /** The map holds, per transaction, the lanes the events name. */
  ghost predicate Tracks(m: map<Identity, Lanes>, es: seq<LaneEvent>) {
    forall id :: Got(m, id) == LanesOf(es, id)
  }

  lemma TracksNext(m: map<Identity, Lanes>, es: seq<LaneEvent>, e: LaneEvent)
    requires Tracks(m, es)
    ensures Tracks(m[e.id := Got(m, e.id) + e.mask], es + [e])
  {
    var n := m[e.id := Got(m, e.id) + e.mask];
    forall id ensures Got(n, id) == LanesOf(es + [e], id) {
      SimdSplitLedger.LanesAppend(es, [e], id);
      SimdSplitLedger.LanesOne(e, id);
      assert Got(m, id) == LanesOf(es, id);
    }
  }

  /** One more event: apart from the rest exactly when its lanes are new for its transaction. */
  lemma ApartNext(es: seq<LaneEvent>, e: LaneEvent)
    ensures Apart(es + [e]) <==> Apart(es) && e.mask !! LanesOf(es, e.id)
  {
    var all := es + [e];
    if Apart(all) {
      forall i, j | 0 <= i < j < |es| && es[i].id == es[j].id ensures es[i].mask !! es[j].mask {
        assert all[i].mask !! all[j].mask;
      }
      var bound := LanesOf(es, e.id) - e.mask;
      forall k | 0 <= k < |es| && es[k].id == e.id ensures es[k].mask <= bound {
        assert all[k].mask !! all[|es|].mask;
        SimdSplitLedger.LanesHold(es, k);
      }
      SimdSplitLedger.LanesWithin(es, e.id, bound);
    }
    if Apart(es) && e.mask !! LanesOf(es, e.id) {
      forall i | 0 <= i < |es| && es[i].id == e.id ensures es[i].mask !! e.mask {
        SimdSplitLedger.LanesHold(es, i);
      }
      SimdSplitLedger.ApartAppend(es, [e]);
    }
  }

  lemma {:induction false} ApartPrefix(es: seq<LaneEvent>, more: seq<LaneEvent>)
    ensures Apart(es + more) ==> Apart(es)
  {
    if Apart(es + more) {
      forall i, j | 0 <= i < j < |es| && es[i].id == es[j].id ensures es[i].mask !! es[j].mask {
        assert (es + more)[i].mask !! (es + more)[j].mask;
      }
    }
  }

  // ---------------------------------------------------------------------- validation loops

  /** One path's progress events, after those already seen. */
  method CheckProgress(s: Split, p: nat, es: seq<LaneEvent>, ghost before: seq<LaneEvent>, seen: map<Identity, Lanes>)
    returns (ok: bool, now: map<Identity, Lanes>)
    requires StateShaped(s) && Apart(before) && Tracks(seen, before)
    ensures ok == ((forall k | 0 <= k < |es| :: ProgressOk(s, p, es[k])) && Apart(before + es))
    ensures ok ==> Tracks(now, before + es)
  {
    hide ProgressOk, Tracks, Apart;
    now := seen;
    var k := 0;
    assert before + es[..0] == before;
    while k < |es|
      invariant k <= |es| && (forall j | 0 <= j < k :: ProgressOk(s, p, es[j]))
      invariant Apart(before + es[..k]) && Tracks(now, before + es[..k])
    {
      var e := es[k];
      assert before + es[..k + 1] == (before + es[..k]) + [e];
      ApartNext(before + es[..k], e);
      TracksAt(now, before + es[..k], e.id);
      if !ProgressOk(s, p, e) || !(e.mask !! Got(now, e.id)) {
        assert (before + es[..k + 1]) + es[k + 1..] == before + es;
        ApartPrefix(before + es[..k + 1], es[k + 1..]);
        ok := false;
        return;
      }
      TracksNext(now, before + es[..k], e);
      now := now[e.id := Got(now, e.id) + e.mask];
      k := k + 1;
    }
    assert before + es[..k] == before + es;
    ok := true;
  }

  lemma TracksAt(m: map<Identity, Lanes>, es: seq<LaneEvent>, id: Identity)
    requires Tracks(m, es)
    ensures Got(m, id) == LanesOf(es, id)
  {
  }

  /** One path's returned read or stores, after the completions already seen. */
  method CheckCompletions(s: Split, i: SplitInput, p: nat, es: seq<LaneEvent>, write: bool, progress: map<Identity, Lanes>,
                          ghost before: seq<LaneEvent>, seen: map<Identity, Lanes>)
    returns (ok: bool, now: map<Identity, Lanes>)
    requires StateShaped(s) && InputShaped(i) && Apart(before) && Tracks(seen, before)
    requires Tracks(progress, i.progress[0] + i.progress[1])
    ensures ok == ((forall k | 0 <= k < |es| :: CompletionOk(s, i, p, es[k], write)) && Apart(before + es))
    ensures ok ==> Tracks(now, before + es)
  {
    hide CompletionOk, Tracks, Apart;
    now := seen;
    var k := 0;
    assert before + es[..0] == before;
    while k < |es|
      invariant k <= |es| && (forall j | 0 <= j < k :: CompletionOk(s, i, p, es[j], write))
      invariant Apart(before + es[..k]) && Tracks(now, before + es[..k])
    {
      var e := es[k];
      assert before + es[..k + 1] == (before + es[..k]) + [e];
      ApartNext(before + es[..k], e);
      TracksAt(now, before + es[..k], e.id);
      CompletionChecks(s, i, p, e, write, progress);
      if !(e.id in s.records && Checks(s.records[e.id], p, e, write, Got(progress, e.id))) || !(e.mask !! Got(now, e.id)) {
        assert (before + es[..k + 1]) + es[k + 1..] == before + es;
        ApartPrefix(before + es[..k + 1], es[k + 1..]);
        ok := false;
        return;
      }
      TracksNext(now, before + es[..k], e);
      now := now[e.id := Got(now, e.id) + e.mask];
      k := k + 1;
    }
    assert before + es[..k] == before + es;
    ok := true;
  }

  predicate Checks(rec: Record, p: nat, e: LaneEvent, write: bool, progress: Lanes)
    requires Shaped(rec.request.simd)
  {
    && e.tag == rec.request.tag && rec.request.simd.write == write && e.mask != {}
    && e.mask <= PathMask(rec.request.simd, p) && e.mask <= rec.sent + progress && e.mask !! rec.arrived
  }

  lemma CompletionChecks(s: Split, i: SplitInput, p: nat, e: LaneEvent, write: bool, progress: map<Identity, Lanes>)
    requires StateShaped(s) && InputShaped(i) && Tracks(progress, i.progress[0] + i.progress[1])
    ensures CompletionOk(s, i, p, e, write) <==> e.id in s.records && Checks(s.records[e.id], p, e, write, Got(progress, e.id))
  {
    hide LanesOf, PathMask;
    assert Got(progress, e.id) == LanesOf(i.progress[0] + i.progress[1], e.id);
  }

  lemma TracksNothing()
    ensures Tracks(map[], []) && Apart([])
  {
  }

  method ValidateProgress(s: Split, i: SplitInput) returns (ok: bool, progress: map<Identity, Lanes>)
    requires StateShaped(s) && InputShaped(i)
    ensures ok == ProgressesOk(s, i)
    ensures ok ==> Tracks(progress, i.progress[0] + i.progress[1])
  {
    hide ProgressOk, Tracks, Apart;
    TracksNothing();
    ok, progress := CheckProgress(s, 0, i.progress[0], [], map[]);
    assert [] + i.progress[0] == i.progress[0];
    ApartPrefix(i.progress[0], i.progress[1]);
    if !ok {
      return;
    }
    ok, progress := CheckProgress(s, 1, i.progress[1], i.progress[0], progress);
  }

  /** One path's read and stores. */
  method ValidatePath(s: Split, i: SplitInput, p: nat, progress: map<Identity, Lanes>, ghost before: seq<LaneEvent>, seen: map<Identity, Lanes>)
    returns (ok: bool, now: map<Identity, Lanes>)
    requires StateShaped(s) && InputShaped(i) && p < 2 && Apart(before) && Tracks(seen, before)
    requires Tracks(progress, i.progress[0] + i.progress[1])
    ensures ok == (ReturnsOk(s, i, p) && Apart(before + Singly(i.returned[p]) + i.stores[p]))
    ensures ok ==> Tracks(now, before + Singly(i.returned[p]) + i.stores[p])
  {
    hide CompletionOk, Tracks, Apart;
    var reply := Singly(i.returned[p]);
    ApartPrefix(before + reply, i.stores[p]);
    ReadChecks(s, i, p);
    ok, now := CheckCompletions(s, i, p, reply, false, progress, before, seen);
    if !ok {
      return;
    }
    ok, now := CheckCompletions(s, i, p, i.stores[p], true, progress, before + reply, now);
  }

  /** Everything the edge is refused for, in the order it is looked for. */
  method Validate(s: Split, i: SplitInput) returns (ok: bool)
    requires StateShaped(s) && InputShaped(i)
    ensures ok == Follows(s, i)
  {
    hide ProgressesOk, ReturnsOk, Tracks, Apart, RequestOk, StallOk;
    if s.held.Some? && i.request != s.held {
      return false;
    }
    if i.request.Some? && !RequestOk(s, i.request.value) {
      return false;
    }
    var progress, seen: map<Identity, Lanes>;
    ok, progress := ValidateProgress(s, i);
    if !ok {
      return;
    }
    if !StallOk(s.heldReads[0], i.returned[0]) || !StallOk(s.heldReads[1], i.returned[1]) {
      return false;
    }
    TracksNothing();
    var global := [] + Singly(i.returned[0]) + i.stores[0];
    assert Completions(i) == global + Singly(i.returned[1]) + i.stores[1] == global + (Singly(i.returned[1]) + i.stores[1]);
    ApartPrefix(global, Singly(i.returned[1]) + i.stores[1]);
    ok, seen := ValidatePath(s, i, 0, progress, [], map[]);
    if !ok {
      return;
    }
    ok, seen := ValidatePath(s, i, 1, progress, global, seen);
  }

  lemma ReadChecks(s: Split, i: SplitInput, p: nat)
    requires StateShaped(s) && InputShaped(i) && p < 2
    ensures (forall k | 0 <= k < |Singly(i.returned[p])| :: CompletionOk(s, i, p, Singly(i.returned[p])[k], false)) <==>
            (i.returned[p].Some? ==> CompletionOk(s, i, p, i.returned[p].value, false))
  {
    hide CompletionOk;
    if i.returned[p].Some? {
      assert Singly(i.returned[p])[0] == i.returned[p].value;
    }
  }

  // -------------------------------------------------------------------------- ledger loops

  lemma NoLanes()
    ensures forall id :: LanesOf([], id) == {}
  {
  }

  function WithSent(rec: Record, lanes: Lanes): Record {
    rec.(sent := rec.sent + lanes)
  }

  function WithLeft(rec: Record, lanes: Lanes): Record {
    rec.(sent := rec.sent + lanes, released := rec.released + lanes)
  }

  function WithAnswered(rec: Record, lanes: Lanes): Record {
    rec.(completed := rec.completed + lanes)
  }

  function WithTaken(rec: Record, lanes: Lanes): Record {
    rec.(arrived := rec.arrived + lanes)
  }

  lemma MarkMore(rec: Record, a: Lanes, b: Lanes)
    ensures WithSent(WithSent(rec, a), b) == WithSent(rec, a + b)
    ensures WithSent(rec, {}) == rec && WithLeft(rec, {}) == rec && WithAnswered(rec, {}) == rec && WithTaken(rec, {}) == rec
  {
    assert rec.sent + a + b == rec.sent + (a + b);
  }

  /** Progress: the events' lanes are sent. */
  method MarkSent(records: map<Identity, Record>, es: seq<LaneEvent>) returns (r: map<Identity, Record>)
    requires forall k | 0 <= k < |es| :: es[k].id in records
    ensures r.Keys == records.Keys && forall id | id in records :: r[id] == WithSent(records[id], LanesOf(es, id))
  {
    hide LanesOf, WithSent;
    r := records;
    forall id | id in records ensures r[id] == WithSent(records[id], LanesOf(es[..0], id)) {
      NoLanes();
      MarkMore(records[id], {}, {});
    }
    var k := 0;
    while k < |es|
      invariant k <= |es| && r.Keys == records.Keys
      invariant forall id | id in records :: r[id] == WithSent(records[id], LanesOf(es[..k], id))
    {
      var e := es[k];
      assert es[..k + 1] == es[..k] + [e];
      forall id | id in records ensures LanesOf(es[..k + 1], id) == if e.id == id then LanesOf(es[..k], id) + e.mask else LanesOf(es[..k], id) {
        SimdSplitLedger.LanesAppend(es[..k], [e], id);
        SimdSplitLedger.LanesOne(e, id);
      }
      MarkMore(records[e.id], LanesOf(es[..k], e.id), e.mask);
      r := r[e.id := WithSent(r[e.id], e.mask)];
      k := k + 1;
    }
    assert es[..k] == es;
  }

  /** A child that leaves its buffer is sent and released. */
  function LeavingAt(s: Split, i: SplitInput, p: nat, id: Identity): Lanes
    requires |s.children| == 2 && InputShaped(i) && p < 2
  {
    if Leaves(s, i, p) && s.children[p].value.id == id then s.children[p].value.simd.mask else {}
  }

  method MarkLeft(records: map<Identity, Record>, s: Split, i: SplitInput, p: nat) returns (r: map<Identity, Record>)
    requires |s.children| == 2 && InputShaped(i) && p < 2 && (s.children[p].Some? ==> s.children[p].value.id in records)
    ensures r.Keys == records.Keys && forall id | id in records :: r[id] == WithLeft(records[id], LeavingAt(s, i, p, id))
  {
    hide WithLeft;
    forall id | id in records ensures WithLeft(records[id], {}) == records[id] { MarkMore(records[id], {}, {}); }
    r := records;
    if s.children[p].Some? && i.pathReady[p] {
      var c := s.children[p].value;
      r := r[c.id := WithLeft(r[c.id], c.simd.mask)];
    }
  }

  method MarkAnswered(records: map<Identity, Record>, s: Split, i: SplitInput) returns (r: map<Identity, Record>)
    requires s.response.Some? ==> s.response.value.id in records
    ensures r.Keys == records.Keys && forall id | id in records :: r[id] == WithAnswered(records[id], AnsweredLanes(s, i, id))
  {
    hide WithAnswered;
    forall id | id in records ensures WithAnswered(records[id], {}) == records[id] { MarkMore(records[id], {}, {}); }
    r := records;
    if s.response.Some? && i.responseReady {
      var e := s.response.value;
      r := r[e.id := WithAnswered(r[e.id], e.mask)];
    }
  }

  method MarkTaken(records: map<Identity, Record>, s: Split, i: SplitInput) returns (r: map<Identity, Record>)
    requires InputShaped(i) && (Taken(s, i).Some? ==> Taken(s, i).value.id in records)
    ensures r.Keys == records.Keys && forall id | id in records :: r[id] == WithTaken(records[id], TakenLanes(s, i, id))
  {
    hide WithTaken, TakenLanes, Taken;
    forall id | id in records
      ensures WithTaken(records[id], {}) == records[id]
      ensures TakenLanes(s, i, id) == if Taken(s, i).Some? && Taken(s, i).value.id == id then Taken(s, i).value.mask else {}
    {
      MarkMore(records[id], {}, {});
      TakenLanesAre(s, i, id);
    }
    r := records;
    var taken := Taken(s, i);
    if taken.Some? {
      r := r[taken.value.id := WithTaken(r[taken.value.id], taken.value.mask)];
    }
  }

  /** The edge's marks, one after the other, are the record's advance. */
  lemma MarksAdvance(s: Split, i: SplitInput, id: Identity)
    requires StateShaped(s) && InputShaped(i) && id in s.records
    ensures var sent := WithSent(s.records[id], LanesOf(i.progress[0] + i.progress[1], id));
            var left := WithLeft(WithLeft(WithAnswered(sent, AnsweredLanes(s, i, id)), LeavingAt(s, i, 0, id)), LeavingAt(s, i, 1, id));
            WithStored(WithTaken(left, TakenLanes(s, i, id)), LanesOf(i.stores[0] + i.stores[1], id)) == Advanced(s, i, id)
  {
    hide LanesOf, TakenLanes, AnsweredLanes, LeavingAt;
    LeavingBoth(s, i, id);
    var rec := s.records[id];
    var a, b := LeavingAt(s, i, 0, id), LeavingAt(s, i, 1, id);
    var prog := LanesOf(i.progress[0] + i.progress[1], id);
    assert rec.sent + prog + a + b == rec.sent + prog + (a + b);
    assert rec.released + a + b == rec.released + (a + b);
  }

  lemma LeavingBoth(s: Split, i: SplitInput, id: Identity)
    requires |s.children| == 2 && InputShaped(i)
    ensures LeavingLanes(s, i, id) == LeavingAt(s, i, 0, id) + LeavingAt(s, i, 1, id)
  {
  }

  /** Stores arrive and complete at once. */
  function WithStored(rec: Record, lanes: Lanes): Record {
    rec.(arrived := rec.arrived + lanes, completed := rec.completed + lanes)
  }

  lemma StoredMore(rec: Record, a: Lanes, b: Lanes)
    ensures WithStored(WithStored(rec, a), b) == WithStored(rec, a + b) && WithStored(rec, {}) == rec
  {
    assert rec.arrived + a + b == rec.arrived + (a + b) && rec.completed + a + b == rec.completed + (a + b);
  }

  method MarkStored(records: map<Identity, Record>, es: seq<LaneEvent>) returns (r: map<Identity, Record>)
    requires forall k | 0 <= k < |es| :: es[k].id in records
    ensures r.Keys == records.Keys && forall id | id in records :: r[id] == WithStored(records[id], LanesOf(es, id))
  {
    hide LanesOf, WithStored;
    r := records;
    forall id | id in records ensures r[id] == WithStored(records[id], LanesOf(es[..0], id)) {
      NoLanes();
      StoredMore(records[id], {}, {});
    }
    var k := 0;
    while k < |es|
      invariant k <= |es| && r.Keys == records.Keys
      invariant forall id | id in records :: r[id] == WithStored(records[id], LanesOf(es[..k], id))
    {
      var e := es[k];
      assert es[..k + 1] == es[..k] + [e];
      forall id | id in records ensures LanesOf(es[..k + 1], id) == if e.id == id then LanesOf(es[..k], id) + e.mask else LanesOf(es[..k], id) {
        SimdSplitLedger.LanesAppend(es[..k], [e], id);
        SimdSplitLedger.LanesOne(e, id);
      }
      StoredMore(records[e.id], LanesOf(es[..k], e.id), e.mask);
      r := r[e.id := WithStored(r[e.id], e.mask)];
      k := k + 1;
    }
    assert es[..k] == es;
  }

  /** The sweep that announces finished records and drops them. */
  method Sweep(records: map<Identity, Record>) returns (left: map<Identity, Record>, announced: set<Identity>)
    ensures left == map id | id in records && !Finished(records[id]) :: records[id]
    ensures announced == set id | id in records && Finished(records[id])
  {
    hide Finished;
    left, announced := records, {};
    var todo := records.Keys;
    while todo != {}
      invariant todo <= records.Keys
      invariant left == map id | id in records && !(id !in todo && Finished(records[id])) :: records[id]
      invariant announced == set id | id in records && id !in todo && Finished(records[id])
      decreases |todo|
    {
      var id :| id in todo;
      if Finished(records[id]) {
        announced := announced + {id};
        left := left - {id};
      }
      todo := todo - {id};
    }
  }

  // ----------------------------------------------------------------------------- the object

  class SIMDSplit {
    var requests: seq<Option<SimdRequest>>
    var response: Option<LaneEvent>
    var held: Option<SimdRequest>
    var heldReads: seq<Option<LaneEvent>>
    var submitted: set<nat>
    var records: map<Identity, Record>
    var last: nat
    var used: bool
    ghost var log: SimdSplitLedger.Log

    function State(): Split
      reads this
    {
      Split(records, requests, response, held, heldReads, submitted, last, used)
    }

    constructor ()
      ensures State() == EMPTY && log == SimdSplitLedger.Log([], map[]) && Valid()
    {
      requests, response, held, heldReads := [None, None], None, None, [None, None];
      submitted, records, last, used := {}, map[], 0, false;
      log := SimdSplitLedger.Log([], map[]);
      new;
      SimdSplitLedger.Starts();
    }

    /** The ledger of every state reached is kept; the log is what the proof remembers of the past. */
    ghost predicate Valid()
      reads this
    {
      SimdSplitLedger.Kept(State(), log)
    }

    /**
     One clock edge. A refused edge changes nothing; otherwise the new state is the
     next one, and what is announced was never announced before.
     */
    method Step(i: SplitInput) returns (ok: bool, announced: set<Identity>)
      requires Valid() && InputShaped(i)
      modifies this
      ensures Valid() && ok == Follows(old(State()), i)
      ensures !ok ==> State() == old(State()) && log == old(log)
      ensures ok ==> State() == Next(old(State()), i) && log == SimdSplitLedger.Logged(old(State()), old(log), i)
      ensures ok ==> announced == Announced(old(State()), i) && announced !! old(log).announced.Keys
    {
      hide Follows, Next, Announced, StateShaped, SimdSplitLedger.Kept, SimdSplitLedger.Logged, Departs;
      var s := State();
      SimdSplitLedger.KeptShaped(s, log);
      announced := {};
      ok := Validate(s, i);
      if !ok {
        return;
      }
      SimdSplitLedger.StepKeeps(s, log, i);
      KeptDeparts(s, log);
      log := SimdSplitLedger.Logged(s, log, i);
      var n;
      n, announced := Edge(s, i);
      records, requests, response, held := n.records, n.children, n.response, n.held;
      heldReads, submitted, last, used := n.heldReads, n.submitted, n.last, n.used;
    }
  }

  /** Buffered children and the buffered answer belong to live records. */
  predicate Departs(s: Split) {
    && |s.children| == 2
    && (s.children[0].Some? ==> s.children[0].value.id in s.records)
    && (s.children[1].Some? ==> s.children[1].value.id in s.records)
    && (s.response.Some? ==> s.response.value.id in s.records)
  }

  lemma KeptDeparts(s: Split, g: SimdSplitLedger.Log)
    requires SimdSplitLedger.Kept(s, g)
    ensures Departs(s)
  {
  }

  /** Progress, answers, departures and stores, entered in the ledger in the edge's order. */
  method Mark(s: Split, i: SplitInput) returns (recs: map<Identity, Record>)
    requires StateShaped(s) && InputShaped(i) && Follows(s, i) && Departs(s)
    ensures recs.Keys == s.records.Keys && forall id | id in s.records :: recs[id] == Advanced(s, i, id)
  {
    hide Follows, LanesOf, Advanced, WithSent, WithLeft, WithAnswered, WithTaken, WithStored, LeavingAt, TakenLanes, AnsweredLanes, Taken;
    EventsKnown(s, i);
    var sent := MarkSent(s.records, i.progress[0] + i.progress[1]);
    var answered := MarkAnswered(sent, s, i);
    var half := MarkLeft(answered, s, i, 0);
    var left := MarkLeft(half, s, i, 1);
    var taken := MarkTaken(left, s, i);
    recs := MarkStored(taken, i.stores[0] + i.stores[1]);
    assert sent.Keys == answered.Keys == half.Keys == left.Keys == taken.Keys == recs.Keys == s.records.Keys;
    forall id | id in s.records ensures recs[id] == Advanced(s, i, id) {
      assert sent[id] == WithSent(s.records[id], LanesOf(i.progress[0] + i.progress[1], id));
      assert answered[id] == WithAnswered(sent[id], AnsweredLanes(s, i, id));
      assert left[id] == WithLeft(WithLeft(answered[id], LeavingAt(s, i, 0, id)), LeavingAt(s, i, 1, id));
      assert recs[id] == WithStored(WithTaken(left[id], TakenLanes(s, i, id)), LanesOf(i.stores[0] + i.stores[1], id));
      MarksAdvance(s, i, id);
    }
  }

  function Opened(records: map<Identity, Record>, q: SimdRequest): Record {
    if q.id in records then records[q.id] else Record(q, {}, {}, {}, {}, {}, false)
  }

  /** Lanes of the offered request enter a buffer; its record is opened if it has none. */
  function Queue(records: map<Identity, Record>, q: SimdRequest, lanes: Lanes): map<Identity, Record> {
    if lanes == {} then records
    else records[q.id := Opened(records, q).(queued := Opened(records, q).queued + lanes)]
  }

  lemma QueueMore(records: map<Identity, Record>, q: SimdRequest, a: Lanes, b: Lanes)
    ensures Queue(Queue(records, q, a), q, b) == Queue(records, q, a + b)
  {
    assert Opened(records, q).queued + a + b == Opened(records, q).queued + (a + b);
    if a == {} {
      assert a + b == b;
    } else if b == {} {
      assert a + b == a;
    }
  }

  function EnteringAt(s: Split, i: SplitInput, p: nat): Lanes
    requires StateShaped(s) && InputShaped(i) && i.request.Some? && p < 2
  {
    if Enters(s, i, p) then PathMask(i.request.value.simd, p) else {}
  }

  /** The offered request's children enter their free buffers. */
  method EnterRequest(records: map<Identity, Record>, s: Split, i: SplitInput) returns (r: map<Identity, Record>)
    requires StateShaped(s) && InputShaped(i)
    requires records == map id | id in s.records :: Advanced(s, i, id)
    ensures r == Ledgered(s, i)
  {
    hide Advanced, Enters, Takes, EnteringAt;
    r := records;
    if i.request.Some? {
      var q := i.request.value;
      var p := 0;
      var entered: Lanes := {};
      while p < 2
        invariant p <= 2 && r == Queue(records, q, entered)
        invariant entered == (if p > 0 then EnteringAt(s, i, 0) else {}) + (if p > 1 then EnteringAt(s, i, 1) else {})
      {
        r := Queue(r, q, EnteringAt(s, i, p));
        QueueMore(records, q, entered, EnteringAt(s, i, p));
        entered := entered + EnteringAt(s, i, p);
        p := p + 1;
      }
      EnteringBoth(s, i);
      if q.id in r {
        r := r[q.id := r[q.id].(accepted := r[q.id].accepted || Takes(s, i))];
      }
      assert Opened(records, q).queued + {} == Opened(records, q).queued;
    }
  }

  lemma EnteringBoth(s: Split, i: SplitInput)
    requires StateShaped(s) && InputShaped(i) && i.request.Some?
    ensures EnteringLanes(s, i) == EnteringAt(s, i, 0) + EnteringAt(s, i, 1)
  {
  }

  /** The edge itself. */
  method Edge(s: Split, i: SplitInput) returns (n: Split, announced: set<Identity>)
    requires StateShaped(s) && InputShaped(i) && Follows(s, i) && Departs(s)
    ensures n == Next(s, i) && announced == Announced(s, i)
  {
    hide Follows, Ledgered, Enters, Takes, Submitted, Stalled, ChildAfter, Finished, Advanced, StateShaped;
    var recs := Mark(s, i);
    assert recs == map id | id in s.records :: Advanced(s, i, id);
    recs := EnterRequest(recs, s, i);
    var records;
    records, announced := Sweep(recs);
    TakesAsked(s, i);
    var takes, taken, response := Takes(s, i), Taken(s, i), s.response;
    if taken.Some? {
      response := taken;
    } else if i.responseReady {
      response := None;
    }
    n := Split(records, [ChildAfter(s, i, 0), ChildAfter(s, i, 1)], response,
               if i.request.Some? && !takes then i.request else None,
               [Stalled(s, i, 0), Stalled(s, i, 1)],
               if takes then {} else Submitted(s, i),
               if takes then i.request.value.id.transaction else s.last, s.used || takes);
  }

  lemma TakesAsked(s: Split, i: SplitInput)
    requires StateShaped(s) && InputShaped(i)
    ensures Takes(s, i) ==> i.request.Some?
  {
  }

  lemma EventsKnown(s: Split, i: SplitInput)
    requires StateShaped(s) && InputShaped(i) && Follows(s, i)
    ensures forall k | 0 <= k < |i.progress[0] + i.progress[1]| :: (i.progress[0] + i.progress[1])[k].id in s.records
    ensures forall k | 0 <= k < |i.stores[0] + i.stores[1]| :: (i.stores[0] + i.stores[1])[k].id in s.records
    ensures Taken(s, i).Some? ==> Taken(s, i).value.id in s.records
  {
    hide Apart, RequestOk, StallOk, SentBy, PathMask;
    forall k | 0 <= k < |i.progress[0] + i.progress[1]| ensures (i.progress[0] + i.progress[1])[k].id in s.records {
      if k < |i.progress[0]| {
        assert ProgressOk(s, 0, i.progress[0][k]);
      } else {
        assert ProgressOk(s, 1, i.progress[1][k - |i.progress[0]|]);
      }
    }
    forall k | 0 <= k < |i.stores[0] + i.stores[1]| ensures (i.stores[0] + i.stores[1])[k].id in s.records {
      SimdSplitLedger.StoresOk(s, i, k);
    }
    if Taken(s, i).Some? {
      SimdSplitLedger.TakenIs(s, i);
    }
  }

  lemma TakenLanesAre(s: Split, i: SplitInput, id: Identity)
    requires InputShaped(i)
    ensures TakenLanes(s, i, id) == if Taken(s, i).Some? && Taken(s, i).value.id == id then Taken(s, i).value.mask else {}
  {
    if Taken(s, i).Some? {
      SimdSplitLedger.LanesOne(Taken(s, i).value, id);
    }
  }
}
