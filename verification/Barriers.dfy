/**
 Barriers: the coordinator's records (emu/core/barrier.go) and the scheduler slots
 that must stay in step with them (emu/core/core.go).

 `members` gives the CTA each warp belongs to; it stays fixed while the steps here
 run. What an instruction does besides its barrier effect is not modelled.
 */
module Barriers {
  import opened CacheTypes

  const WARPS: nat := 4
  const BARRIERS: nat := 8
  const MAX_EVENTS: nat := 32

  datatype Key = Key(cta: nat, address: nat, id: nat)

  /** One barrier: who has arrived, who waits, how many must arrive, which events are open. */
  datatype Record = Record(arrivals: set<nat>, waiters: set<nat>, participants: nat, events: nat, phase: bool, complete: bool)

  const NO_RECORD: Record := Record({}, {}, 0, 0, false, false)

  datatype Kind = Arrive | Wait | Sync

  /** A barrier request as the instruction evaluator describes it. */
  datatype Effect = Effect(warp: nat, address: nat, id: nat, kind: Kind, global: bool, sync: bool, arrive: bool, wait: bool,
                           release: bool, event: bool, expected: nat, participants: nat, sizeMinusOne: nat, phase: bool,
                           drain: bool)

  type Members = seq<Option<nat>>

  function MemberCount(members: Members, cta: nat): nat {
    if members == [] then 0
    else MemberCount(members[..|members| - 1], cta) + (if members[|members| - 1] == Some(cta) then 1 else 0)
  }

  /** The record a request addresses, when its addressing is valid. */
  function KeyOf(members: Members, e: Effect): Option<Key>
    requires |members| == WARPS
  {
    if e.warp >= WARPS || e.address >= WARPS || e.id >= BARRIERS || e.global || !e.drain || (!e.release && e.wait) then None
    else if members[e.warp].None? || members[e.address] != members[e.warp] then None
    else Some(Key(members[e.warp].value, e.address, e.id))
  }

  predicate KeyValid(members: Members, key: Key)
    requires |members| == WARPS
  {
    key.address < WARPS && key.id < BARRIERS && members[key.address] == Some(key.cta)
  }

  /** What a request or a completion does to a record, and to the scheduler. */
  datatype Outcome = Outcome(after: Record, block: bool, releases: set<nat>)

  /** (n - 1) modulo 32, as the operand encodes a size. */
  function SizeOf(n: nat): nat {
    (n + 31) % 32
  }

  predicate EventOk(r: Record, e: Effect) {
    && e.kind == Arrive && !e.arrive && !e.wait && !e.sync && !e.release && e.phase
    && 0 < e.expected <= MAX_EVENTS
    && (e.expected < MAX_EVENTS ==> e.participants == e.expected) && (e.expected == MAX_EVENTS ==> e.participants == 0)
    && e.sizeMinusOne == SizeOf(e.participants)
    && r.events + e.expected <= MAX_EVENTS
  }

  predicate WaitOk(r: Record, e: Effect) {
    && !e.arrive && e.wait && !e.sync && e.release == e.wait && e.expected == 0
    && e.phase == (e.participants % 2 == 1) && e.sizeMinusOne == SizeOf(e.participants)
    && (e.phase == r.phase ==> e.warp !in r.waiters)
  }

  predicate ArrivalOk(r: Record, e: Effect, memberCount: nat) {
    && e.arrive && e.kind != Wait && e.sync == (e.kind == Sync) && e.wait == e.sync && e.release == e.wait && e.expected == 0
    && 0 < e.participants <= memberCount && e.sizeMinusOne == e.participants - 1
    && e.phase == (e.participants % 2 == 1)
    && !r.complete && (r.participants != 0 ==> r.participants == e.participants)
    && e.warp !in r.arrivals
  }

  /** Everyone is let go together and the phase flips. */
  function Flip(r: Record): Record {
    Record({}, {}, 0, r.events, !r.phase, false)
  }

  /** The staged outcome of a request, or an error that changes nothing. */
  function StageRequest(members: Members, r: Record, e: Effect): Option<Outcome>
    requires |members| == WARPS && KeyOf(members, e).Some?
  {
    if e.event then
      if EventOk(r, e) then Some(Outcome(r.(events := r.events + e.expected), false, {})) else None
    else if e.kind == Wait then
      if !WaitOk(r, e) then None
      else if e.phase == r.phase then Some(Outcome(r.(waiters := r.waiters + {e.warp}), true, {}))
      else Some(Outcome(r, false, {}))
    else if !ArrivalOk(r, e, MemberCount(members, KeyOf(members, e).value.cta)) then None
    else
      var arrived := r.(participants := e.participants, arrivals := r.arrivals + {e.warp},
                        waiters := if e.sync then r.waiters + {e.warp} else r.waiters);
      if |arrived.arrivals| != e.participants then Some(Outcome(arrived, e.sync, {}))
      else if arrived.events != 0 then Some(Outcome(arrived.(complete := true), e.sync, {}))
      else Some(Outcome(Flip(arrived), false, arrived.waiters))
  }

  /** One event is done. */
  function StageCompletion(r: Record): Option<Outcome> {
    if r.events == 0 then None
    else
      var less := r.(events := r.events - 1);
      if less.events == 0 && less.complete then Some(Outcome(Flip(less), false, less.waiters))
      else Some(Outcome(less, false, {}))
  }

  // ---------------------------------------------------------------- scheduler

  /** A scheduler slot, as far as barriers see it. */
  datatype Slot = Unblocked | Elsewhere | Draining | Waiting(key: Key)

  datatype State = State(records: map<Key, Record>, slots: seq<Slot>)

  function RecordOf(s: State, key: Key): Record {
    if key in s.records then s.records[key] else NO_RECORD
  }

  /** Every released warp except the requester is waiting on this very key. */
  predicate ReleasesOk(s: State, source: nat, key: Key, releases: set<nat>)
    requires |s.slots| == WARPS
  {
    && (forall w | w in releases :: w < WARPS)
    && (forall w | 0 <= w < WARPS && w in releases && w != source :: s.slots[w] == Waiting(key))
  }

  function Released(slots: seq<Slot>, source: nat, releases: set<nat>): (r: seq<Slot>)
    requires |slots| == WARPS
    ensures |r| == WARPS
  {
    seq(WARPS, w requires 0 <= w < WARPS => if w in releases && w != source then Unblocked else slots[w])
  }

  datatype Action =
    | Ask(e: Effect)
    | Drain(w: nat)
    | Complete(key: Key)
    | Other(w: nat, slot: Slot)

  /** One scheduler step; nothing when the source reports an error and changes nothing. */
  function Next(members: Members, s: State, a: Action): Option<State>
    requires |members| == WARPS && |s.slots| == WARPS
  {
    match a
    case Ask(e) =>
      var key := KeyOf(members, e);
      if key.None? || s.slots[e.warp] != Unblocked then None
      else
        var o := StageRequest(members, RecordOf(s, key.value), e);
        if o.None? || !ReleasesOk(s, e.warp, key.value, o.value.releases) then None
        else
          var slots := Released(s.slots, e.warp, o.value.releases);
          Some(State(s.records[key.value := o.value.after],
                     slots[e.warp := if o.value.block then Waiting(key.value) else Unblocked]))
    case Drain(w) =>
      if w < WARPS && s.slots[w] == Unblocked then Some(s.(slots := s.slots[w := Draining])) else None
    case Complete(key) =>
      if !KeyValid(members, key) || key !in s.records then None
      else
        var o := StageCompletion(s.records[key]);
        if o.None? || !ReleasesOk(s, WARPS, key, o.value.releases) then None
        else Some(State(s.records[key := o.value.after], Released(s.slots, WARPS, o.value.releases)))
    case Other(w, slot) =>
      if w < WARPS && !s.slots[w].Waiting? && !slot.Waiting? then Some(s.(slots := s.slots[w := slot])) else None
  }

  function InitState(): State {
    State(map[], seq(WARPS, _ => Elsewhere))
  }

  // ------------------------------------------------------------ the invariant

  /** Arrivals count towards the agreed number; they are complete exactly while only events are missing. */
  ghost predicate RecordOk(r: Record) {
    && (forall w | w in r.arrivals :: w < WARPS) && (forall w | w in r.waiters :: w < WARPS)
    && r.events <= MAX_EVENTS
    && (r.participants == 0 <==> r.arrivals == {})
    && |r.arrivals| <= r.participants
    && (r.complete <==> r.participants != 0 && |r.arrivals| == r.participants)
    && (r.complete ==> r.events > 0)
  }

  ghost predicate Inv(members: Members, s: State) {
    && |members| == WARPS && |s.slots| == WARPS
    && (forall key | key in s.records :: RecordOk(s.records[key]))
    && (forall key, w | 0 <= w < WARPS :: w in RecordOf(s, key).waiters <==> s.slots[w] == Waiting(key))
  }

  lemma AddOne(a: set<nat>, x: nat)
    requires x !in a
    ensures |a + {x}| == |a| + 1
  {
  }

  /** A staged request keeps the record sound, and adds or lets go of waiters exactly as it says. */
  lemma RequestKeeps(members: Members, r: Record, e: Effect)
    requires |members| == WARPS && KeyOf(members, e).Some? && RecordOk(r) && StageRequest(members, r, e).Some?
    requires e.warp !in r.waiters
    ensures var o := StageRequest(members, r, e).value;
            && RecordOk(o.after)
            && (o.after.phase == r.phase ==> o.after.waiters == r.waiters + (if o.block then {e.warp} else {}))
            && (o.after.phase != r.phase ==>
                  && o.after.waiters == {} && !o.block && o.after.events == 0
                  && o.releases == r.waiters + (if e.sync then {e.warp} else {})
                  && !e.event && e.kind != Wait && |r.arrivals + {e.warp}| == e.participants > 0 && r.events == 0)
            && (o.after.phase == r.phase ==> o.releases == {})
  {
    if !e.event && e.kind != Wait {
      AddOne(r.arrivals, e.warp);
    }
  }

  lemma CompletionKeeps(r: Record)
    requires RecordOk(r) && StageCompletion(r).Some?
    ensures var o := StageCompletion(r).value;
            && RecordOk(o.after) && !o.block
            && (o.after.phase == r.phase ==> o.releases == {} && o.after.waiters == r.waiters)
            && (o.after.phase != r.phase ==>
                  && o.releases == r.waiters && o.after.waiters == {}
                  && r.events == 1 && r.complete && |r.arrivals| == r.participants)
  {
  }

  lemma RequestStep(members: Members, s: State, e: Effect)
    requires Inv(members, s) && Next(members, s, Ask(e)).Some?
    ensures Inv(members, Next(members, s, Ask(e)).value)
  {
    hide StageRequest;
    var t, key := Next(members, s, Ask(e)).value, KeyOf(members, e).value;
    var r := RecordOf(s, key);
    assert e.warp !in r.waiters;
    RequestKeeps(members, r, e);
    var o := StageRequest(members, r, e).value;
    forall k, w | 0 <= w < WARPS ensures w in RecordOf(t, k).waiters <==> t.slots[w] == Waiting(k) {
      assert w in RecordOf(s, k).waiters <==> s.slots[w] == Waiting(k);
      assert w in RecordOf(s, key).waiters <==> s.slots[w] == Waiting(key);
    }
  }

  lemma CompletionStep(members: Members, s: State, key: Key)
    requires Inv(members, s) && Next(members, s, Complete(key)).Some?
    ensures Inv(members, Next(members, s, Complete(key)).value)
  {
    var t := Next(members, s, Complete(key)).value;
    CompletionKeeps(s.records[key]);
    forall k, w | 0 <= w < WARPS ensures w in RecordOf(t, k).waiters <==> t.slots[w] == Waiting(k) {
      assert w in RecordOf(s, k).waiters <==> s.slots[w] == Waiting(k);
      assert w in RecordOf(s, key).waiters <==> s.slots[w] == Waiting(key);
    }
  }

  lemma StepKeeps(members: Members, s: State, a: Action)
    requires Inv(members, s) && Next(members, s, a).Some?
    ensures Inv(members, Next(members, s, a).value)
  {
    match a
    case Ask(e) => RequestStep(members, s, e);
    case Complete(key) => CompletionStep(members, s, key);
    case Drain(w) =>
      forall k | 0 <= 0 ensures w !in RecordOf(s, k).waiters {
        assert w in RecordOf(s, k).waiters <==> s.slots[w] == Waiting(k);
      }
    case Other(w, slot) =>
      forall k | 0 <= 0 ensures w !in RecordOf(s, k).waiters {
        assert w in RecordOf(s, k).waiters <==> s.slots[w] == Waiting(k);
      }
  }

  // --------------------------------------------------------------------- runs

  ghost predicate IsRun(members: Members, run: seq<State>, acts: seq<Action>)
    requires |members| == WARPS
  {
    && |run| == |acts| + 1 && run[0] == InitState()
    && (forall k | 0 <= k < |run| :: |run[k].slots| == WARPS)
    && (forall k | 0 <= k < |acts| :: Next(members, run[k], acts[k]) == Some(run[k + 1]))
  }

  /** A warp is blocked waiting on a key exactly when that record lists it, in every state of every run. */
  lemma {:induction false} WaitersMatchSlots(members: Members, run: seq<State>, acts: seq<Action>, k: nat)
    requires |members| == WARPS && IsRun(members, run, acts) && k < |run|
    ensures Inv(members, run[k])
  {
    if k > 0 {
      var j := k - 1;
      WaitersMatchSlots(members, run, acts, j);
      assert Next(members, run[j], acts[j]) == Some(run[j + 1]);
      StepKeeps(members, run[j], acts[j]);
    }
  }

  /** The action is an accepted arrival on the key. */
  predicate Arrives(members: Members, a: Action, key: Key)
    requires |members| == WARPS
  {
    a.Ask? && !a.e.event && a.e.kind != Wait && KeyOf(members, a.e) == Some(key)
  }

  predicate Flips(s: State, t: State, key: Key) {
    RecordOf(s, key).phase != RecordOf(t, key).phase
  }

  /**
   What the accepted actions alone say of a key: who has arrived since its phase last
   flipped and how many were asked for, the events attached less those completed, the phase.
   */
  datatype History = History(arrived: set<nat>, needed: nat, open: int, phase: bool)

  const NO_HISTORY: History := History({}, 0, 0, false)

  predicate Attaches(members: Members, a: Action, key: Key)
    requires |members| == WARPS
  {
    a.Ask? && a.e.event && KeyOf(members, a.e) == Some(key)
  }

  /** The action makes the required number of distinct warps complete with no event open. */
  predicate Due(members: Members, h: History, a: Action, key: Key)
    requires |members| == WARPS
  {
    || (Arrives(members, a, key) && |h.arrived + {a.e.warp}| == a.e.participants && h.open == 0)
    || (a == Complete(key) && h.open == 1 && |h.arrived| == h.needed > 0)
  }

  function Recorded(members: Members, h: History, a: Action, key: Key): History
    requires |members| == WARPS
  {
    var open := h.open + (if Attaches(members, a, key) then a.e.expected else 0) - (if a == Complete(key) then 1 else 0);
    if Due(members, h, a, key) then History({}, 0, open, !h.phase)
    else if Arrives(members, a, key) then History(h.arrived + {a.e.warp}, a.e.participants, open, h.phase)
    else h.(open := open)
  }

  function HistoryAt(members: Members, acts: seq<Action>, key: Key, k: nat): History
    requires |members| == WARPS && k <= |acts|
  {
    if k == 0 then NO_HISTORY else Recorded(members, HistoryAt(members, acts, key, k - 1), acts[k - 1], key)
  }

  predicate Matches(r: Record, h: History) {
    r.arrivals == h.arrived && r.participants == h.needed && r.events == h.open && r.phase == h.phase
  }

  lemma AskRecords(members: Members, s: State, e: Effect, t: State, key: Key, h: History)
    requires Inv(members, s) && Next(members, s, Ask(e)) == Some(t) && Matches(RecordOf(s, key), h)
    ensures |members| == WARPS && Matches(RecordOf(t, key), Recorded(members, h, Ask(e), key))
    ensures Flips(s, t, key) <==> Due(members, h, Ask(e), key)
  {
    hide Next, Inv, RecordOk;
    Shapes(members, s, Ask(e), t);
    AskSlots(members, s, e, t);
    RecordSound(members, s, key);
    if !e.event && e.kind != Wait && KeyOf(members, e) == Some(key) {
      AddOne(h.arrived, e.warp);
    }
  }

  lemma CompleteRecords(members: Members, s: State, k: Key, t: State, key: Key, h: History)
    requires Inv(members, s) && Next(members, s, Complete(k)) == Some(t) && Matches(RecordOf(s, key), h)
    ensures |members| == WARPS && Matches(RecordOf(t, key), Recorded(members, h, Complete(k), key))
    ensures Flips(s, t, key) <==> Due(members, h, Complete(k), key)
  {
    RecordSound(members, s, key);
  }

  lemma StepRecords(members: Members, s: State, a: Action, t: State, key: Key, h: History)
    requires Inv(members, s) && Next(members, s, a) == Some(t) && Matches(RecordOf(s, key), h)
    ensures |members| == WARPS && Matches(RecordOf(t, key), Recorded(members, h, a, key))
    ensures Flips(s, t, key) <==> Due(members, h, a, key)
  {
    match a
    case Ask(e) => AskRecords(members, s, e, t, key, h);
    case Complete(k) => CompleteRecords(members, s, k, t, key, h);
    case Drain(_) =>
    case Other(_, _) =>
  }

  /** Arrivals, count, events and phase of every record are exactly what the actions say. */
  lemma {:induction false} RecordsFollowHistory(members: Members, run: seq<State>, acts: seq<Action>, key: Key, k: nat)
    requires |members| == WARPS && IsRun(members, run, acts) && k < |run|
    ensures Matches(RecordOf(run[k], key), HistoryAt(members, acts, key, k))
  {
    hide Next, Recorded;
    if k > 0 {
      var j := k - 1;
      RecordsFollowHistory(members, run, acts, key, j);
      WaitersMatchSlots(members, run, acts, j);
      assert Next(members, run[j], acts[j]) == Some(run[j + 1]);
      StepRecords(members, run[j], acts[j], run[j + 1], key, HistoryAt(members, acts, key, j));
    }
  }

  /**
   A key's phase flips exactly on the action that makes the required number of distinct warps
   complete, counting the requester, with no event open, whether that action is the last
   arrival or the last event. Then everyone waiting on the key is let go at once, the requester
   with them; no other step lets any of them go.
   */
  lemma ReleaseTogether(members: Members, run: seq<State>, acts: seq<Action>, k: nat, key: Key)
    requires |members| == WARPS && IsRun(members, run, acts) && k < |acts|
    ensures Flips(run[k], run[k + 1], key) <==> Due(members, HistoryAt(members, acts, key, k), acts[k], key)
    ensures Flips(run[k], run[k + 1], key) ==>
              && (forall w | 0 <= w < WARPS && run[k].slots[w] == Waiting(key) :: run[k + 1].slots[w] == Unblocked)
              && (acts[k].Ask? ==> acts[k].e.warp < WARPS && run[k + 1].slots[acts[k].e.warp] == Unblocked)
    ensures !Flips(run[k], run[k + 1], key) ==>
              forall w | 0 <= w < WARPS && run[k].slots[w] == Waiting(key) :: run[k + 1].slots[w] == Waiting(key)
  {
    hide Next, Due, Inv;
    var s, a, t := run[k], acts[k], run[k + 1];
    WaitersMatchSlots(members, run, acts, k);
    RecordsFollowHistory(members, run, acts, key, k);
    assert Next(members, s, a) == Some(t);
    StepRecords(members, s, a, t, key, HistoryAt(members, acts, key, k));
    WaitersMove(members, s, a, t, key);
  }

  ghost predicate Moves(members: Members, s: State, a: Action, t: State, key: Key)
    requires |members| == WARPS && |s.slots| == WARPS && |t.slots| == WARPS
  {
    if Flips(s, t, key) then
      && (forall w | 0 <= w < WARPS && s.slots[w] == Waiting(key) :: t.slots[w] == Unblocked)
      && (a.Ask? ==> a.e.warp < WARPS && t.slots[a.e.warp] == Unblocked)
    else forall w | 0 <= w < WARPS && s.slots[w] == Waiting(key) :: t.slots[w] == Waiting(key)
  }

  /** The slots after a request, warp by warp. */
  lemma AskSlots(members: Members, s: State, e: Effect, t: State)
    requires Inv(members, s) && Next(members, s, Ask(e)) == Some(t)
    ensures KeyOf(members, e).Some? && e.warp < WARPS && s.slots[e.warp] == Unblocked
    ensures var k := KeyOf(members, e).value;
            var o := StageRequest(members, RecordOf(s, k), e);
            && o.Some? && t.records == s.records[k := o.value.after]
            && t.slots[e.warp] == (if o.value.block then Waiting(k) else Unblocked)
            && (forall w | 0 <= w < WARPS && w != e.warp :: t.slots[w] == if w in o.value.releases then Unblocked else s.slots[w])
  {
    hide StageRequest, RecordOk, ReleasesOk;
  }

  /** Another key's record and waiters stay as they were. */
  lemma AskElsewhere(members: Members, s: State, e: Effect, t: State, key: Key)
    requires Inv(members, s) && Next(members, s, Ask(e)) == Some(t) && KeyOf(members, e) != Some(key)
    ensures Moves(members, s, Ask(e), t, key)
  {
    hide StageRequest, RecordOk, Next, KeyOf;
    AskSlots(members, s, e, t);
    var k := KeyOf(members, e).value;
    RecordSound(members, s, k);
    WaitersAt(members, s, k);
    RequestKeeps(members, RecordOf(s, k), e);
    assert RecordOf(t, key) == RecordOf(s, key);
  }

  lemma WaitersAt(members: Members, s: State, key: Key)
    requires Inv(members, s)
    ensures forall w | 0 <= w < WARPS :: w in RecordOf(s, key).waiters <==> s.slots[w] == Waiting(key)
  {
  }

  lemma AskMoves(members: Members, s: State, e: Effect, t: State, key: Key)
    requires Inv(members, s) && Next(members, s, Ask(e)) == Some(t)
    ensures |members| == |s.slots| == |t.slots| == WARPS && Moves(members, s, Ask(e), t, key)
  {
    hide StageRequest, RecordOk, Next, KeyOf, Inv;
    Shapes(members, s, Ask(e), t);
    if KeyOf(members, e) == Some(key) {
      AskSlots(members, s, e, t);
      RecordSound(members, s, key);
      WaitersAt(members, s, key);
      RequestKeeps(members, RecordOf(s, key), e);
    } else {
      AskElsewhere(members, s, e, t, key);
    }
  }

  lemma Shapes(members: Members, s: State, a: Action, t: State)
    requires Inv(members, s) && Next(members, s, a) == Some(t)
    ensures |members| == |s.slots| == |t.slots| == WARPS
  {
  }

  lemma RecordSound(members: Members, s: State, key: Key)
    requires Inv(members, s)
    ensures RecordOk(RecordOf(s, key))
  {
  }

  lemma CompleteMoves(members: Members, s: State, k: Key, t: State, key: Key)
    requires Inv(members, s) && Next(members, s, Complete(k)) == Some(t)
    ensures Moves(members, s, Complete(k), t, key)
  {
    var r := RecordOf(s, k);
    forall w | 0 <= w < WARPS ensures w in r.waiters <==> s.slots[w] == Waiting(k) {
    }
    CompletionKeeps(r);
  }

  lemma WaitersMove(members: Members, s: State, a: Action, t: State, key: Key)
    requires Inv(members, s) && Next(members, s, a) == Some(t)
    ensures |t.slots| == WARPS && Moves(members, s, a, t, key)
  {
    match a
    case Ask(e) => AskMoves(members, s, e, t, key);
    case Complete(k) => CompleteMoves(members, s, k, t, key);
    case Drain(_) =>
    case Other(_, _) =>
  }

  /** The two internal checks never fail: a runnable warp is in no waiter list, and everyone released does wait. */
  lemma NoInternalError(members: Members, run: seq<State>, acts: seq<Action>, k: nat, a: Action)
    requires |members| == WARPS && IsRun(members, run, acts) && k < |run|
    ensures var s := run[k];
            a.Ask? && KeyOf(members, a.e).Some? && s.slots[a.e.warp] == Unblocked ==>
              var key := KeyOf(members, a.e).value;
              var o := StageRequest(members, RecordOf(s, key), a.e);
              a.e.warp !in RecordOf(s, key).waiters && (o.Some? ==> ReleasesOk(s, a.e.warp, key, o.value.releases))
    ensures var s := run[k];
            a.Complete? && KeyValid(members, a.key) && a.key in s.records && s.records[a.key].events > 0 ==>
              ReleasesOk(s, WARPS, a.key, StageCompletion(s.records[a.key]).value.releases)
  {
    WaitersMatchSlots(members, run, acts, k);
    var s := run[k];
    if a.Ask? && KeyOf(members, a.e).Some? && s.slots[a.e.warp] == Unblocked {
      var key := KeyOf(members, a.e).value;
      var r := RecordOf(s, key);
      assert a.e.warp in r.waiters <==> s.slots[a.e.warp] == Waiting(key);
      assert forall w | 0 <= w < WARPS :: w in RecordOf(s, key).waiters <==> s.slots[w] == Waiting(key);
      assert RecordOk(r);
      if StageRequest(members, r, a.e).Some? {
        RequestKeeps(members, r, a.e);
      }
    }
    if a.Complete? && KeyValid(members, a.key) && a.key in s.records && s.records[a.key].events > 0 {
      assert forall w | 0 <= w < WARPS :: w in RecordOf(s, a.key).waiters <==> s.slots[w] == Waiting(a.key);
      CompletionKeeps(s.records[a.key]);
    }
  }
}
