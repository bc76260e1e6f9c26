/**
 Every run of the bridge: each accepted request is delivered at most once and is
 never lost, in acceptance order within its bus bank, with the answer of its place
 in the acceptance order; a ticket completes only after all older requests.
 */
module DramBridgeOrder {
  import opened CacheTypes
  import opened Backends
  import opened DramBridge

  datatype Sys = Sys(state: State, log: seq<SectorRequest>, delivered: seq<Entry>, acked: set<nat>)

  ghost predicate LogOk(log: seq<SectorRequest>) {
    forall k | 0 <= k < |log| :: RequestOk(log[k])
  }

  ghost predicate Sorted(q: seq<Entry>) {
    forall i, j | 0 <= i < j < |q| :: q[i].sequence < q[j].sequence
  }

  /** The entry is request number `sequence` of the log and carries that request's answer. */
  ghost predicate EntryGood(m: Bytes, log: seq<SectorRequest>, e: Entry)
    requires LogOk(log)
  {
    && 1 <= e.sequence <= |log| && e.request == log[e.sequence - 1]
    && (e.data, e.status) == AnswerTo(m, log[..e.sequence - 1], log[e.sequence - 1])
  }

  /** Every data request before number `n` has been acknowledged. */
  ghost predicate OlderAcked(log: seq<SectorRequest>, acked: set<nat>, n: nat) {
    forall k | 0 <= k < n && k < |log| && log[k].op != Visibility :: k + 1 in acked
  }

  /** A serviced data request was acknowledged; a serviced ticket, after all older requests were. */
  ghost predicate AckGood(log: seq<SectorRequest>, acked: set<nat>, e: Entry) {
    e.serviced && e.sequence > 0 ==>
      if e.request.op == Visibility then OlderAcked(log, acked, e.sequence - 1) else e.sequence in acked
  }

  ghost predicate AllGood(m: Bytes, log: seq<SectorRequest>, acked: set<nat>, q: seq<Entry>)
    requires LogOk(log)
  {
    forall i | 0 <= i < |q| :: EntryGood(m, log, q[i]) && AckGood(log, acked, q[i])
  }

  /** The sequence numbers of a bank's data requests, in order. */
  function Lane(c: Config, q: seq<Entry>, b: nat): seq<nat>
    requires c.Valid()
  {
    if q == [] then [] else (if InBank(c, q[0], b) then [q[0].sequence] else []) + Lane(c, q[1..], b)
  }

  /** The numbers of the log's requests to a bank, in order. */
  function LogLane(c: Config, log: seq<SectorRequest>, b: nat): seq<nat>
    requires c.Valid()
  {
    if log == [] then []
    else
      var n := |log| - 1;
      LogLane(c, log[..n], b) + if log[n].op != Visibility && BankOf(c, log[n]) == b then [n + 1] else []
  }

  function Numbers(q: seq<Entry>): set<nat> {
    set i | 0 <= i < |q| :: q[i].sequence
  }

  /** Nothing is lost and nothing comes twice. */
  ghost predicate Once(n: nat, queue: seq<Entry>, delivered: seq<Entry>) {
    && Numbers(queue) !! Numbers(delivered)
    && (forall k: nat :: k in Numbers(queue) + Numbers(delivered) <==> 1 <= k <= n)
    && (forall i, j | 0 <= i < j < |delivered| :: delivered[i].sequence != delivered[j].sequence)
  }

  ghost predicate Lanes(c: Config, log: seq<SectorRequest>, queue: seq<Entry>, delivered: seq<Entry>)
    requires c.Valid()
  {
    forall b :: LogLane(c, log, b) == Lane(c, delivered, b) + Lane(c, queue, b)
  }

  ghost predicate HeldOk(c: Config, s: State)
    requires Shaped(c, s)
  {
    ShownOk(c, s.queue, s.held)
  }

  ghost predicate Inv(c: Config, m: Bytes, s: Sys) {
    && Shaped(c, s.state) && LogOk(s.log) && s.state.sequence == |s.log|
    && Sorted(s.state.queue)
    && AllGood(m, s.log, s.acked, s.state.queue) && AllGood(m, s.log, s.acked, s.delivered)
    && (forall i | 0 <= i < |s.delivered| :: s.delivered[i].serviced)
    && Once(|s.log|, s.state.queue, s.delivered)
    && Lanes(c, s.log, s.state.queue, s.delivered)
    && s.state.memory == MemoryAfter(m, s.log) && s.state.writeError == ErrorAfter(m, s.log)
    && HeldOk(c, s.state)
  }

  // ------------------------------------------------------------------- retire

  /** An entry whose reply may leave: acknowledged, and the oldest data request of its bank. */
  ghost predicate MayLeave(c: Config, q: seq<Entry>, x: Entry)
    requires c.Valid()
  {
    && x in q && x.serviced
    && (x.request.op != Visibility ==> forall y | y in q && y.sequence < x.sequence :: !InBank(c, y, BankOf(c, x.request)))
  }

  ghost predicate ShownOk(c: Config, q: seq<Entry>, shown: seq<Option<Entry>>)
    requires c.Valid()
  {
    forall k | 0 <= k < |shown| :: shown[k].Some? ==> shown[k].value.client == k && MayLeave(c, q, shown[k].value)
  }

  lemma {:induction false} PreviewMayLeave(c: Config, q: seq<Entry>, j: nat, shown: seq<Option<Entry>>, count: nat)
    requires c.Valid() && j <= |q| && |shown| == c.clients && forall i | 0 <= i < |q| :: q[i].client < c.clients
    requires ShownOk(c, q, shown) && Sorted(q)
    ensures ShownOk(c, q, PreviewFrom(c, q, j, shown, count))
    decreases |q| - j
  {
    if j < |q| {
      var e := q[j];
      var blocked := e.request.op != Visibility && BankOf(c, e.request) in SeenBanks(c, q, j);
      if !blocked && e.serviced && shown[e.client].None? && count < c.replies {
        OldestOfBank(c, q, j);
        PreviewMayLeave(c, q, j + 1, shown[e.client := Some(e)], count + 1);
      } else {
        PreviewMayLeave(c, q, j + 1, shown, count);
      }
    }
  }

  lemma OldestOfBank(c: Config, q: seq<Entry>, j: nat)
    requires c.Valid() && j < |q| && q[j].serviced && Sorted(q)
    requires q[j].request.op != Visibility ==> BankOf(c, q[j].request) !in SeenBanks(c, q, j)
    ensures MayLeave(c, q, q[j])
  {
    if q[j].request.op != Visibility {
      var b := BankOf(c, q[j].request);
      forall y | y in q && y.sequence < q[j].sequence ensures !InBank(c, y, b) {
        var i :| 0 <= i < |q| && q[i] == y;
        assert i < j;
      }
    }
  }

  /** A retired number is that of an entry shown to a client that was ready. */
  lemma {:induction false} RetireMeans(c: Config, q: seq<Entry>, preview: seq<Option<Entry>>, ready: seq<bool>, j: nat, count: nat, n: nat)
    returns (i: nat)
    requires j <= |q| && |preview| == c.clients && |ready| == c.clients && forall i | 0 <= i < |q| :: q[i].client < c.clients
    requires n in RetireFrom(c, q, preview, ready, j, count)
    ensures i < |q| && q[i].sequence == n && ready[q[i].client]
    ensures preview[q[i].client].Some? && preview[q[i].client].value.sequence == n
    decreases |q| - j
  {
    var e := q[j];
    var shown := preview[e.client].Some? && preview[e.client].value.sequence == e.sequence && count < c.replies;
    if shown && ready[e.client] {
      if n == e.sequence {
        i := j;
      } else {
        i := RetireMeans(c, q, preview, ready, j + 1, count + 1, n);
      }
    } else {
      i := RetireMeans(c, q, preview, ready, j + 1, count, n);
    }
  }

  /** What is retired may leave. */
  ghost predicate GoneOk(c: Config, q: seq<Entry>, gone: set<nat>)
    requires c.Valid()
  {
    forall j | 0 <= j < |q| && q[j].sequence in gone :: MayLeave(c, q, q[j])
  }

  lemma PreviewOk(c: Config, m: Bytes, s: Sys)
    requires Inv(c, m, s)
    ensures ShownOk(c, s.state.queue, Preview(c, s.state))
  {
    PreviewMayLeave(c, s.state.queue, 0, s.state.held, CountHeld(s.state.held));
  }

  lemma RetireOk(c: Config, m: Bytes, s: Sys, ready: seq<bool>)
    requires Inv(c, m, s) && |ready| == c.clients
    ensures GoneOk(c, s.state.queue, RetireFrom(c, s.state.queue, Preview(c, s.state), ready, 0, 0))
  {
    hide PreviewFrom, RetireFrom;
    var q, preview := s.state.queue, Preview(c, s.state);
    PreviewOk(c, m, s);
    var gone := RetireFrom(c, q, preview, ready, 0, 0);
    forall j | 0 <= j < |q| && q[j].sequence in gone ensures MayLeave(c, q, q[j]) {
      var i := RetireMeans(c, q, preview, ready, 0, 0, q[j].sequence);
      assert i == j;
      var x := preview[q[j].client].value;
      assert x in q;
      var k :| 0 <= k < |q| && q[k] == x;
      assert k == j;
    }
  }

  lemma GoneOldest(c: Config, q: seq<Entry>, gone: set<nat>, b: nat)
    requires c.Valid() && Sorted(q) && GoneOk(c, q, gone)
    ensures OldestOnly(c, q, gone, b)
  {
    forall j | 0 <= j < |q| && q[j].sequence in gone && InBank(c, q[j], b)
      ensures forall i | 0 <= i < j :: !InBank(c, q[i], b)
    {
      assert MayLeave(c, q, q[j]);
    }
  }

  lemma {:induction false} KeepMembers(q: seq<Entry>, gone: set<nat>, x: Entry)
    ensures x in Keep(q, gone) <==> x in q && x.sequence !in gone
  {
    if q != [] {
      KeepMembers(q[1..], gone, x);
      assert x in q <==> x == q[0] || x in q[1..];
    }
  }

  lemma {:induction false} TakenMembers(q: seq<Entry>, gone: set<nat>, x: Entry)
    ensures x in Taken(q, gone) <==> x in q && x.sequence in gone
  {
    if q != [] {
      TakenMembers(q[1..], gone, x);
      assert x in q <==> x == q[0] || x in q[1..];
    }
  }

  lemma SortedPush(e: Entry, q: seq<Entry>)
    requires Sorted(q) && forall x | x in q :: e.sequence < x.sequence
    ensures Sorted([e] + q)
  {
  }

  lemma {:induction false} SplitSorted(q: seq<Entry>, gone: set<nat>)
    requires Sorted(q)
    ensures Sorted(Keep(q, gone)) && Sorted(Taken(q, gone))
  {
    if q != [] {
      var rest := q[1..];
      SplitSorted(rest, gone);
      forall x | x in Keep(rest, gone) ensures q[0].sequence < x.sequence {
        KeepMembers(rest, gone, x);
      }
      forall x | x in Taken(rest, gone) ensures q[0].sequence < x.sequence {
        TakenMembers(rest, gone, x);
      }
      if q[0].sequence in gone {
        SortedPush(q[0], Taken(rest, gone));
      } else {
        SortedPush(q[0], Keep(rest, gone));
      }
    }
  }

  lemma LaneEmpty(c: Config, q: seq<Entry>, b: nat)
    requires c.Valid() && forall i | 0 <= i < |q| :: !InBank(c, q[i], b)
    ensures Lane(c, q, b) == []
  {
  }

  lemma {:induction false} LaneAppend(c: Config, p: seq<Entry>, q: seq<Entry>, b: nat)
    requires c.Valid()
    ensures Lane(c, p + q, b) == Lane(c, p, b) + Lane(c, q, b)
  {
    if p == [] {
      assert p + q == q;
    } else {
      assert (p + q)[1..] == p[1..] + q;
      LaneAppend(c, p[1..], q, b);
    }
  }

  /** Of bank `b` only its oldest request may be taken. */
  ghost predicate OldestOnly(c: Config, q: seq<Entry>, gone: set<nat>, b: nat)
    requires c.Valid()
  {
    forall j | 0 <= j < |q| && q[j].sequence in gone && InBank(c, q[j], b) :: forall i | 0 <= i < j :: !InBank(c, q[i], b)
  }

  lemma OldestTail(c: Config, q: seq<Entry>, gone: set<nat>, b: nat)
    requires c.Valid() && q != [] && OldestOnly(c, q, gone, b)
    ensures OldestOnly(c, q[1..], gone, b)
  {
    var rest := q[1..];
    forall j | 0 <= j < |rest| && rest[j].sequence in gone && InBank(c, rest[j], b)
      ensures forall i | 0 <= i < j :: !InBank(c, rest[i], b)
    {
      assert rest[j] == q[j + 1];
      assert forall i | 0 <= i < j :: rest[i] == q[i + 1];
    }
  }

  /** Taking the oldest of a bank leaves the rest of its lane in order. */
  lemma {:induction false} LaneSplit(c: Config, q: seq<Entry>, gone: set<nat>, b: nat)
    requires c.Valid() && OldestOnly(c, q, gone, b)
    ensures Lane(c, q, b) == Lane(c, Taken(q, gone), b) + Lane(c, Keep(q, gone), b)
  {
    if q != [] {
      hide Lane, InBank, OldestOnly, Taken, Keep;
      var rest := q[1..];
      SplitHead(q, gone);
      OldestTail(c, q, gone, b);
      LaneSplit(c, rest, gone, b);
      var h, taken, kept := Lane(c, [q[0]], b), Taken(rest, gone), Keep(rest, gone);
      LaneAppend(c, [q[0]], rest, b);
      LaneAppend(c, [q[0]], taken, b);
      LaneAppend(c, [q[0]], kept, b);
      assert q == [q[0]] + rest;
      LaneOne(c, q[0], b);
      if q[0].sequence in gone {
        Reassociate(h, Lane(c, taken, b), Lane(c, kept, b));
      } else {
        if InBank(c, q[0], b) {
          TakenNoMore(c, q, gone, b);
        } else {
          assert h == [];
        }
        Exchange(h, Lane(c, taken, b), Lane(c, kept, b));
      }
    }
  }

  lemma Reassociate(x: seq<nat>, y: seq<nat>, z: seq<nat>)
    ensures x + (y + z) == (x + y) + z
  {
  }

  lemma Exchange(x: seq<nat>, y: seq<nat>, z: seq<nat>)
    requires x == [] || y == []
    ensures x + (y + z) == y + (x + z)
  {
    if x == [] {
      assert x + (y + z) == y + z && x + z == z;
    } else {
      assert y + z == z && y + (x + z) == x + z;
    }
  }

  lemma SplitHead(q: seq<Entry>, gone: set<nat>)
    requires q != []
    ensures Taken(q, gone) == if q[0].sequence in gone then [q[0]] + Taken(q[1..], gone) else Taken(q[1..], gone)
    ensures Keep(q, gone) == if q[0].sequence in gone then Keep(q[1..], gone) else [q[0]] + Keep(q[1..], gone)
  {
  }

  lemma LaneOne(c: Config, e: Entry, b: nat)
    requires c.Valid()
    ensures Lane(c, [e], b) == if InBank(c, e, b) then [e.sequence] else []
  {
  }

  /** Behind an older request of the bank nothing of that bank leaves. */
  lemma TakenNoMore(c: Config, q: seq<Entry>, gone: set<nat>, b: nat)
    requires c.Valid() && q != [] && InBank(c, q[0], b)
    requires OldestOnly(c, q, gone, b)
    ensures Lane(c, Taken(q[1..], gone), b) == []
  {
    var rest := q[1..];
    var taken := Taken(rest, gone);
    forall i | 0 <= i < |taken| ensures !InBank(c, taken[i], b) {
      TakenMembers(rest, gone, taken[i]);
      var j :| 0 <= j < |rest| && rest[j] == taken[i];
      assert q[j + 1] == taken[i];
    }
    LaneEmpty(c, taken, b);
  }

  /** The parts of the invariant about what is queued and what is delivered. */
  ghost predicate Flow(c: Config, m: Bytes, log: seq<SectorRequest>, acked: set<nat>, queue: seq<Entry>, delivered: seq<Entry>)
    requires c.Valid() && LogOk(log)
  {
    && Sorted(queue) && AllGood(m, log, acked, queue) && AllGood(m, log, acked, delivered)
    && (forall i | 0 <= i < |delivered| :: delivered[i].serviced)
    && Once(|log|, queue, delivered) && Lanes(c, log, queue, delivered)
  }

  lemma RetireOnce(n: nat, q: seq<Entry>, delivered: seq<Entry>, gone: set<nat>)
    requires Once(n, q, delivered) && Sorted(q)
    ensures Once(n, Keep(q, gone), delivered + Taken(q, gone))
  {
    var kept, taken := Keep(q, gone), Taken(q, gone);
    SplitSorted(q, gone);
    forall k: nat ensures k in Numbers(kept) <==> k in Numbers(q) && k !in gone {
      if k in Numbers(kept) {
        var i :| 0 <= i < |kept| && kept[i].sequence == k;
        KeepMembers(q, gone, kept[i]);
      }
      if k in Numbers(q) && k !in gone {
        var i :| 0 <= i < |q| && q[i].sequence == k;
        KeepMembers(q, gone, q[i]);
      }
    }
    forall k: nat ensures k in Numbers(taken) <==> k in Numbers(q) && k in gone {
      if k in Numbers(taken) {
        var i :| 0 <= i < |taken| && taken[i].sequence == k;
        TakenMembers(q, gone, taken[i]);
      }
      if k in Numbers(q) && k in gone {
        var i :| 0 <= i < |q| && q[i].sequence == k;
        TakenMembers(q, gone, q[i]);
      }
    }
    NumbersAppend(delivered, taken);
    var all := delivered + taken;
    forall k: nat ensures k in Numbers(kept) + Numbers(all) <==> 1 <= k <= n {
      assert k in Numbers(kept) + Numbers(all) <==> k in Numbers(q) + Numbers(delivered);
    }
    forall i, j | 0 <= i < j < |all| ensures all[i].sequence != all[j].sequence {
      if i < |delivered| <= j {
        assert all[i].sequence in Numbers(delivered);
        assert taken[j - |delivered|].sequence in Numbers(taken);
      }
    }
  }

  lemma NumbersAppend(p: seq<Entry>, q: seq<Entry>)
    ensures Numbers(p + q) == Numbers(p) + Numbers(q)
  {
    assert forall i | 0 <= i < |p| :: (p + q)[i] == p[i];
    assert forall i | 0 <= i < |q| :: (p + q)[|p| + i] == q[i];
  }

  lemma RetireLanes(c: Config, log: seq<SectorRequest>, q: seq<Entry>, delivered: seq<Entry>, gone: set<nat>)
    requires c.Valid() && Lanes(c, log, q, delivered) && Sorted(q) && GoneOk(c, q, gone)
    ensures Lanes(c, log, Keep(q, gone), delivered + Taken(q, gone))
  {
    forall b ensures LogLane(c, log, b) == Lane(c, delivered + Taken(q, gone), b) + Lane(c, Keep(q, gone), b) {
      GoneOldest(c, q, gone, b);
      LaneSplit(c, q, gone, b);
      LaneAppend(c, delivered, Taken(q, gone), b);
    }
  }

  lemma RetireFlow(c: Config, m: Bytes, log: seq<SectorRequest>, acked: set<nat>, q: seq<Entry>, delivered: seq<Entry>, gone: set<nat>)
    requires c.Valid() && LogOk(log) && Flow(c, m, log, acked, q, delivered) && GoneOk(c, q, gone)
    ensures Flow(c, m, log, acked, Keep(q, gone), delivered + Taken(q, gone))
  {
    hide Once, Lanes, EntryGood, AckGood;
    SplitSorted(q, gone);
    RetireOnce(|log|, q, delivered, gone);
    RetireLanes(c, log, q, delivered, gone);
    var kept, all := Keep(q, gone), delivered + Taken(q, gone);
    forall i | 0 <= i < |kept| ensures EntryGood(m, log, kept[i]) && AckGood(log, acked, kept[i]) {
      KeepMembers(q, gone, kept[i]);
    }
    forall i | 0 <= i < |all| ensures EntryGood(m, log, all[i]) && AckGood(log, acked, all[i]) && all[i].serviced {
      if i >= |delivered| {
        var x := Taken(q, gone)[i - |delivered|];
        TakenMembers(q, gone, x);
        var j :| 0 <= j < |q| && q[j] == x;
        assert MayLeave(c, q, q[j]);
      }
    }
  }

  // -------------------------------------------------------------- acknowledge

  /** Queues that differ only in their serviced marks. */
  ghost predicate SameButMarks(p: seq<Entry>, q: seq<Entry>) {
    && |p| == |q|
    && forall i | 0 <= i < |p| :: p[i] == q[i].(serviced := p[i].serviced) && (q[i].serviced ==> p[i].serviced)
  }

  lemma {:induction false} MarksLane(c: Config, p: seq<Entry>, q: seq<Entry>, b: nat)
    requires c.Valid() && SameButMarks(p, q)
    ensures Lane(c, p, b) == Lane(c, q, b)
  {
    if p != [] {
      MarksLane(c, p[1..], q[1..], b);
    }
  }

  lemma MarksFlow(c: Config, m: Bytes, log: seq<SectorRequest>, acked: set<nat>, more: set<nat>, p: seq<Entry>, q: seq<Entry>, delivered: seq<Entry>)
    requires c.Valid() && LogOk(log) && Flow(c, m, log, acked, q, delivered) && SameButMarks(p, q) && acked <= more
    requires forall i | 0 <= i < |p| :: AckGood(log, more, p[i])
    ensures Flow(c, m, log, more, p, delivered)
  {
    assert Numbers(p) == Numbers(q) by {
      assert forall i | 0 <= i < |p| :: p[i].sequence == q[i].sequence;
    }
    forall b ensures LogLane(c, log, b) == Lane(c, delivered, b) + Lane(c, p, b) {
      MarksLane(c, p, q, b);
    }
    forall i | 0 <= i < |p| ensures EntryGood(m, log, p[i]) {
      assert EntryGood(m, log, q[i]);
    }
    forall i | 0 <= i < |delivered| ensures AckGood(log, more, delivered[i]) {
      assert AckGood(log, acked, delivered[i]);
    }
  }

  lemma AckOneMarks(log: seq<SectorRequest>, acked: set<nat>, q: seq<Entry>, id: nat)
    requires Sorted(q) && AckOk(q, id) && forall i | 0 <= i < |q| :: AckGood(log, acked, q[i])
    ensures var r := Ack(q, id);
            SameButMarks(r, q) && Sorted(r) && forall i | 0 <= i < |r| :: AckGood(log, acked + {id}, r[i])
  {
    var k :| 0 <= k < |q| && q[k].sequence == id && !q[k].serviced && q[k].request.op != Visibility;
    var r := Ack(q, id);
    forall i | 0 <= i < |r| ensures AckGood(log, acked + {id}, r[i]) {
      assert AckGood(log, acked, q[i]);
      assert q[i].sequence == id ==> i == k;
    }
  }

  lemma {:induction false} AckAllMarks(log: seq<SectorRequest>, acked: set<nat>, q: seq<Entry>, done: seq<nat>)
    requires Sorted(q) && AckAll(q, done).Some? && forall i | 0 <= i < |q| :: AckGood(log, acked, q[i])
    ensures var p, more := AckAll(q, done).value, acked + (set x | x in done);
            SameButMarks(p, q) && forall i | 0 <= i < |p| :: AckGood(log, more, p[i])
    decreases |done|
  {
    var more := acked + set x | x in done;
    if done == [] {
      assert more == acked;
    } else {
      var r, mid := Ack(q, done[0]), acked + {done[0]};
      AckOneMarks(log, acked, q, done[0]);
      hide AckGood;
      AckAllMarks(log, mid, r, done[1..]);
      assert mid + (set x | x in done[1..]) == more by {
        assert done == [done[0]] + done[1..];
      }
    }
  }

  // -------------------------------------------------------------------- accept

  lemma LogGrows(m: Bytes, log: seq<SectorRequest>, r: SectorRequest, e: Entry)
    requires LogOk(log) && RequestOk(r) && EntryGood(m, log, e)
    ensures EntryGood(m, log + [r], e)
  {
    assert (log + [r])[..e.sequence - 1] == log[..e.sequence - 1];
  }

  lemma AckGrows(log: seq<SectorRequest>, r: SectorRequest, acked: set<nat>, e: Entry)
    requires AckGood(log, acked, e) && e.sequence <= |log|
    ensures AckGood(log + [r], acked, e)
  {
    if e.serviced && e.sequence > 0 && e.request.op == Visibility {
      assert OlderAcked(log, acked, e.sequence - 1);
      assert forall k | 0 <= k < |log| :: (log + [r])[k] == log[k];
    }
  }

  lemma AllGrow(m: Bytes, log: seq<SectorRequest>, r: SectorRequest, acked: set<nat>, q: seq<Entry>)
    requires LogOk(log) && RequestOk(r) && AllGood(m, log, acked, q)
    ensures AllGood(m, log + [r], acked, q)
  {
    hide EntryGood, AckGood;
    forall i | 0 <= i < |q| ensures EntryGood(m, log + [r], q[i]) && AckGood(log + [r], acked, q[i]) {
      SequenceFits(m, log, q[i]);
      LogGrows(m, log, r, q[i]);
      AckGrows(log, r, acked, q[i]);
    }
  }

  lemma SequenceFits(m: Bytes, log: seq<SectorRequest>, e: Entry)
    requires LogOk(log) && EntryGood(m, log, e)
    ensures 1 <= e.sequence <= |log|
  {
  }

  lemma OnceGrows(n: nat, q: seq<Entry>, delivered: seq<Entry>, e: Entry)
    requires Once(n, q, delivered) && e.sequence == n + 1
    ensures Once(n + 1, q + [e], delivered)
  {
    NumbersAppend(q, [e]);
    assert Numbers([e]) == {n + 1} by {
      assert [e][0].sequence in Numbers([e]);
    }
    assert n + 1 !in Numbers(q) + Numbers(delivered);
    forall k: nat ensures k in Numbers(q + [e]) + Numbers(delivered) <==> 1 <= k <= n + 1 {
      assert k in Numbers(q) + Numbers(delivered) <==> 1 <= k <= n;
    }
  }

  lemma LanesGrow(c: Config, log: seq<SectorRequest>, r: SectorRequest, q: seq<Entry>, delivered: seq<Entry>, e: Entry)
    requires c.Valid() && Lanes(c, log, q, delivered) && e.request == r && e.sequence == |log| + 1
    ensures Lanes(c, log + [r], q + [e], delivered)
  {
    forall b ensures LogLane(c, log + [r], b) == Lane(c, delivered, b) + Lane(c, q + [e], b) {
      assert (log + [r])[..|log|] == log;
      LaneAppend(c, q, [e], b);
      LaneOne(c, e, b);
      Reassociate(Lane(c, delivered, b), Lane(c, q, b), Lane(c, [e], b));
    }
  }

  lemma SortedAppend(q: seq<Entry>, e: Entry)
    requires Sorted(q) && forall i | 0 <= i < |q| :: q[i].sequence < e.sequence
    ensures Sorted(q + [e])
  {
  }

  lemma AcceptFlow(c: Config, m: Bytes, log: seq<SectorRequest>, acked: set<nat>, q: seq<Entry>, delivered: seq<Entry>, client: nat, r: SectorRequest)
    requires c.Valid() && LogOk(log) && RequestOk(r) && Flow(c, m, log, acked, q, delivered)
    ensures LogOk(log + [r])
    ensures Flow(c, m, log + [r], acked, q + [Sample(client, r, |log| + 1, MemoryAfter(m, log), ErrorAfter(m, log))], delivered)
  {
    hide Once, Lanes, EntryGood, AckGood, MemoryAfter, ErrorAfter;
    var e := Sample(client, r, |log| + 1, MemoryAfter(m, log), ErrorAfter(m, log));
    AllGrow(m, log, r, acked, q);
    AllGrow(m, log, r, acked, delivered);
    OnceGrows(|log|, q, delivered, e);
    LanesGrow(c, log, r, q, delivered, e);
    forall i | 0 <= i < |q| ensures q[i].sequence < e.sequence {
      SequenceFits(m, log, q[i]);
    }
    SortedAppend(q, e);
    SampleGood(m, log, acked, client, r);
  }

  lemma SampleGood(m: Bytes, log: seq<SectorRequest>, acked: set<nat>, client: nat, r: SectorRequest)
    requires LogOk(log) && RequestOk(r)
    ensures LogOk(log + [r])
    ensures var e := Sample(client, r, |log| + 1, MemoryAfter(m, log), ErrorAfter(m, log));
            EntryGood(m, log + [r], e) && AckGood(log + [r], acked, e)
  {
    assert (log + [r])[..|log|] == log;
  }

  // ------------------------------------------------------------------- tickets

  predicate ServicedUpTo(q: seq<Entry>, i: nat)
    requires i <= |q|
  {
    forall j | 0 <= j < i :: q[j].serviced
  }

  /** An open ticket completes exactly when everything before it is done, and nothing but tickets completes. */
  lemma {:induction false} TicketsMean(q: seq<Entry>, olderDone: bool)
    ensures var r := Tickets(q, olderDone);
            && SameButMarks(r, q)
            && (forall i | 0 <= i < |q| && r[i].serviced && !q[i].serviced ::
                  q[i].request.op == Visibility && olderDone && forall j | 0 <= j < i :: r[j].serviced)
            && (forall i | 0 <= i < |q| && q[i].request.op == Visibility && !q[i].serviced ::
                  r[i].serviced <==> olderDone && ServicedUpTo(r, i))
  {
    if q != [] {
      var e := if q[0].request.op == Visibility && olderDone then q[0].(serviced := true) else q[0];
      var rest := Tickets(q[1..], olderDone && e.serviced);
      TicketsMean(q[1..], olderDone && e.serviced);
      var r := Tickets(q, olderDone);
      assert r == [e] + rest;
      forall i | 0 <= i < |q| && r[i].serviced && !q[i].serviced
        ensures q[i].request.op == Visibility && olderDone && forall j | 0 <= j < i :: r[j].serviced
      {
        if i > 0 {
          assert r[i] == rest[i - 1] && q[i] == q[1..][i - 1];
          assert forall j | 0 < j < i :: r[j] == rest[j - 1];
        }
      }
      forall i | 0 <= i < |q| && q[i].request.op == Visibility && !q[i].serviced
        ensures r[i].serviced <==> olderDone && ServicedUpTo(r, i)
      {
        if i > 0 {
          assert r[i] == rest[i - 1] && q[i] == q[1..][i - 1];
          ServicedTail(r, rest, i);
        }
      }
    }
  }

  lemma ServicedTail(r: seq<Entry>, rest: seq<Entry>, i: nat)
    requires r != [] && r[1..] == rest && 0 < i <= |r|
    ensures ServicedUpTo(r, i) <==> r[0].serviced && ServicedUpTo(rest, i - 1)
  {
    assert forall j | 0 < j < i :: r[j] == rest[j - 1];
    assert forall j | 0 <= j < i - 1 :: rest[j] == r[j + 1];
  }

  /** When everything before a ticket is serviced, every older data request has been acknowledged. */
  lemma AllOlderAcked(c: Config, m: Bytes, log: seq<SectorRequest>, acked: set<nat>, q: seq<Entry>, r: seq<Entry>, delivered: seq<Entry>, i: nat)
    requires c.Valid() && LogOk(log) && Flow(c, m, log, acked, q, delivered) && SameButMarks(r, q) && i < |q|
    requires forall j | 0 <= j < i :: r[j].serviced && AckGood(log, acked, r[j])
    ensures OlderAcked(log, acked, q[i].sequence - 1)
  {
    hide Lanes, AnswerTo, Once, Flow;
    FlowParts(c, m, log, acked, q, delivered);
    forall k | 0 <= k < q[i].sequence - 1 && k < |log| && log[k].op != Visibility ensures k + 1 in acked {
      if k + 1 in Numbers(q) {
        var j :| 0 <= j < |q| && q[j].sequence == k + 1;
        assert j < i;
        assert EntryGood(m, log, q[j]);
      } else {
        var j :| 0 <= j < |delivered| && delivered[j].sequence == k + 1;
        assert EntryGood(m, log, delivered[j]) && AckGood(log, acked, delivered[j]);
      }
    }
  }

  lemma FlowParts(c: Config, m: Bytes, log: seq<SectorRequest>, acked: set<nat>, q: seq<Entry>, delivered: seq<Entry>)
    requires c.Valid() && LogOk(log) && Flow(c, m, log, acked, q, delivered)
    ensures Sorted(q) && AllGood(m, log, acked, q) && AllGood(m, log, acked, delivered)
    ensures forall i | 0 <= i < |delivered| :: delivered[i].serviced
    ensures forall k: nat | 1 <= k <= |log| :: k in Numbers(q) || k in Numbers(delivered)
  {
    hide Lanes, AllGood, Numbers;
    forall k: nat | 1 <= k <= |log| ensures k in Numbers(q) || k in Numbers(delivered) {
      assert k in Numbers(q) + Numbers(delivered);
    }
  }

  lemma {:induction false} TicketsAck(c: Config, m: Bytes, log: seq<SectorRequest>, acked: set<nat>, q: seq<Entry>, delivered: seq<Entry>, n: nat)
    requires c.Valid() && LogOk(log) && Flow(c, m, log, acked, q, delivered) && n <= |q|
    ensures forall i | 0 <= i < n :: AckGood(log, acked, Tickets(q, true)[i])
  {
    hide Flow;
    if n > 0 {
      TicketsAck(c, m, log, acked, q, delivered, n - 1);
      TicketsMean(q, true);
      var r, i := Tickets(q, true), n - 1;
      FlowAck(c, m, log, acked, q, delivered, i);
      if r[i].serviced && !q[i].serviced {
        AllOlderAcked(c, m, log, acked, q, r, delivered, i);
      }
    }
  }

  lemma FlowAck(c: Config, m: Bytes, log: seq<SectorRequest>, acked: set<nat>, q: seq<Entry>, delivered: seq<Entry>, i: nat)
    requires c.Valid() && LogOk(log) && Flow(c, m, log, acked, q, delivered) && i < |q|
    ensures AckGood(log, acked, q[i])
  {
  }

  lemma TicketsFlow(c: Config, m: Bytes, log: seq<SectorRequest>, acked: set<nat>, q: seq<Entry>, delivered: seq<Entry>)
    requires c.Valid() && LogOk(log) && Flow(c, m, log, acked, q, delivered)
    ensures Flow(c, m, log, acked, Tickets(q, true), delivered)
  {
    hide Flow, AckGood;
    TicketsMean(q, true);
    TicketsAck(c, m, log, acked, q, delivered, |q|);
    MarksFlow(c, m, log, acked, acked, Tickets(q, true), q, delivered);
  }

  // ------------------------------------------------------------------ one edge

  function RequestsOf(list: seq<(nat, SectorRequest)>): seq<SectorRequest> {
    seq(|list|, k requires 0 <= k < |list| => list[k].1)
  }

  ghost predicate ListOk(c: Config, list: seq<(nat, SectorRequest)>) {
    forall k | 0 <= k < |list| :: list[k].0 < c.clients && RequestOk(list[k].1)
  }

  /** The state matches the log: its bytes, its error, its counter and its flow. */
  ghost predicate Tracks(c: Config, m: Bytes, s: State, log: seq<SectorRequest>, acked: set<nat>, delivered: seq<Entry>)
    requires c.Valid()
  {
    && LogOk(log) && s.sequence == |log|
    && s.memory == MemoryAfter(m, log) && s.writeError == ErrorAfter(m, log)
    && Flow(c, m, log, acked, s.queue, delivered)
  }

  lemma {:induction false} AcceptTracks(c: Config, m: Bytes, s: State, log: seq<SectorRequest>, acked: set<nat>, delivered: seq<Entry>,
                                        list: seq<(nat, SectorRequest)>)
    requires c.Valid() && ListOk(c, list) && Tracks(c, m, s, log, acked, delivered)
    ensures Tracks(c, m, AcceptAll(s, list), log + RequestsOf(list), acked, delivered)
    ensures AcceptAll(s, list).held == s.held
    ensures var q := AcceptAll(s, list).queue;
            && s.queue <= q && (forall i | |s.queue| <= i < |q| :: q[i].client < c.clients && q[i].sequence > |log|)
            && (forall i | |s.queue| <= i < |q| :: RequestOk(q[i].request))
    decreases |list|
  {
    hide Flow, MemoryAfter, ErrorAfter;
    if list == [] {
      assert log + RequestsOf(list) == log;
    } else {
      var (client, r) := list[0];
      AcceptFlow(c, m, log, acked, s.queue, delivered, client, r);
      AfterAppend(m, log, r);
      var status := if r.op == Write then WriteStatus(s.memory, r) else Ok;
      var t := s.(queue := s.queue + [Sample(client, r, s.sequence + 1, s.memory, s.writeError)],
                  sequence := s.sequence + 1,
                  memory := if r.op == Write then Store(s.memory, r) else s.memory,
                  writeError := if s.writeError.Ok? then status else s.writeError);
      AcceptTracks(c, m, t, log + [r], acked, delivered, list[1..]);
      assert log + [r] + RequestsOf(list[1..]) == log + RequestsOf(list);
    }
  }

  /** An entry that may leave may still leave once older entries left, marks were set and younger ones joined. */
  lemma LeaveStays(c: Config, q: seq<Entry>, p: seq<Entry>, x: Entry)
    requires c.Valid() && MayLeave(c, q, x) && x in p
    requires forall y | y in p && y.sequence < x.sequence :: exists z :: z in q && z.sequence == y.sequence && z.request == y.request
    ensures MayLeave(c, p, x)
  {
    if x.request.op != Visibility {
      var b := BankOf(c, x.request);
      forall y | y in p && y.sequence < x.sequence ensures !InBank(c, y, b) {
        var z :| z in q && z.sequence == y.sequence && z.request == y.request;
        assert !InBank(c, z, b);
      }
    }
  }

  /** A reply that was shown and not taken stays in the queue. */
  lemma {:induction false} HeldMeans(c: Config, q: seq<Entry>, preview: seq<Option<Entry>>, ready: seq<bool>, j: nat, count: nat, k: nat)
    requires j <= |q| && |preview| == c.clients && |ready| == c.clients && forall i | 0 <= i < |q| :: q[i].client < c.clients
    requires k < c.clients && HeldFrom(c, q, preview, ready, j, count)[k].Some?
    ensures !ready[k] && HeldFrom(c, q, preview, ready, j, count)[k] == preview[k]
    decreases |q| - j
  {
    if j < |q| {
      var e := q[j];
      var shown := preview[e.client].Some? && preview[e.client].value.sequence == e.sequence && count < c.replies;
      if shown && ready[e.client] {
        HeldMeans(c, q, preview, ready, j + 1, count + 1, k);
      } else if !(shown && k == e.client) {
        HeldMeans(c, q, preview, ready, j + 1, count, k);
      }
    }
  }

  lemma HeldNotGone(c: Config, q: seq<Entry>, preview: seq<Option<Entry>>, ready: seq<bool>, k: nat)
    requires c.Valid() && |preview| == c.clients && |ready| == c.clients && forall i | 0 <= i < |q| :: q[i].client < c.clients
    requires Sorted(q) && ShownOk(c, q, preview) && k < c.clients && HeldFrom(c, q, preview, ready, 0, 0)[k].Some?
    ensures preview[k].Some? && preview[k].value.sequence !in RetireFrom(c, q, preview, ready, 0, 0)
  {
    hide RetireFrom, HeldFrom;
    HeldMeans(c, q, preview, ready, 0, 0, k);
    var n := preview[k].value.sequence;
    var j :| 0 <= j < |q| && q[j] == preview[k].value;
    assert forall i | 0 <= i < |q| && q[i].sequence == n :: i == j;
    if n in RetireFrom(c, q, preview, ready, 0, 0) {
      var i := RetireMeans(c, q, preview, ready, 0, 0, n);
    }
  }

  /** From the queue an edge starts with to the one it ends with. */
  ghost predicate Evolves(q: seq<Entry>, gone: set<nat>, p: seq<Entry>) {
    && (forall x | x in q && x.sequence !in gone && x.serviced :: x in p)
    && (forall y | y in p :: (exists z :: z in q && z.sequence == y.sequence && z.request == y.request)
                             || forall z | z in q :: z.sequence < y.sequence)
  }

  lemma EvolvesHolds(c: Config, m: Bytes, log: seq<SectorRequest>, q: seq<Entry>, gone: set<nat>, a: seq<Entry>, t: seq<Entry>, p: seq<Entry>)
    requires LogOk(log) && (forall i | 0 <= i < |q| :: EntryGood(m, log, q[i]))
    requires SameButMarks(a, Keep(q, gone)) && a <= t && SameButMarks(p, t)
    requires forall i | |a| <= i < |t| :: t[i].sequence > |log|
    ensures Evolves(q, gone, p)
  {
    var kept := Keep(q, gone);
    forall x | x in q && x.sequence !in gone && x.serviced ensures x in p {
      KeepMembers(q, gone, x);
      var i :| 0 <= i < |kept| && kept[i] == x;
      assert a[i] == x && t[i] == x && p[i] == x;
    }
    forall y | y in p
      ensures (exists z :: z in q && z.sequence == y.sequence && z.request == y.request) || forall z | z in q :: z.sequence < y.sequence
    {
      var i :| 0 <= i < |p| && p[i] == y;
      if i < |a| {
        assert t[i] == a[i];
        KeepMembers(q, gone, kept[i]);
        assert kept[i] in q && kept[i].sequence == y.sequence && kept[i].request == y.request;
      } else {
        forall z | z in q ensures z.sequence < y.sequence {
          var j :| 0 <= j < |q| && q[j] == z;
          assert EntryGood(m, log, q[j]);
        }
      }
    }
  }

  lemma HeldKeeps(c: Config, q: seq<Entry>, preview: seq<Option<Entry>>, ready: seq<bool>, p: seq<Entry>)
    requires c.Valid() && |preview| == c.clients && |ready| == c.clients && forall i | 0 <= i < |q| :: q[i].client < c.clients
    requires Sorted(q) && ShownOk(c, q, preview) && Evolves(q, RetireFrom(c, q, preview, ready, 0, 0), p)
    ensures ShownOk(c, p, HeldFrom(c, q, preview, ready, 0, 0))
  {
    hide RetireFrom, HeldFrom, MayLeave;
    var held := HeldFrom(c, q, preview, ready, 0, 0);
    forall k | 0 <= k < |held| && held[k].Some? ensures held[k].value.client == k && MayLeave(c, p, held[k].value) {
      HeldNotGone(c, q, preview, ready, k);
      HeldMeans(c, q, preview, ready, 0, 0, k);
      var x := held[k].value;
      LeaveMeans(c, q, x);
      LeaveStays(c, q, p, x);
    }
  }

  lemma LeaveMeans(c: Config, q: seq<Entry>, x: Entry)
    requires c.Valid() && MayLeave(c, q, x)
    ensures x in q && x.serviced
  {
  }

  /** One edge with its records: what is delivered, acknowledged and accepted. */
  ghost function SysStep(c: Config, s: Sys, ready: seq<bool>, done: seq<nat>, accepted: seq<(nat, SectorRequest)>): Option<Sys>
    requires Shaped(c, s.state) && |ready| == c.clients && ListOk(c, accepted)
  {
    var gone := RetireFrom(c, s.state.queue, Preview(c, s.state), ready, 0, 0);
    var t := Step(c, s.state, ready, done, accepted);
    if t.None? then None
    else Some(Sys(t.value, s.log + RequestsOf(accepted), s.delivered + Taken(s.state.queue, gone), s.acked + set x | x in done))
  }

  lemma InvTracks(c: Config, m: Bytes, s: Sys)
    requires c.Valid()
    ensures Inv(c, m, s) <==>
            Shaped(c, s.state) && Tracks(c, m, s.state, s.log, s.acked, s.delivered) && HeldOk(c, s.state)
  {
  }

  lemma StepTracks(c: Config, m: Bytes, s: Sys, ready: seq<bool>, done: seq<nat>, accepted: seq<(nat, SectorRequest)>)
    requires Inv(c, m, s) && |ready| == c.clients && ListOk(c, accepted)
    requires SysStep(c, s, ready, done, accepted).Some?
    ensures var t := SysStep(c, s, ready, done, accepted).value;
            Tracks(c, m, t.state, t.log, t.acked, t.delivered)
  {
    hide Flow, MemoryAfter, ErrorAfter, RetireFrom, PreviewFrom, HeldFrom, AckAll;
    var q := s.state.queue;
    var gone := RetireFrom(c, q, Preview(c, s.state), ready, 0, 0);
    InvFlow(c, m, s);
    RetireOk(c, m, s, ready);
    RetireFlow(c, m, s.log, s.acked, q, s.delivered, gone);
    var kept, delivered, more := Keep(q, gone), s.delivered + Taken(q, gone), s.acked + set x | x in done;
    var a := AckAll(kept, done).value;
    AckFlow(c, m, s.log, s.acked, kept, delivered, done);
    var mid := AcceptAll(s.state.(queue := a), accepted);
    AcceptTracks(c, m, s.state.(queue := a), s.log, more, delivered, accepted);
    TicketsFlow(c, m, s.log + RequestsOf(accepted), more, mid.queue, delivered);
  }

  lemma InvFlow(c: Config, m: Bytes, s: Sys)
    requires Inv(c, m, s)
    ensures Flow(c, m, s.log, s.acked, s.state.queue, s.delivered)
  {
  }

  lemma AckFlow(c: Config, m: Bytes, log: seq<SectorRequest>, acked: set<nat>, q: seq<Entry>, delivered: seq<Entry>, done: seq<nat>)
    requires c.Valid() && LogOk(log) && Flow(c, m, log, acked, q, delivered) && AckAll(q, done).Some?
    ensures Flow(c, m, log, acked + (set x | x in done), AckAll(q, done).value, delivered)
    ensures SameButMarks(AckAll(q, done).value, q)
  {
    AckAllMarks(log, acked, q, done);
    MarksFlow(c, m, log, acked, acked + (set x | x in done), AckAll(q, done).value, q, delivered);
  }

  lemma StepShape(c: Config, m: Bytes, s: Sys, ready: seq<bool>, done: seq<nat>, accepted: seq<(nat, SectorRequest)>)
    requires Inv(c, m, s) && |ready| == c.clients && ListOk(c, accepted)
    requires SysStep(c, s, ready, done, accepted).Some?
    ensures var t := SysStep(c, s, ready, done, accepted).value;
            Shaped(c, t.state) && HeldOk(c, t.state)
  {
    hide Flow, MemoryAfter, ErrorAfter, RetireFrom, PreviewFrom, HeldFrom, AckAll, ShownOk, Evolves, EntryGood, AckGood;
    var q, preview := s.state.queue, Preview(c, s.state);
    var gone := RetireFrom(c, q, preview, ready, 0, 0);
    InvFlow(c, m, s);
    PreviewOk(c, m, s);
    RetireOk(c, m, s, ready);
    RetireFlow(c, m, s.log, s.acked, q, s.delivered, gone);
    var kept, delivered, more := Keep(q, gone), s.delivered + Taken(q, gone), s.acked + set x | x in done;
    var a := AckAll(kept, done).value;
    AckFlow(c, m, s.log, s.acked, kept, delivered, done);
    var mid := AcceptAll(s.state.(queue := a), accepted);
    AcceptTracks(c, m, s.state.(queue := a), s.log, more, delivered, accepted);
    TicketsMean(mid.queue, true);
    var p := Tickets(mid.queue, true);
    ClientsStay(c, q, gone, a, mid.queue, p);
    EvolvesHolds(c, m, s.log, q, gone, a, mid.queue, p);
    HeldKeeps(c, q, preview, ready, p);
  }

  lemma ClientsStay(c: Config, q: seq<Entry>, gone: set<nat>, a: seq<Entry>, t: seq<Entry>, p: seq<Entry>)
    requires SameButMarks(a, Keep(q, gone)) && a <= t && SameButMarks(p, t)
    requires forall i | 0 <= i < |q| :: q[i].client < c.clients && RequestOk(q[i].request)
    requires forall i | |a| <= i < |t| :: t[i].client < c.clients && RequestOk(t[i].request)
    ensures forall i | 0 <= i < |p| :: p[i].client < c.clients && RequestOk(p[i].request)
  {
    var kept := Keep(q, gone);
    forall i | 0 <= i < |p| ensures p[i].client < c.clients && RequestOk(p[i].request) {
      if i < |a| {
        KeepMembers(q, gone, kept[i]);
        assert t[i] == a[i];
      }
    }
  }

  lemma StepKeeps(c: Config, m: Bytes, s: Sys, ready: seq<bool>, done: seq<nat>, accepted: seq<(nat, SectorRequest)>)
    requires Inv(c, m, s) && |ready| == c.clients && ListOk(c, accepted)
    requires SysStep(c, s, ready, done, accepted).Some?
    ensures Inv(c, m, SysStep(c, s, ready, done, accepted).value)
  {
    hide SysStep, Tracks, HeldOk;
    StepTracks(c, m, s, ready, done, accepted);
    StepShape(c, m, s, ready, done, accepted);
    InvTracks(c, m, SysStep(c, s, ready, done, accepted).value);
  }

  // --------------------------------------------------------------------- runs

  datatype Edge = Edge(ready: seq<bool>, done: seq<nat>, accepted: seq<(nat, SectorRequest)>)

  function InitSys(c: Config, m: Bytes): Sys {
    Sys(State([], seq(c.clients, _ => None), 0, Ok, m), [], [], {})
  }

  ghost predicate IsRun(c: Config, m: Bytes, run: seq<Sys>, edges: seq<Edge>)
    requires c.Valid()
  {
    && |run| == |edges| + 1 && run[0] == InitSys(c, m)
    && (forall k | 0 <= k < |run| :: Shaped(c, run[k].state))
    && (forall k | 0 <= k < |edges| ::
          && |edges[k].ready| == c.clients && ListOk(c, edges[k].accepted)
          && SysStep(c, run[k], edges[k].ready, edges[k].done, edges[k].accepted) == Some(run[k + 1]))
  }

  lemma InitInv(c: Config, m: Bytes)
    requires c.Valid()
    ensures Inv(c, m, InitSys(c, m))
  {
    var s := InitSys(c, m);
    assert Numbers(s.state.queue) == {} && Numbers(s.delivered) == {};
  }

  lemma {:induction false} InvAt(c: Config, m: Bytes, run: seq<Sys>, edges: seq<Edge>, k: nat)
    requires c.Valid() && IsRun(c, m, run, edges) && k < |run|
    ensures Inv(c, m, run[k])
  {
    hide Inv, SysStep;
    if k == 0 {
      InitInv(c, m);
    } else {
      var j := k - 1;
      InvAt(c, m, run, edges, j);
      assert SysStep(c, run[j], edges[j].ready, edges[j].done, edges[j].accepted) == Some(run[j + 1]);
      StepKeeps(c, m, run[j], edges[j].ready, edges[j].done, edges[j].accepted);
    }
  }

  /**
   Over every run, for every acknowledgement order and every backpressure: no request is lost or
   delivered twice; within a bus bank, what was delivered and what waits is what was accepted, in
   order; each delivered answer is the one of its place in the acceptance order; and a delivered or
   completed ticket had every older data request acknowledged.
   */
  lemma BridgeDelivers(c: Config, m: Bytes, run: seq<Sys>, edges: seq<Edge>, k: nat)
    requires c.Valid() && IsRun(c, m, run, edges) && k < |run|
    ensures var s := run[k];
            && LogOk(s.log) && Once(|s.log|, s.state.queue, s.delivered)
            && (forall b :: LogLane(c, s.log, b) == Lane(c, s.delivered, b) + Lane(c, s.state.queue, b))
            && (forall i | 0 <= i < |s.delivered| :: EntryGood(m, s.log, s.delivered[i]))
            && (forall i | 0 <= i < |s.state.queue| :: EntryGood(m, s.log, s.state.queue[i]))
            && (forall i | 0 <= i < |s.delivered| ::
                  if s.delivered[i].request.op == Visibility then OlderAcked(s.log, s.acked, s.delivered[i].sequence - 1)
                  else s.delivered[i].sequence in s.acked)
            && (forall i | 0 <= i < |s.state.queue| && s.state.queue[i].serviced && s.state.queue[i].request.op == Visibility ::
                  OlderAcked(s.log, s.acked, s.state.queue[i].sequence - 1))
  {
    InvAt(c, m, run, edges, k);
    var s := run[k];
    forall i | 0 <= i < |s.delivered|
      ensures EntryGood(m, s.log, s.delivered[i])
      ensures if s.delivered[i].request.op == Visibility then OlderAcked(s.log, s.acked, s.delivered[i].sequence - 1)
              else s.delivered[i].sequence in s.acked
    {
      assert EntryGood(m, s.log, s.delivered[i]) && AckGood(s.log, s.acked, s.delivered[i]);
    }
    forall i | 0 <= i < |s.state.queue| && s.state.queue[i].serviced && s.state.queue[i].request.op == Visibility
      ensures OlderAcked(s.log, s.acked, s.state.queue[i].sequence - 1)
    {
      assert EntryGood(m, s.log, s.state.queue[i]) && AckGood(s.log, s.acked, s.state.queue[i]);
    }
  }
}
