/** What holds of every run of the backend: order, bound, preview and fairness. */
module BackendTheorems {
  import opened Arithmetic
  import opened CacheTypes
  import opened Backends
  import opened BackendQueues

  datatype Edge = Edge(cycle: nat, offers: seq<Option<SectorRequest>>, ready: seq<bool>)

  ghost predicate IsRun(c: Config, m: Bytes, run: seq<Sys>, edges: seq<Edge>)
    requires c.Valid()
  {
    && |run| == |edges| + 1
    && run[0] == Sys(InitState(c, m), [], [])
    && (forall k | 0 <= k < |run| :: Shaped(c, run[k].state))
    && (forall k | 0 <= k < |edges| ::
          && InputOk(c, run[k].state, edges[k].cycle, edges[k].offers, edges[k].ready)
          && run[k + 1] == SysStep(c, run[k], edges[k].cycle, edges[k].offers, edges[k].ready))
  }

  /**
   Over every run: the owner's bytes are the accepted writes folded in acceptance order up to the
   served frontier, every delivered answer sees exactly the requests accepted before its own, the
   answers are delivered in acceptance order, and the queue keeps within its bound.
   */
  lemma {:induction false} ServesInOrder(c: Config, m: Bytes, run: seq<Sys>, edges: seq<Edge>, k: nat)
    requires c.Valid() && IsRun(c, m, run, edges) && k < |run|
    ensures Inv(c, m, run[k])
  {
    if k > 0 {
      ServesInOrder(c, m, run, edges, k - 1);
      var e := edges[k - 1];
      StepOk(c, m, run[k - 1], e.cycle, e.offers, e.ready);
    }
  }

  /** The same, spelled out. */
  lemma BackendOrder(c: Config, m: Bytes, run: seq<Sys>, edges: seq<Edge>, k: nat)
    requires c.Valid() && IsRun(c, m, run, edges) && k < |run|
    ensures var s := run[k];
            && LogOk(s.log) && |s.state.queue| <= c.maxInflight
            && |s.delivered| <= ServedCount(s) <= |s.log| == |s.delivered| + |s.state.queue|
            && s.state.memory == MemoryAfter(m, s.log[..ServedCount(s)])
            && (forall j | 0 <= j < |s.delivered| :: s.delivered[j] == AnswerTo(m, s.log[..j], s.log[j]))
            && (forall i | 0 <= i < |s.state.queue| ::
                  s.state.queue[i].request == s.log[|s.delivered| + i] && s.state.queue[i].sequence == |s.delivered| + i + 1)
  {
    ServesInOrder(c, m, run, edges, k);
    var s := run[k];
    forall i | 0 <= i < |s.state.queue|
      ensures s.state.queue[i].request == s.log[|s.delivered| + i] && s.state.queue[i].sequence == |s.delivered| + i + 1
    {
      assert EntryOk(m, s.log, |s.delivered|, s.state.queue, i);
    }
  }

  // ------------------------------------------------------------------ preview

  /** `shown` is the preview cut at the first client that is not ready. */
  ghost predicate CutAt(q: seq<Entry>, ready: seq<bool>, listed: nat, shown: nat)
    requires listed <= |q| && forall k | 0 <= k < |q| :: q[k].client < |ready|
  {
    && shown <= listed
    && (forall k | 0 <= k < shown - 1 :: ready[q[k].client])
    && (shown < listed ==> shown > 0 && !ready[q[shown - 1].client])
  }

  lemma {:induction false} ShownIsCut(q: seq<Entry>, r: seq<Entry>, cycle: nat, ready: seq<bool>, limit: nat, i: nat)
    requires i <= |q| == |r| && forall k | 0 <= k < |q| :: q[k].client < |ready|
    requires forall k | 0 <= k < |q| :: r[k].client == q[k].client && (r[k].serviced <==> q[k].due <= cycle)
    requires forall k | 0 <= k < i :: ready[q[k].client]
    ensures CutAt(q, ready, Listed(q, cycle, limit, i), Shown(r, ready, limit, i))
    decreases |q| - i
  {
    if i < |q| {
      assert Repeats(q, i) <==> Repeats(r, i) by {
        if j :| 0 <= j < i && q[j].client == q[i].client { assert r[j].client == r[i].client; }
        if j :| 0 <= j < i && r[j].client == r[i].client { assert q[j].client == q[i].client; }
      }
      if i < limit && q[i].due <= cycle && !Repeats(q, i) && ready[q[i].client] {
        ShownIsCut(q, r, cycle, ready, limit, i + 1);
      }
    }
  }

  /** The replies of an edge are exactly its preview cut at the first client that is not ready. */
  lemma RepliesFollowPreview(c: Config, m: Bytes, s: Sys, cycle: nat, ready: seq<bool>)
    requires Inv(c, m, s) && |ready| == c.clients && (s.state.cycle.Some? ==> cycle == s.state.cycle.value + 1)
    ensures var t := s.state;
            var r := ServeAll(t.queue, cycle, t.memory, t.writeError).queue;
            && (forall k | 0 <= k < |r| :: r[k].client == t.queue[k].client < c.clients && r[k].sequence == t.queue[k].sequence)
            && CutAt(t.queue, ready, Listed(t.queue, cycle, c.replies, 0), Shown(r, ready, c.replies, 0))
  {
    var t := s.state;
    ServeKeepsClients(t.queue, cycle, t.memory, t.writeError);
    ShownIsCut(t.queue, ServeAll(t.queue, cycle, t.memory, t.writeError).queue, cycle, ready, c.replies, 0);
  }

  /** No client sees two replies on one edge. */
  lemma {:induction false} ShownDistinct(q: seq<Entry>, ready: seq<bool>, limit: nat, i: nat)
    requires i <= |q| && (forall k | 0 <= k < |q| :: q[k].client < |ready|)
    requires forall k | 0 <= k < i :: !Repeats(q, k)
    ensures forall k | 0 <= k < Shown(q, ready, limit, i) :: !Repeats(q, k)
    decreases |q| - i
  {
    if i < |q| && i < limit && q[i].serviced && !Repeats(q, i) && ready[q[i].client] {
      ShownDistinct(q, ready, limit, i + 1);
    }
  }

  // ----------------------------------------------------------------- fairness

  /** The scan reaches the client after `d` others. */
  predicate Behind(c: Config, next: nat, client: nat, d: nat)
    requires c.Valid()
  {
    d < c.clients && client == ClientAt(c, next, d)
  }

  /** A scan that leaves out an offering client accepted only clients before it. */
  lemma {:induction false} AdmitsBefore(c: Config, offers: seq<Option<SectorRequest>>, next: nat, offset: nat, budget: nat, d: nat)
    returns (o: nat)
    requires c.Valid() && |offers| == c.clients && offset <= d < c.clients
    requires offers[ClientAt(c, next, d)].Some? && ClientAt(c, next, d) !in Admit(c, offers, next, offset, budget)
    requires Admit(c, offers, next, offset, budget) != []
    ensures var r := Admit(c, offers, next, offset, budget);
            offset <= o < d && r[|r| - 1] == ClientAt(c, next, o)
    decreases c.clients - offset
  {
    var client := ClientAt(c, next, offset);
    if offers[client].Some? {
      var rest := Admit(c, offers, next, offset + 1, budget - 1);
      assert Admit(c, offers, next, offset, budget) == [client] + rest;
      assert offset != d;
      if rest == [] {
        o := offset;
      } else {
        o := AdmitsBefore(c, offers, next, offset + 1, budget - 1, d);
      }
    } else {
      o := AdmitsBefore(c, offers, next, offset + 1, budget, d);
    }
  }

  lemma ClientShift(c: Config, next: nat, o: nat, d: nat)
    requires c.Valid() && o < d < c.clients
    ensures ClientAt(c, (ClientAt(c, next, o) + 1) % c.clients, d - o - 1) == ClientAt(c, next, d)
  {
    var n := c.clients;
    var a := next + o;
    assert a == n * (a / n) + a % n;
    var b := a % n + 1;
    assert b == n * (b / n) + b % n;
    var e := d - o - 1;
    ModShift(b % n + e, n, b / n);
    ModShift(b + e, n, a / n);
    assert b % n + e + n * (b / n) == b + e;
    assert b + e + n * (a / n) == next + d;
  }

  lemma ModShift(x: nat, n: nat, k: nat)
    requires n > 0
    ensures (x + n * k) % n == x % n
  {
    var q, r := x / n, x % n;
    assert x == q * n + r;
    assert x + n * k == (q + k) * n + r by {
      assert (q + k) * n == q * n + k * n;
      Commute(n, k);
    }
    DivUnique(x + n * k, n, q + k, r);
  }

  /** Each accepting edge that passes a waiting client over brings the scan closer to it. */
  lemma PassedOver(c: Config, s: State, offers: seq<Option<SectorRequest>>, client: nat, d: nat) returns (closer: nat)
    requires Shaped(c, s) && |offers| == c.clients && client < c.clients && offers[client].Some?
    requires Behind(c, s.next, client, d) && client !in Accepted(c, s, offers) && Accepted(c, s, offers) != []
    ensures closer < d && Behind(c, NextClient(c, s.next, Accepted(c, s, offers)), client, closer)
  {
    var o := AdmitsBefore(c, offers, s.next, 0, Budget(c, s), d);
    ClientShift(c, s.next, o, d);
    closer := d - o - 1;
  }

  /** The accepting edges in a stretch of a run. */
  ghost function Accepting(c: Config, run: seq<Sys>, edges: seq<Edge>, a: nat, b: nat): nat
    requires c.Valid() && |run| == |edges| + 1 && a <= b <= |edges|
    requires forall k | a <= k < b :: Shaped(c, run[k].state) && |edges[k].offers| == c.clients
    decreases b - a
  {
    if a == b then 0
    else (if Accepted(c, run[a].state, edges[a].offers) != [] then 1 else 0) + Accepting(c, run, edges, a + 1, b)
  }

  /** The client offers on every edge of the stretch and is accepted on none. */
  ghost predicate Waits(c: Config, run: seq<Sys>, edges: seq<Edge>, a: nat, b: nat, client: nat)
    requires c.Valid() && |run| == |edges| + 1 && a <= b <= |edges| && client < c.clients
  {
    forall k | a <= k < b ::
      && Shaped(c, run[k].state) && |edges[k].offers| == c.clients
      && edges[k].offers[client].Some? && client !in Accepted(c, run[k].state, edges[k].offers)
  }

  lemma {:induction false} WaitsWithin(c: Config, m: Bytes, run: seq<Sys>, edges: seq<Edge>, a: nat, b: nat, client: nat, d: nat)
    requires c.Valid() && IsRun(c, m, run, edges) && a <= b <= |edges| && client < c.clients
    requires Waits(c, run, edges, a, b, client) && Behind(c, run[a].state.next, client, d)
    ensures Accepting(c, run, edges, a, b) <= d
    decreases b - a
  {
    hide Admit, Shown, ServeAll;
    if a < b {
      var s, e := run[a].state, edges[a];
      assert run[a + 1].state.next == NextClient(c, s.next, Accepted(c, s, e.offers));
      assert Waits(c, run, edges, a + 1, b, client);
      if Accepted(c, s, e.offers) == [] {
        WaitsWithin(c, m, run, edges, a + 1, b, client, d);
      } else {
        var closer := PassedOver(c, s, e.offers, client, d);
        WaitsWithin(c, m, run, edges, a + 1, b, client, closer);
      }
    }
  }

  /** A waiting client is passed over on at most `clients - 1` accepting edges. */
  lemma RoundRobinFair(c: Config, m: Bytes, run: seq<Sys>, edges: seq<Edge>, a: nat, b: nat, client: nat)
    requires c.Valid() && IsRun(c, m, run, edges) && a <= b <= |edges| && client < c.clients
    requires Waits(c, run, edges, a, b, client)
    ensures Accepting(c, run, edges, a, b) <= c.clients - 1
  {
    var d := Offset(c, run[a].state.next, client);
    WaitsWithin(c, m, run, edges, a, b, client, d);
  }

  /** Where the scan meets a client. */
  lemma Offset(c: Config, next: nat, client: nat) returns (d: nat)
    requires c.Valid() && next < c.clients && client < c.clients
    ensures Behind(c, next, client, d)
  {
    if client >= next {
      d := client - next;
      DivUnique(next + d, c.clients, 0, client);
    } else {
      d := client + c.clients - next;
      DivUnique(next + d, c.clients, 1, client);
    }
  }
}
