/**
 One edge of the backend and all its runs: every request is served once, in
 acceptance order; the in-flight bound holds; replies follow the preview; and the
 round robin passes over no client for long.
 */
module BackendQueues {
  import opened Arithmetic
  import opened CacheTypes
  import opened Backends

  const LAST_COUNT: nat := 0xffff_ffff_ffff_ffff

  datatype Config = Config(latency: nat, accepts: nat, maxInflight: nat, replies: nat, clients: nat)
  {
    predicate Valid() {
      latency > 0 && accepts > 0 && maxInflight > 0 && replies > 0 && clients > 0
    }
  }

  datatype Entry = Entry(client: nat, request: SectorRequest, due: nat, sequence: nat, serviced: bool, data: Sector, status: Status)

  /** `cycle` is the last edge, if there was one; `last` the last transaction accepted from each client. */
  datatype State = State(queue: seq<Entry>, held: seq<Option<SectorRequest>>, last: seq<Option<nat>>, next: nat,
                         sequence: nat, cycle: Option<nat>, writeError: Status, memory: Bytes)

  predicate Shaped(c: Config, s: State) {
    && c.Valid() && |s.held| == c.clients && |s.last| == c.clients && s.next < c.clients
    && (forall i | 0 <= i < |s.queue| :: s.queue[i].client < c.clients && RequestOk(s.queue[i].request))
  }

  function InitState(c: Config, memory: Bytes): State {
    State([], seq(c.clients, _ => None), seq(c.clients, _ => None), 0, 0, None, Ok, memory)
  }

  predicate OfferOk(c: Config, s: State, cycle: nat, offers: seq<Option<SectorRequest>>, i: nat)
    requires Shaped(c, s) && |offers| == c.clients && i < c.clients
  {
    && (s.held[i].Some? ==> offers[i] == s.held[i])
    && (offers[i].Some? ==>
          && RequestOk(offers[i].value)
          && (s.last[i].Some? ==> offers[i].value.transaction > s.last[i].value)
          && cycle + c.latency <= LAST_COUNT)
  }

  /** The protocol checks; a failing one leaves everything unchanged. */
  predicate InputOk(c: Config, s: State, cycle: nat, offers: seq<Option<SectorRequest>>, ready: seq<bool>)
    requires Shaped(c, s)
  {
    && |offers| == c.clients && |ready| == c.clients
    && (s.cycle.Some? ==> cycle == s.cycle.value + 1 <= LAST_COUNT)
    && (forall i | 0 <= i < c.clients :: OfferOk(c, s, cycle, offers, i))
    && s.sequence + c.clients <= LAST_COUNT
  }

  // ------------------------------------------------------------------ service

  datatype Served = Served(queue: seq<Entry>, memory: Bytes, writeError: Status)

  function ServeOne(e: Entry, cycle: nat, m: Bytes, err: Status): (Entry, Bytes, Status)
    requires RequestOk(e.request)
  {
    if e.serviced || e.due > cycle then (e, m, err)
    else
      match e.request.op
      case Read => (var (data, status) := Load(m, e.request.address); e.(serviced := true, data := data, status := status), m, err)
      case Write =>
        var status := WriteStatus(m, e.request);
        (e.(serviced := true, status := status), Store(m, e.request), if err.Ok? then status else err)
      case Visibility => (e.(serviced := true, status := err), m, err)
  }

  /** Serves the due requests from the front of the queue to its back. */
  function ServeAll(q: seq<Entry>, cycle: nat, m: Bytes, err: Status): (r: Served)
    requires forall i | 0 <= i < |q| :: RequestOk(q[i].request)
    ensures |r.queue| == |q|
  {
    if q == [] then Served([], m, err)
    else
      var n := |q| - 1;
      var before := ServeAll(q[..n], cycle, m, err);
      var (e, m', err') := ServeOne(q[n], cycle, before.memory, before.writeError);
      Served(before.queue + [e], m', err')
  }

  // ------------------------------------------------------------------ replies

  predicate Repeats(q: seq<Entry>, i: nat)
    requires i < |q|
  {
    exists j :: 0 <= j < i && q[j].client == q[i].client
  }

  /** How many replies an edge shows: serviced requests of different clients, up to the first client that is not ready. */
  function Shown(q: seq<Entry>, ready: seq<bool>, limit: nat, i: nat): (n: nat)
    requires i <= |q| && forall k | 0 <= k < |q| :: q[k].client < |ready|
    ensures i <= n <= |q|
    decreases |q| - i
  {
    if i == |q| || i >= limit || !q[i].serviced || Repeats(q, i) then i
    else if !ready[q[i].client] then i + 1
    else Shown(q, ready, limit, i + 1)
  }

  /** How many of the shown replies are delivered. */
  function Retired(q: seq<Entry>, ready: seq<bool>, limit: nat): (n: nat)
    requires forall k | 0 <= k < |q| :: q[k].client < |ready|
    ensures n <= |q|
  {
    var shown := Shown(q, ready, limit, 0);
    if shown > 0 && !ready[q[shown - 1].client] then shown - 1 else shown
  }

  datatype Reply = Reply(entry: Entry, delivered: bool)

  /** The reply each client sees. */
  function RepliesOf(q: seq<Entry>, ready: seq<bool>, shown: nat, client: nat): Option<Reply>
    requires shown <= |q| && client < |ready|
  {
    if shown == 0 then None
    else if q[shown - 1].client == client then Some(Reply(q[shown - 1], ready[client]))
    else RepliesOf(q, ready, shown - 1, client)
  }

  /** How many replies the preview lists: due requests of different clients. */
  function Listed(q: seq<Entry>, cycle: nat, limit: nat, i: nat): (n: nat)
    requires i <= |q|
    ensures i <= n <= |q|
    decreases |q| - i
  {
    if i == |q| || i >= limit || q[i].due > cycle || Repeats(q, i) then i else Listed(q, cycle, limit, i + 1)
  }

  // ---------------------------------------------------------------- admission

  function ClientAt(c: Config, next: nat, offset: nat): (r: nat)
    requires c.Valid()
    ensures r < c.clients
  {
    (next + offset) % c.clients
  }

  /** The clients accepted by the scan from `offset` on, in scan order. */
  function Admit(c: Config, offers: seq<Option<SectorRequest>>, next: nat, offset: nat, budget: nat): (r: seq<nat>)
    requires c.Valid() && |offers| == c.clients && offset <= c.clients
    ensures |r| <= budget
    ensures forall k | 0 <= k < |r| :: r[k] < c.clients && offers[r[k]].Some?
    decreases c.clients - offset
  {
    if offset == c.clients || budget == 0 then []
    else
      var client := ClientAt(c, next, offset);
      if offers[client].Some? then [client] + Admit(c, offers, next, offset + 1, budget - 1)
      else Admit(c, offers, next, offset + 1, budget)
  }

  function Budget(c: Config, s: State): nat {
    var slots := if |s.queue| <= c.maxInflight then c.maxInflight - |s.queue| else 0;
    if c.accepts < slots then c.accepts else slots
  }

  function NewEntries(c: Config, offers: seq<Option<SectorRequest>>, accepted: seq<nat>, cycle: nat, sequence: nat): seq<Entry>
    requires |offers| == c.clients
    requires forall k | 0 <= k < |accepted| :: accepted[k] < c.clients && offers[accepted[k]].Some?
  {
    seq(|accepted|, k requires 0 <= k < |accepted| =>
      Entry(accepted[k], offers[accepted[k]].value, cycle + c.latency, sequence + k + 1, false, ZERO_SECTOR, Ok))
  }

  function NextClient(c: Config, next: nat, accepted: seq<nat>): nat
    requires c.Valid()
  {
    if accepted == [] then next else (accepted[|accepted| - 1] + 1) % c.clients
  }

  // ----------------------------------------------------------------- one edge

  function Accepted(c: Config, s: State, offers: seq<Option<SectorRequest>>): (r: seq<nat>)
    requires Shaped(c, s) && |offers| == c.clients
    ensures forall k | 0 <= k < |r| :: r[k] < c.clients && offers[r[k]].Some?
  {
    Admit(c, offers, s.next, 0, Budget(c, s))
  }

  function Step(c: Config, s: State, cycle: nat, offers: seq<Option<SectorRequest>>, ready: seq<bool>): (t: State)
    requires Shaped(c, s) && InputOk(c, s, cycle, offers, ready)
  {
    var served := ServeAll(s.queue, cycle, s.memory, s.writeError);
    ServeKeepsClients(s.queue, cycle, s.memory, s.writeError);
    var retired := Retired(served.queue, ready, c.replies);
    var accepted := Accepted(c, s, offers);
    State(served.queue[retired..] + NewEntries(c, offers, accepted, cycle, s.sequence),
          seq(c.clients, i requires 0 <= i < c.clients => if offers[i].Some? && i !in accepted then offers[i] else None),
          seq(c.clients, i requires 0 <= i < c.clients => if i in accepted then Some(offers[i].value.transaction) else s.last[i]),
          NextClient(c, s.next, accepted), s.sequence + |accepted|, Some(cycle), served.writeError, served.memory)
  }

  /** The reply one client sees on an edge. */
  function EdgeReply(c: Config, s: State, cycle: nat, ready: seq<bool>, client: nat): Option<Reply>
    requires Shaped(c, s) && |ready| == c.clients && client < c.clients
  {
    ServeKeepsClients(s.queue, cycle, s.memory, s.writeError);
    var q := ServeAll(s.queue, cycle, s.memory, s.writeError).queue;
    RepliesOf(q, ready, Shown(q, ready, c.replies, 0), client)
  }

  lemma {:induction false} ServeKeepsClients(q: seq<Entry>, cycle: nat, m: Bytes, err: Status)
    requires forall i | 0 <= i < |q| :: RequestOk(q[i].request)
    ensures var r := ServeAll(q, cycle, m, err).queue;
            forall i | 0 <= i < |q| ::
              && r[i].client == q[i].client && r[i].request == q[i].request && r[i].due == q[i].due && r[i].sequence == q[i].sequence
              && r[i].serviced == (q[i].serviced || q[i].due <= cycle)
  {
    if q != [] {
      ServeKeepsClients(q[..|q| - 1], cycle, m, err);
    }
  }

  // ------------------------------------------------------------- serving order

  /** What has been accepted so far, in order, and the answers delivered so far. */
  datatype Sys = Sys(state: State, log: seq<SectorRequest>, delivered: seq<(Sector, Status)>)

  function Frontier(q: seq<Entry>, cycle: nat): (n: nat)
    ensures n <= |q|
    ensures n < |q| ==> q[n].due > cycle
    ensures forall i | 0 <= i < n :: q[i].due <= cycle
  {
    if q == [] || q[0].due > cycle then 0 else 1 + Frontier(q[1..], cycle)
  }

  ghost predicate Ascending(q: seq<Entry>) {
    forall i, j | 0 <= i < j < |q| :: q[i].due <= q[j].due
  }

  ghost predicate LogOk(log: seq<SectorRequest>) {
    forall k | 0 <= k < |log| :: RequestOk(log[k])
  }

  /** Entry `i` of the queue is request `base + i` of the log, and when serviced holds that request's answer. */
  ghost predicate EntryOk(m: Bytes, log: seq<SectorRequest>, base: nat, q: seq<Entry>, i: nat)
    requires LogOk(log) && i < |q| && base + |q| <= |log|
  {
    && q[i].request == log[base + i] && q[i].sequence == base + i + 1
    && (q[i].serviced ==> (q[i].data, q[i].status) == AnswerTo(m, log[..base + i], log[base + i]))
    && (!q[i].serviced ==> q[i].data == ZERO_SECTOR)
  }

  ghost predicate QueueOk(m: Bytes, log: seq<SectorRequest>, base: nat, q: seq<Entry>)
    requires LogOk(log)
  {
    base + |q| <= |log| && forall i | 0 <= i < |q| :: EntryOk(m, log, base, q, i)
  }

  /** The queue is the end of the log, within the in-flight bound. */
  ghost predicate Placed(c: Config, m: Bytes, s: Sys) {
    && Shaped(c, s.state) && LogOk(s.log)
    && |s.delivered| + |s.state.queue| == |s.log| && QueueOk(m, s.log, |s.delivered|, s.state.queue)
    && |s.state.queue| <= c.maxInflight && s.state.sequence == |s.log|
  }

  /** Requests fall due in order, and exactly the due ones are serviced. */
  ghost predicate Timed(c: Config, t: State) {
    && Ascending(t.queue)
    && (t.cycle.None? ==> t.queue == [])
    && (t.cycle.Some? ==>
          forall i | 0 <= i < |t.queue| ::
            (t.queue[i].serviced <==> t.queue[i].due <= t.cycle.value) && t.queue[i].due <= t.cycle.value + c.latency)
  }

  /** How many requests have been served so far. */
  function ServedCount(s: Sys): nat {
    |s.delivered| + Frontier(s.state.queue, if s.state.cycle.Some? then s.state.cycle.value else 0)
  }

  /** The bytes and the first write error are those after the served requests. */
  ghost predicate Stored(m: Bytes, s: Sys)
    requires LogOk(s.log)
  {
    var n := ServedCount(s);
    n <= |s.log| && s.state.memory == MemoryAfter(m, s.log[..n]) && s.state.writeError == ErrorAfter(m, s.log[..n])
  }

  /** Every delivered answer is the answer after exactly the requests accepted before it. */
  ghost predicate Told(m: Bytes, s: Sys)
    requires LogOk(s.log)
  {
    && |s.delivered| <= |s.log|
    && forall j | 0 <= j < |s.delivered| :: s.delivered[j] == AnswerTo(m, s.log[..j], s.log[j])
  }

  ghost predicate Inv(c: Config, m: Bytes, s: Sys) {
    Placed(c, m, s) && Timed(c, s.state) && Stored(m, s) && Told(m, s)
  }

  /** What the next edge delivers and accepts. */
  function SysStep(c: Config, s: Sys, cycle: nat, offers: seq<Option<SectorRequest>>, ready: seq<bool>): Sys
    requires Shaped(c, s.state) && InputOk(c, s.state, cycle, offers, ready)
  {
    var t := s.state;
    ServeKeepsClients(t.queue, cycle, t.memory, t.writeError);
    var q := ServeAll(t.queue, cycle, t.memory, t.writeError).queue;
    var accepted := Accepted(c, t, offers);
    var out := Retired(q, ready, c.replies);
    Sys(Step(c, t, cycle, offers, ready),
        s.log + seq(|accepted|, k requires 0 <= k < |accepted| => offers[accepted[k]].value),
        s.delivered + seq(out, k requires 0 <= k < out => (q[k].data, q[k].status)))
  }

  /** Serving one more entry at its place in the order. */
  lemma ServeOneOk(m: Bytes, log: seq<SectorRequest>, n: nat, e: Entry, cycle: nat)
    requires LogOk(log) && n < |log| && e.request == log[n] && !e.serviced && e.due <= cycle && e.data == ZERO_SECTOR
    ensures var (f, mem, err) := ServeOne(e, cycle, MemoryAfter(m, log[..n]), ErrorAfter(m, log[..n]));
            && mem == MemoryAfter(m, log[..n + 1]) && err == ErrorAfter(m, log[..n + 1])
            && f.serviced && (f.data, f.status) == AnswerTo(m, log[..n], log[n])
  {
    AfterAppend(m, log[..n], log[n]);
    assert log[..n] + [log[n]] == log[..n + 1];
  }

  lemma ServeSkips(e: Entry, cycle: nat, m: Bytes, err: Status)
    requires RequestOk(e.request) && (e.serviced || e.due > cycle)
    ensures ServeOne(e, cycle, m, err) == (e, m, err)
  {
  }

  lemma ServeKeeps(e: Entry, cycle: nat, m: Bytes, err: Status)
    requires RequestOk(e.request)
    ensures var f := ServeOne(e, cycle, m, err).0;
            f.client == e.client && f.request == e.request && f.due == e.due && f.sequence == e.sequence
  {
  }

  function Max(a: nat, b: nat): nat {
    if a < b then b else a
  }

  /**
   Serving a queue whose first `n` entries are done and whose first `n2` are due leaves the
   memory as after `base + n2` requests, and each served entry with its own answer.
   */
  lemma {:induction false} ServeAllOk(m: Bytes, log: seq<SectorRequest>, base: nat, q: seq<Entry>, cycle: nat, n: nat, n2: nat)
    requires LogOk(log) && QueueOk(m, log, base, q) && n <= n2
    requires forall i | 0 <= i < |q| :: (q[i].serviced <==> i < n) && (q[i].due <= cycle <==> i < n2)
    requires base + n <= |log|
    ensures forall i | 0 <= i < |q| :: RequestOk(q[i].request)
    ensures var k := Max(n, if n2 < |q| then n2 else |q|);
            var r := ServeAll(q, cycle, MemoryAfter(m, log[..base + n]), ErrorAfter(m, log[..base + n]));
            && base + k <= |log|
            && QueueOk(m, log, base, r.queue)
            && r.memory == MemoryAfter(m, log[..base + k]) && r.writeError == ErrorAfter(m, log[..base + k])
  {
    hide MemoryAfter, ErrorAfter, AnswerTo, ServeOne, RequestOk;
    forall i | 0 <= i < |q| ensures RequestOk(q[i].request) {
      assert EntryOk(m, log, base, q, i);
    }
    if q != [] {
      var l := |q| - 1;
      var head := q[..l];
      forall i | 0 <= i < l ensures EntryOk(m, log, base, head, i) {
        assert EntryOk(m, log, base, q, i);
      }
      ServeAllOk(m, log, base, head, cycle, n, n2);
      var before := ServeAll(head, cycle, MemoryAfter(m, log[..base + n]), ErrorAfter(m, log[..base + n]));
      var r := ServeAll(q, cycle, MemoryAfter(m, log[..base + n]), ErrorAfter(m, log[..base + n]));
      assert EntryOk(m, log, base, q, l);
      if n <= l < n2 {
        ServeOneOk(m, log, base + l, q[l], cycle);
      } else {
        ServeSkips(q[l], cycle, before.memory, before.writeError);
      }
      ServeKeeps(q[l], cycle, before.memory, before.writeError);
      assert EntryOk(m, log, base, r.queue, l);
      QueueGrows(m, log, base, before.queue, r.queue);
    }
  }

  lemma QueueGrows(m: Bytes, log: seq<SectorRequest>, base: nat, q: seq<Entry>, r: seq<Entry>)
    requires LogOk(log) && QueueOk(m, log, base, q) && |r| == |q| + 1 && r[..|q|] == q && base + |r| <= |log|
    requires EntryOk(m, log, base, r, |q|)
    ensures QueueOk(m, log, base, r)
  {
    hide AnswerTo, LogOk;
    forall i | 0 <= i < |r| ensures EntryOk(m, log, base, r, i) {
      if i < |q| {
        assert r[..|q|][i] == r[i] && EntryOk(m, log, base, q, i);
      }
    }
  }

  lemma FrontierIs(q: seq<Entry>, cycle: nat, i: nat)
    requires Ascending(q) && i < |q|
    ensures q[i].due <= cycle <==> i < Frontier(q, cycle)
  {
    var n := Frontier(q, cycle);
    assert n < i ==> q[n].due <= q[i].due;
  }

  lemma {:induction false} FrontierGrows(q: seq<Entry>, a: nat, b: nat)
    requires a <= b
    ensures Frontier(q, a) <= Frontier(q, b)
  {
    if q != [] && q[0].due <= a {
      FrontierGrows(q[1..], a, b);
    }
  }

  /** The queue and the memory once the due requests are served. */
  lemma ServedOk(c: Config, m: Bytes, s: Sys, cycle: nat)
    requires Inv(c, m, s) && (s.state.cycle.Some? ==> cycle == s.state.cycle.value + 1)
    ensures forall i | 0 <= i < |s.state.queue| :: RequestOk(s.state.queue[i].request)
    ensures var t := s.state;
            var r := ServeAll(t.queue, cycle, t.memory, t.writeError);
            var n := |s.delivered| + Frontier(t.queue, cycle);
            && n <= |s.log| && QueueOk(m, s.log, |s.delivered|, r.queue)
            && r.memory == MemoryAfter(m, s.log[..n]) && r.writeError == ErrorAfter(m, s.log[..n])
  {
    hide MemoryAfter, ErrorAfter, AnswerTo, ServeAll, EntryOk, Frontier;
    var t := s.state;
    var was := if t.cycle.Some? then t.cycle.value else 0;
    var n, n2 := Frontier(t.queue, was), Frontier(t.queue, cycle);
    forall i | 0 <= i < |t.queue| ensures (t.queue[i].serviced <==> i < n) && (t.queue[i].due <= cycle <==> i < n2) {
      FrontierIs(t.queue, was, i);
      FrontierIs(t.queue, cycle, i);
    }
    FrontierGrows(t.queue, was, cycle);
    ServeAllOk(m, s.log, |s.delivered|, t.queue, cycle, n, n2);
  }

  /** Only served requests are delivered. */
  lemma ShownServed(q: seq<Entry>, ready: seq<bool>, limit: nat, i: nat)
    requires i <= |q| && forall k | 0 <= k < |q| :: q[k].client < |ready|
    requires forall k | 0 <= k < i :: q[k].serviced
    ensures forall k | 0 <= k < Shown(q, ready, limit, i) :: q[k].serviced
    decreases |q| - i
  {
  }

  lemma RetiredServed(q: seq<Entry>, ready: seq<bool>, limit: nat)
    requires forall k | 0 <= k < |q| :: q[k].client < |ready|
    ensures forall k | 0 <= k < Retired(q, ready, limit) :: q[k].serviced
  {
    ShownServed(q, ready, limit, 0);
  }

  lemma LogPrefix(log: seq<SectorRequest>, more: seq<SectorRequest>, n: nat)
    requires n <= |log|
    ensures (log + more)[..n] == log[..n]
  {
  }

  /** The front of a served queue leaves with its answers; the rest keeps its places. */
  lemma RetireOk(m: Bytes, log: seq<SectorRequest>, base: nat, q: seq<Entry>, out: nat)
    requires LogOk(log) && QueueOk(m, log, base, q) && out <= |q| && forall k | 0 <= k < out :: q[k].serviced
    ensures QueueOk(m, log, base + out, q[out..])
    ensures forall k | 0 <= k < out :: (q[k].data, q[k].status) == AnswerTo(m, log[..base + k], log[base + k])
  {
    var rest, after := q[out..], base + out;
    forall i | 0 <= i < |rest| ensures EntryOk(m, log, after, rest, i) {
      assert EntryOk(m, log, base, q, out + i);
      assert rest[i] == q[out + i];
    }
    forall k | 0 <= k < out ensures (q[k].data, q[k].status) == AnswerTo(m, log[..base + k], log[base + k]) {
      assert EntryOk(m, log, base, q, k);
    }
  }

  /** Newly accepted requests join the queue and the log together. */
  lemma AppendOk(m: Bytes, log: seq<SectorRequest>, base: nat, q: seq<Entry>, more: seq<SectorRequest>, fresh_: seq<Entry>)
    requires LogOk(log) && LogOk(more) && QueueOk(m, log, base, q) && base + |q| == |log| && |fresh_| == |more|
    requires forall k | 0 <= k < |more| ::
               fresh_[k].request == more[k] && fresh_[k].sequence == |log| + k + 1 && !fresh_[k].serviced && fresh_[k].data == ZERO_SECTOR
    ensures LogOk(log + more) && QueueOk(m, log + more, base, q + fresh_)
  {
    var log', q' := log + more, q + fresh_;
    forall i | 0 <= i < |q'| ensures EntryOk(m, log', base, q', i) {
      LogPrefix(log, more, if base + i <= |log| then base + i else |log|);
      if i < |q| {
        assert EntryOk(m, log, base, q, i);
        assert log'[base + i] == log[base + i];
      } else {
        assert log'[base + i] == more[i - |q|];
      }
    }
  }

  lemma {:induction false} FrontierOf(q: seq<Entry>, cycle: nat, n: nat)
    requires n <= |q| && (forall i | 0 <= i < n :: q[i].due <= cycle) && (n < |q| ==> q[n].due > cycle)
    ensures Frontier(q, cycle) == n
  {
    if n > 0 {
      FrontierOf(q[1..], cycle, n - 1);
    }
  }

  function Requests(offers: seq<Option<SectorRequest>>, accepted: seq<nat>): seq<SectorRequest>
    requires forall k | 0 <= k < |accepted| :: accepted[k] < |offers| && offers[accepted[k]].Some?
  {
    seq(|accepted|, k requires 0 <= k < |accepted| => offers[accepted[k]].value)
  }

  function Answers(q: seq<Entry>, n: nat): seq<(Sector, Status)>
    requires n <= |q|
  {
    seq(n, k requires 0 <= k < n => (q[k].data, q[k].status))
  }

  /** The fields after one edge, in terms of the served queue. */
  lemma StepFields(c: Config, s: Sys, cycle: nat, offers: seq<Option<SectorRequest>>, ready: seq<bool>)
    requires Shaped(c, s.state) && InputOk(c, s.state, cycle, offers, ready)
    requires |s.state.queue| <= c.maxInflight
    ensures var t := s.state;
            var r, accepted := ServeAll(t.queue, cycle, t.memory, t.writeError), Accepted(c, t, offers);
            var u := SysStep(c, s, cycle, offers, ready);
            && (forall k | 0 <= k < |r.queue| :: r.queue[k].client < c.clients)
            && var out := Retired(r.queue, ready, c.replies);
               && u.state.queue == r.queue[out..] + NewEntries(c, offers, accepted, cycle, t.sequence)
               && u.log == s.log + Requests(offers, accepted) && u.delivered == s.delivered + Answers(r.queue, out)
               && u.state.memory == r.memory && u.state.writeError == r.writeError
               && u.state.cycle == Some(cycle) && u.state.sequence == t.sequence + |accepted|
               && Shaped(c, u.state) && |u.state.queue| <= c.maxInflight
  {
    hide ServeAll, Retired, Admit, MemoryAfter, OfferOk;
    var t := s.state;
    ServeKeepsClients(t.queue, cycle, t.memory, t.writeError);
    var accepted := Accepted(c, t, offers);
    var fresh_ := NewEntries(c, offers, accepted, cycle, t.sequence);
    forall k | 0 <= k < |fresh_| ensures RequestOk(fresh_[k].request) {
      OfferedOk(c, t, cycle, offers, accepted[k]);
    }
  }

  lemma StepPlaced(c: Config, m: Bytes, s: Sys, cycle: nat, offers: seq<Option<SectorRequest>>, ready: seq<bool>)
    requires Inv(c, m, s) && InputOk(c, s.state, cycle, offers, ready)
    ensures Placed(c, m, SysStep(c, s, cycle, offers, ready))
  {
    hide Admit, AnswerTo, ServeAll, Retired, Frontier, EntryOk, OfferOk, SysStep, Stored, Told;
    var t, base := s.state, |s.delivered|;
    var r := ServeAll(t.queue, cycle, t.memory, t.writeError);
    StepFields(c, s, cycle, offers, ready);
    ServedOk(c, m, s, cycle);
    RetiredServed(r.queue, ready, c.replies);
    var out := Retired(r.queue, ready, c.replies);
    RetireOk(m, s.log, base, r.queue, out);
    var accepted := Accepted(c, t, offers);
    var more := Requests(offers, accepted);
    forall k | 0 <= k < |more| ensures RequestOk(more[k]) {
      OfferedOk(c, t, cycle, offers, accepted[k]);
    }
    AppendOk(m, s.log, base + out, r.queue[out..], more, NewEntries(c, offers, accepted, cycle, t.sequence));
  }

  lemma StepTimed(c: Config, m: Bytes, s: Sys, cycle: nat, offers: seq<Option<SectorRequest>>, ready: seq<bool>)
    requires Inv(c, m, s) && InputOk(c, s.state, cycle, offers, ready)
    requires Placed(c, m, SysStep(c, s, cycle, offers, ready))
    ensures Timed(c, SysStep(c, s, cycle, offers, ready).state) && Stored(m, SysStep(c, s, cycle, offers, ready))
  {
    hide Admit, AnswerTo, MemoryAfter, ErrorAfter, ServeAll, Retired, Frontier, EntryOk, OfferOk, SysStep, Told;
    var t, base := s.state, |s.delivered|;
    var r := ServeAll(t.queue, cycle, t.memory, t.writeError);
    ServeKeepsClients(t.queue, cycle, t.memory, t.writeError);
    StepFields(c, s, cycle, offers, ready);
    ServedOk(c, m, s, cycle);
    RetiredServed(r.queue, ready, c.replies);
    var out := Retired(r.queue, ready, c.replies);
    var accepted := Accepted(c, t, offers);
    StepFrontier(c, t, cycle, r.queue, out, NewEntries(c, offers, accepted, cycle, t.sequence));
    LogPrefix(s.log, Requests(offers, accepted), base + Frontier(t.queue, cycle));
  }

  lemma StepTold(c: Config, m: Bytes, s: Sys, cycle: nat, offers: seq<Option<SectorRequest>>, ready: seq<bool>)
    requires Inv(c, m, s) && InputOk(c, s.state, cycle, offers, ready)
    requires Placed(c, m, SysStep(c, s, cycle, offers, ready))
    ensures Told(m, SysStep(c, s, cycle, offers, ready))
  {
    hide Admit, AnswerTo, ServeAll, Retired, Frontier, EntryOk, OfferOk, SysStep, Stored, Timed;
    var t, u := s.state, SysStep(c, s, cycle, offers, ready);
    var r := ServeAll(t.queue, cycle, t.memory, t.writeError);
    StepFields(c, s, cycle, offers, ready);
    ServedOk(c, m, s, cycle);
    RetiredServed(r.queue, ready, c.replies);
    var out := Retired(r.queue, ready, c.replies);
    RetireOk(m, s.log, |s.delivered|, r.queue, out);
    var accepted := Accepted(c, t, offers);
    var more := Requests(offers, accepted);
    forall k | 0 <= k < |more| ensures RequestOk(more[k]) {
      OfferedOk(c, t, cycle, offers, accepted[k]);
    }
    DeliveredOk(m, s, r.queue, out, more, u);
  }

  /** One edge keeps the order. */
  lemma StepOk(c: Config, m: Bytes, s: Sys, cycle: nat, offers: seq<Option<SectorRequest>>, ready: seq<bool>)
    requires Inv(c, m, s) && InputOk(c, s.state, cycle, offers, ready)
    ensures Inv(c, m, SysStep(c, s, cycle, offers, ready))
  {
    hide SysStep, Timed, Told, Stored;
    StepPlaced(c, m, s, cycle, offers, ready);
    StepTimed(c, m, s, cycle, offers, ready);
    StepTold(c, m, s, cycle, offers, ready);
  }

  lemma OfferedOk(c: Config, t: State, cycle: nat, offers: seq<Option<SectorRequest>>, i: nat)
    requires Shaped(c, t) && |offers| == c.clients && i < c.clients && OfferOk(c, t, cycle, offers, i) && offers[i].Some?
    ensures RequestOk(offers[i].value)
  {
  }

  lemma DeliveredOk(m: Bytes, s: Sys, q: seq<Entry>, out: nat, more: seq<SectorRequest>, u: Sys)
    requires LogOk(s.log) && LogOk(more) && |s.delivered| + |q| == |s.log| && out <= |q|
    requires forall j | 0 <= j < |s.delivered| :: s.delivered[j] == AnswerTo(m, s.log[..j], s.log[j])
    requires forall k | 0 <= k < out :: (q[k].data, q[k].status) == AnswerTo(m, s.log[..|s.delivered| + k], s.log[|s.delivered| + k])
    requires u.log == s.log + more && u.delivered == s.delivered + Answers(q, out)
    ensures LogOk(u.log)
    ensures forall j | 0 <= j < |u.delivered| :: u.delivered[j] == AnswerTo(m, u.log[..j], u.log[j])
  {
    hide AnswerTo;
    forall j | 0 <= j < |u.delivered| ensures u.delivered[j] == AnswerTo(m, u.log[..j], u.log[j]) {
      LogPrefix(s.log, more, j);
      assert u.log[j] == s.log[j];
      if j >= |s.delivered| {
        var k := j - |s.delivered|;
        assert u.delivered[j] == (q[k].data, q[k].status);
      }
    }
  }

  /** The due times of the new queue and where the served part ends. */
  lemma StepFrontier(c: Config, t: State, cycle: nat, q: seq<Entry>, out: nat, fresh_: seq<Entry>)
    requires c.Valid() && Ascending(t.queue) && |q| == |t.queue| && out <= |q|
    requires forall i | 0 <= i < |q| :: q[i].due == t.queue[i].due && q[i].due <= cycle + c.latency
    requires forall i | 0 <= i < |q| :: q[i].serviced <==> q[i].due <= cycle
    requires forall k | 0 <= k < out :: q[k].serviced
    requires forall k | 0 <= k < |fresh_| :: fresh_[k].due == cycle + c.latency && !fresh_[k].serviced
    ensures var n := q[out..] + fresh_;
            && Ascending(n) && out + Frontier(n, cycle) == Frontier(t.queue, cycle)
            && (forall i | 0 <= i < |n| :: (n[i].serviced <==> n[i].due <= cycle) && n[i].due <= cycle + c.latency)
  {
    hide Frontier;
    var n := q[out..] + fresh_;
    var f := Frontier(t.queue, cycle);
    forall k | 0 <= k < |q| ensures q[k].due <= cycle <==> k < f {
      FrontierIs(t.queue, cycle, k);
    }
    assert forall k | 0 <= k < out :: q[k].serviced && k < f;
    FrontierOf(n, cycle, f - out);
  }
}
