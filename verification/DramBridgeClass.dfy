/** The DRAM bridge as the object it is: its scans and its clock edge (timing/memsys/external.go). */
module DramBridgeClass {
  import opened CacheTypes
  import opened Backends
  import opened DramBridge

  function Turn(c: Config, k: nat): (r: nat)
    requires c.Valid()
    ensures r < c.clients
  {
    k % c.clients
  }

  /** The offers a round robin from `start` takes, from the given place of the scan on. */
  function Choice(c: Config, offers: seq<Option<SectorRequest>>, start: nat, offset: nat, budget: nat): (r: seq<(nat, SectorRequest)>)
    requires c.Valid() && |offers| == c.clients && offset <= c.clients
    ensures |r| <= budget && forall k | 0 <= k < |r| :: r[k].0 < c.clients && offers[r[k].0] == Some(r[k].1)
    decreases c.clients - offset
  {
    if offset == c.clients || budget == 0 then []
    else
      var client := Turn(c, start + offset);
      if offers[client].Some? then [(client, offers[client].value)] + Choice(c, offers, start, offset + 1, budget - 1)
      else Choice(c, offers, start, offset + 1, budget)
  }

  const LAST_COUNT: nat := 0xffff_ffff_ffff_ffff

  /** What a port may offer: what it held, if anything; an aligned request under a new number. */
  predicate OfferOk(held: Option<SectorRequest>, last: Option<nat>, offer: Option<SectorRequest>) {
    && (held.Some? ==> offer == held)
    && (offer.Some? ==> RequestOk(offer.value) && (last.Some? ==> offer.value.transaction > last.value))
  }

  /** The clients served by a list of accepted offers, and the client the next scan starts from. */
  function Clients(list: seq<(nat, SectorRequest)>): set<nat> {
    set k | 0 <= k < |list| :: list[k].0
  }

  /** The newest number each port used, and the offers left waiting, once some clients were served. */
  function Stamped(offers: seq<Option<SectorRequest>>, served: set<nat>, last: seq<Option<nat>>): (r: seq<Option<nat>>)
    requires |offers| == |last|
    ensures |r| == |last|
  {
    seq(|last|, k requires 0 <= k < |last| => if k in served && offers[k].Some? then Some(offers[k].value.transaction) else last[k])
  }

  function Waiting(offers: seq<Option<SectorRequest>>, served: set<nat>): (r: seq<Option<SectorRequest>>)
    ensures |r| == |offers|
  {
    seq(|offers|, k requires 0 <= k < |offers| => if k in served then None else offers[k])
  }

  function NextStart(c: Config, start: nat, list: seq<(nat, SectorRequest)>): nat
    requires c.Valid()
  {
    if list == [] then start else Turn(c, list[|list| - 1].0 + 1)
  }

  method CountReplies(held: seq<Option<Entry>>) returns (n: nat)
    ensures n == CountHeld(held)
  {
    n := 0;
    var k := 0;
    while k < |held|
      invariant k <= |held| && n == CountHeld(held[..k])
    {
      assert held[..k + 1][..k] == held[..k];
      if held[k].Some? {
        n := n + 1;
      }
      k := k + 1;
    }
    assert held[..k] == held;
  }

  /** The scan that keeps what is not retired. */
  method Filter(q: seq<Entry>, gone: set<nat>) returns (kept: seq<Entry>)
    ensures kept == Keep(q, gone)
  {
    kept := [];
    var i := 0;
    while i < |q|
      invariant i <= |q| && Keep(q, gone) == kept + Keep(q[i..], gone)
    {
      assert q[i..][0] == q[i] && q[i..][1..] == q[i + 1..];
      if q[i].sequence !in gone {
        kept := kept + [q[i]];
      }
      i := i + 1;
    }
  }

  predicate Unique(q: seq<Entry>) {
    forall i, j | 0 <= i < j < |q| :: q[i].sequence != q[j].sequence
  }

  /** Entries of known clients under distinct numbers, none beyond the last given. */
  predicate QueueOk(c: Config, q: seq<Entry>, last: nat) {
    Unique(q) && forall i | 0 <= i < |q| :: q[i].client < c.clients && RequestOk(q[i].request) && q[i].sequence <= last
  }

  /** One acknowledgement: the first entry of that number, a data request not yet served. */
  method AckOne(q: seq<Entry>, id: nat) returns (r: Option<seq<Entry>>)
    requires Unique(q)
    ensures r == if AckOk(q, id) then Some(Ack(q, id)) else None
    ensures r.Some? ==> Unique(r.value)
  {
    var i := 0;
    while i < |q|
      invariant i <= |q| && forall k | 0 <= k < i :: q[k].sequence != id
    {
      if q[i].sequence == id {
        if q[i].serviced || q[i].request.op == Visibility {
          return None;
        }
        assert q[i := q[i].(serviced := true)] == Ack(q, id);
        return Some(q[i := q[i].(serviced := true)]);
      }
      i := i + 1;
    }
    r := None;
  }

  method Acknowledge(q: seq<Entry>, done: seq<nat>) returns (r: Option<seq<Entry>>)
    requires Unique(q)
    ensures r == AckAll(q, done)
  {
    hide Ack, AckOk, Unique;
    var now := q;
    var k := 0;
    while k < |done|
      invariant k <= |done| && Unique(now) && AckAll(q, done) == AckAll(now, done[k..])
    {
      assert done[k..][0] == done[k] && done[k..][1..] == done[k + 1..];
      var next := AckOne(now, done[k]);
      if next.None? {
        return None;
      }
      now := next.value;
      k := k + 1;
    }
    r := Some(now);
  }

  /** The ticket scan: a ticket is done once everything before it is. */
  method CompleteTickets(q: seq<Entry>) returns (r: seq<Entry>)
    ensures r == Tickets(q, true)
  {
    r := [];
    var olderDone := true;
    var i := 0;
    while i < |q|
      invariant i <= |q| && Tickets(q, true) == r + Tickets(q[i..], olderDone)
    {
      assert q[i..][0] == q[i] && q[i..][1..] == q[i + 1..];
      var e := q[i];
      if e.request.op == Visibility && olderDone {
        e := e.(serviced := true);
      }
      r := r + [e];
      olderDone := olderDone && e.serviced;
      i := i + 1;
    }
  }

  class AsyncBackend {
    const config: Config
    var queue: seq<Entry>
    var returnHeld: seq<Option<Entry>>
    var nextClient: nat
    var held: seq<Option<SectorRequest>>
    var last: seq<Option<nat>>
    var cycle: Option<nat>
    var sequence: nat
    var writeError: Status
    var memory: Bytes

    function Model(): State
      reads this
    {
      State(queue, returnHeld, sequence, writeError, memory)
    }

    ghost predicate Valid()
      reads this
    {
      && Shaped(config, Model()) && QueueOk(config, queue, sequence) && nextClient < config.clients
      && |queue| <= config.maxInflight && |held| == config.clients && |last| == config.clients
    }

    /** The protocol checks on one edge's inputs. */
    predicate InputOk(now: nat, offers: seq<Option<SectorRequest>>, ready: seq<bool>)
      reads this
    {
      && |offers| == |held| && |ready| == |held| && |last| == |held|
      && (cycle.Some? ==> cycle.value < LAST_COUNT && now == cycle.value + 1) && now < LAST_COUNT
      && sequence + |offers| <= LAST_COUNT
      && forall k | 0 <= k < |offers| :: OfferOk(held[k], last[k], offers[k])
    }

    constructor (c: Config, bytes: Bytes)
      requires c.Valid()
      ensures config == c && Valid() && Model() == State([], seq(c.clients, _ => None), 0, Ok, bytes)
      ensures nextClient == 0 && cycle.None? && forall k | 0 <= k < c.clients :: held[k].None? && last[k].None?
    {
      held, last, cycle := seq(c.clients, _ => None), seq(c.clients, _ => None), None;
      config, queue, returnHeld := c, [], seq(c.clients, _ => None);
      nextClient, sequence, writeError, memory := 0, 0, Ok, bytes;
    }

    /** The replies on show: held ones, then the oldest acknowledged request of each bus bank while the limit lasts. */
    method PreviewResponses() returns (r: seq<Option<Entry>>)
      requires Valid()
      ensures r == Preview(config, Model())
    {
      hide CountHeld, QueueOk, BankOf;
      QueueMeans(config, queue, sequence);
      r := returnHeld;
      var count: nat := CountReplies(returnHeld);
      var seen: set<nat> := {};
      var j := 0;
      while j < |queue|
        invariant j <= |queue| && |r| == config.clients && seen == SeenBanks(config, queue, j)
        invariant PreviewFrom(config, queue, 0, returnHeld, CountHeld(returnHeld)) == PreviewFrom(config, queue, j, r, count)
      {
        var e := queue[j];
        var blocked := false;
        if e.request.op != Visibility {
          var bank := BankOf(config, e.request);
          blocked := bank in seen;
          seen := seen + {bank};
        }
        if !blocked && e.serviced && r[e.client].None? && count < config.replies {
          r := r[e.client := Some(e)];
          count := count + 1;
        }
        j := j + 1;
      }
    }

    /** The scan that hands replies over: which leave, and which stay with their client. */
    method Retire(preview: seq<Option<Entry>>, ready: seq<bool>) returns (gone: set<nat>, stay: seq<Option<Entry>>)
      requires Valid() && |preview| == config.clients && |ready| == config.clients
      ensures gone == RetireFrom(config, queue, preview, ready, 0, 0) && stay == HeldFrom(config, queue, preview, ready, 0, 0)
    {
      hide QueueOk;
      QueueMeans(config, queue, sequence);
      gone, stay := {}, seq(config.clients, _ => None);
      var count, j := 0, 0;
      while j < |queue|
        invariant j <= |queue| && |stay| == config.clients
        invariant RetireFrom(config, queue, preview, ready, 0, 0) == gone + RetireFrom(config, queue, preview, ready, j, count)
        invariant forall k | 0 <= k < config.clients :: stay[k].Some? ==> stay[k] == preview[k]
        invariant forall k | 0 <= k < config.clients ::
          HeldFrom(config, queue, preview, ready, 0, 0)[k] == if stay[k].Some? then stay[k] else HeldFrom(config, queue, preview, ready, j, count)[k]
      {
        var e := queue[j];
        if preview[e.client].Some? && preview[e.client].value.sequence == e.sequence && count < config.replies {
          if ready[e.client] {
            gone := gone + {e.sequence};
            count := count + 1;
          } else {
            stay := stay[e.client := preview[e.client]];
          }
        }
        j := j + 1;
      }
    }

    /** One accepted request: its data is read or applied now. */
    method AcceptOne(client: nat, r: SectorRequest)
      requires RequestOk(r)
      modifies this`queue, this`sequence, this`memory, this`writeError
      ensures Model() == old(AcceptAll(Model(), [(client, r)]))
    {
      var status: Status := Ok;
      var e := Sample(client, r, sequence + 1, memory, writeError);
      sequence := sequence + 1;
      if r.op == Write {
        var runs := CollectRuns(r.enables);
        var bytes;
        bytes, status := WriteRuns(memory, r, runs);
        memory := bytes;
      }
      if status.Failed? && writeError.Ok? {
        writeError := status;
      }
      queue := queue + [e];
      OneAccepted(old(Model()), client, r);
    }

    /** Accepts offers round robin while the edge's and the old occupancy's budget lasts. */
    method Admit(offers: seq<Option<SectorRequest>>, budget: nat) returns (accepted: set<nat>)
      requires config.Valid() && |offers| == config.clients && nextClient < config.clients && |last| == config.clients
      requires forall k | 0 <= k < |offers| && offers[k].Some? :: RequestOk(offers[k].value)
      modifies this`queue, this`sequence, this`memory, this`writeError, this`nextClient, this`last
      ensures var list := Choice(config, offers, old(nextClient), 0, budget);
              && Model() == AcceptAll(old(Model()), list) && accepted == Clients(list)
              && nextClient == NextStart(config, old(nextClient), list) && last == Stamped(offers, accepted, old(last))
    {
      hide AcceptAll, Choice, Clients, Stamped, NextStart, Turn, RequestOk;
      NextStarts(config, nextClient);
      NoneStamped(offers, last);
      ghost var before, list := Model(), Choice(config, offers, nextClient, 0, budget);
      ghost var taken: seq<(nat, SectorRequest)> := [];
      var start: nat, next: nat, count: nat, offset: nat := nextClient, nextClient, 0, 0;
      accepted := {};
      NoClients();
      while offset < config.clients
        invariant offset <= config.clients && count <= budget && nextClient == start && |last| == config.clients
        invariant list == taken + Choice(config, offers, start, offset, budget - count)
        invariant next == NextStart(config, start, taken) && accepted == Clients(taken)
        invariant AcceptAll(before, list) == AcceptAll(Model(), Choice(config, offers, start, offset, budget - count))
        invariant last == Stamped(offers, accepted, old(last))
      {
        var client := Turn(config, start + offset);
        ChoiceStep(config, offers, start, offset, budget - count);
        if offers[client].Some? && count < budget {
          ghost var x := (client, offers[client].value);
          AcceptedThen(Model(), x, Choice(config, offers, start, offset + 1, budget - count - 1));
          AcceptOne(client, offers[client].value);
          StampOne(offers, accepted, old(last), client);
          last := last[client := Some(offers[client].value.transaction)];
          ClientsEnd(taken, x);
          NextStartEnd(config, start, taken, x);
          ghost var rest := Choice(config, offers, start, offset + 1, budget - count - 1);
          assert taken + ([x] + rest) == (taken + [x]) + rest;
          taken := taken + [x];
          accepted := accepted + {client};
          count := count + 1;
          next := Turn(config, client + 1);
        }
        offset := offset + 1;
      }
      ChoiceStep(config, offers, start, offset, budget - count);
      assert list == taken;
      NoneAccepted(Model());
      nextClient := next;
    }

    /**
     One edge: retire, acknowledge in the library's order, accept, complete tickets. Refused
     inputs change nothing; an acknowledgement of an unknown or already served request ends
     the run.
     */
    method Step(now: nat, offers: seq<Option<SectorRequest>>, ready: seq<bool>, done: seq<nat>) returns (ok: bool)
      requires Valid()
      modifies this
      ensures ok ==> Valid() && old(InputOk(now, offers, ready))
      ensures !old(InputOk(now, offers, ready)) ==>
                !ok && Model() == old(Model()) && nextClient == old(nextClient) && held == old(held) && last == old(last) && cycle == old(cycle)
      ensures old(InputOk(now, offers, ready)) ==>
                var room := old(config.maxInflight - |queue|);
                var list := Choice(config, offers, old(nextClient), 0, if config.accepts < room then config.accepts else room);
                && (ok <==> DramBridge.Step(config, old(Model()), ready, done, list).Some?)
                && (ok ==>
                      && Model() == DramBridge.Step(config, old(Model()), ready, done, list).value
                      && nextClient == NextStart(config, old(nextClient), list) && cycle == Some(now)
                      && held == Waiting(offers, Clients(list)) && last == Stamped(offers, Clients(list), old(last)))
    {
      hide RetireFrom, HeldFrom, Keep, AckAll, AcceptAll, Tickets, Preview, Choice, QueueOk, OfferOk, Clients, NextStart, Stamped, Waiting, RequestOk;
      ok := Check(now, offers, ready);
      if !ok {
        return;
      }
      OffersFit(offers, held, last);
      assert Unique(queue) by { QueueMeans(config, queue, sequence); }
      var room := config.maxInflight - |queue|;
      var budget := if config.accepts < room then config.accepts else room;
      var preview := PreviewResponses();
      var gone, stay := Retire(preview, ready);
      var kept := Filter(queue, gone);
      KeepOk(config, queue, gone, sequence);
      QueueMeans(config, kept, sequence);
      var acked := Acknowledge(kept, done);
      if acked.None? {
        return false;
      }
      AckAllOk(config, kept, done, sequence);
      queue := acked.value;
      ghost var list := Choice(config, offers, nextClient, 0, budget);
      AcceptOk(config, Model(), list);
      HeldIrrelevant(Model(), list, stay);
      StartFits(config, nextClient, list);
      var accepted := Admit(offers, budget);
      TicketsOk(config, queue, true, sequence);
      queue := CompleteTickets(queue);
      QueueMeans(config, queue, sequence);
      returnHeld := stay;
      held := Waiting(offers, accepted);
      cycle := Some(now);
      ok := true;
    }

    method Check(now: nat, offers: seq<Option<SectorRequest>>, ready: seq<bool>) returns (pass: bool)
      requires Valid()
      ensures pass == InputOk(now, offers, ready)
    {
      hide OfferOk, QueueOk;
      if cycle.Some? && (cycle.value >= LAST_COUNT || now != cycle.value + 1) {
        return false;
      }
      if |offers| != |held| || |ready| != |held| || now >= LAST_COUNT || sequence + |offers| > LAST_COUNT {
        return false;
      }
      for k := 0 to |offers|
        invariant forall j | 0 <= j < k :: OfferOk(held[j], last[j], offers[j])
      {
        if !OfferOk(held[k], last[k], offers[k]) {
          return false;
        }
      }
      pass := true;
    }
  }

  lemma OffersFit(offers: seq<Option<SectorRequest>>, held: seq<Option<SectorRequest>>, last: seq<Option<nat>>)
    requires |held| == |last| == |offers| && forall k | 0 <= k < |offers| :: OfferOk(held[k], last[k], offers[k])
    ensures forall k | 0 <= k < |offers| && offers[k].Some? :: RequestOk(offers[k].value)
  {
    forall k | 0 <= k < |offers| && offers[k].Some? ensures RequestOk(offers[k].value) {
      assert OfferOk(held[k], last[k], offers[k]);
    }
  }

  lemma NoClients()
    ensures Clients([]) == {}
  {
  }

  lemma ClientsEnd(list: seq<(nat, SectorRequest)>, x: (nat, SectorRequest))
    ensures Clients(list + [x]) == Clients(list) + {x.0}
  {
    var all := list + [x];
    assert forall k | 0 <= k < |list| :: all[k] == list[k];
    forall i | i in Clients(list) + {x.0} ensures i in Clients(all) {
      if i == x.0 {
        assert all[|list|].0 == i;
      } else {
        var k :| 0 <= k < |list| && list[k].0 == i;
        assert all[k].0 == i;
      }
    }
  }

  lemma NextStarts(c: Config, start: nat)
    requires c.Valid()
    ensures NextStart(c, start, []) == start
  {
  }

  lemma NextStartEnd(c: Config, start: nat, list: seq<(nat, SectorRequest)>, x: (nat, SectorRequest))
    requires c.Valid()
    ensures NextStart(c, start, list + [x]) == Turn(c, x.0 + 1)
  {
    assert (list + [x])[|list|] == x;
  }

  lemma NoneStamped(offers: seq<Option<SectorRequest>>, last: seq<Option<nat>>)
    requires |offers| == |last|
    ensures Stamped(offers, {}, last) == last
  {
  }

  lemma StampOne(offers: seq<Option<SectorRequest>>, served: set<nat>, last: seq<Option<nat>>, client: nat)
    requires |offers| == |last| && client < |last| && offers[client].Some?
    ensures Stamped(offers, served + {client}, last) ==
            Stamped(offers, served, last)[client := Some(offers[client].value.transaction)]
  {
  }

  lemma StartFits(c: Config, start: nat, list: seq<(nat, SectorRequest)>)
    requires c.Valid() && start < c.clients
    ensures NextStart(c, start, list) < c.clients
  {
  }

  lemma OneAccepted(s: State, client: nat, r: SectorRequest)
    requires RequestOk(r)
    ensures AcceptAll(s, [(client, r)]) ==
            s.(queue := s.queue + [Sample(client, r, s.sequence + 1, s.memory, s.writeError)],
               sequence := s.sequence + 1,
               memory := if r.op == Write then Store(s.memory, r) else s.memory,
               writeError := if s.writeError.Ok? then (if r.op == Write then WriteStatus(s.memory, r) else Ok) else s.writeError)
  {
    assert [(client, r)][1..] == [];
  }

  lemma AcceptedThen(s: State, x: (nat, SectorRequest), rest: seq<(nat, SectorRequest)>)
    requires RequestOk(x.1) && forall k | 0 <= k < |rest| :: RequestOk(rest[k].1)
    ensures AcceptAll(s, [x] + rest) == AcceptAll(AcceptAll(s, [x]), rest)
  {
    assert ([x] + rest)[1..] == rest && [x][1..] == [];
  }

  lemma NoneAccepted(s: State)
    ensures AcceptAll(s, []) == s
  {
  }

  lemma ChoiceStep(c: Config, offers: seq<Option<SectorRequest>>, start: nat, offset: nat, budget: nat)
    requires c.Valid() && |offers| == c.clients && offset <= c.clients
    ensures Choice(c, offers, start, offset, budget) ==
            if offset == c.clients || budget == 0 then []
            else
              var client := Turn(c, start + offset);
              if offers[client].Some? then [(client, offers[client].value)] + Choice(c, offers, start, offset + 1, budget - 1)
              else Choice(c, offers, start, offset + 1, budget)
    ensures budget == 0 && offset < c.clients ==> Choice(c, offers, start, offset + 1, budget) == []
  {
  }

  lemma {:induction false} HeldIrrelevant(s: State, list: seq<(nat, SectorRequest)>, held: seq<Option<Entry>>)
    requires forall k | 0 <= k < |list| :: RequestOk(list[k].1)
    ensures AcceptAll(s, list).held == s.held
    decreases |list|
  {
    if list != [] {
      OneAccepted(s, list[0].0, list[0].1);
      assert list == [list[0]] + list[1..];
      AcceptedThen(s, list[0], list[1..]);
      HeldIrrelevant(AcceptAll(s, [list[0]]), list[1..], held);
    }
  }

  lemma QueueMeans(c: Config, q: seq<Entry>, last: nat)
    requires QueueOk(c, q, last)
    ensures Unique(q) && forall i | 0 <= i < |q| :: q[i].client < c.clients && RequestOk(q[i].request)
  {
  }

  lemma {:induction false} KeepIn(q: seq<Entry>, gone: set<nat>)
    ensures |Keep(q, gone)| <= |q| && forall k | 0 <= k < |Keep(q, gone)| :: Keep(q, gone)[k] in q
    decreases |q|
  {
    if q != [] {
      KeepIn(q[1..], gone);
    }
  }

  lemma {:induction false} KeepUnique(q: seq<Entry>, gone: set<nat>)
    requires Unique(q)
    ensures Unique(Keep(q, gone))
    decreases |q|
  {
    if q != [] {
      var rest := q[1..];
      KeepUnique(rest, gone);
      KeepIn(rest, gone);
      var tail := Keep(rest, gone);
      forall k | 0 <= k < |tail| ensures tail[k].sequence != q[0].sequence {
        var m :| 0 <= m < |rest| && rest[m] == tail[k];
        assert q[0].sequence != q[m + 1].sequence;
      }
    }
  }

  lemma KeepOk(c: Config, q: seq<Entry>, gone: set<nat>, last: nat)
    requires QueueOk(c, q, last)
    ensures QueueOk(c, Keep(q, gone), last) && |Keep(q, gone)| <= |q|
  {
    hide Keep, RequestOk, Unique;
    KeepUnique(q, gone);
    KeepIn(q, gone);
    var r := Keep(q, gone);
    forall k | 0 <= k < |r| ensures r[k].client < c.clients && RequestOk(r[k].request) && r[k].sequence <= last {
      var m :| 0 <= m < |q| && q[m] == r[k];
    }
  }

  /** Marking entries served changes neither their numbers nor their requests. */
  lemma SameQueue(c: Config, q: seq<Entry>, r: seq<Entry>, last: nat)
    requires QueueOk(c, q, last) && |r| == |q|
    requires forall i | 0 <= i < |q| :: r[i] == q[i] || r[i] == q[i].(serviced := true)
    ensures QueueOk(c, r, last)
  {
    forall i, j | 0 <= i < j < |r| ensures r[i].sequence != r[j].sequence {
      assert q[i].sequence != q[j].sequence;
    }
  }

  lemma {:induction false} AckAllOk(c: Config, q: seq<Entry>, done: seq<nat>, last: nat)
    requires QueueOk(c, q, last) && AckAll(q, done).Some?
    ensures QueueOk(c, AckAll(q, done).value, last)
    decreases |done|
  {
    if done != [] {
      SameQueue(c, q, Ack(q, done[0]), last);
      AckAllOk(c, Ack(q, done[0]), done[1..], last);
    }
  }

  lemma {:induction false} TicketsSame(q: seq<Entry>, olderDone: bool)
    ensures forall i | 0 <= i < |q| :: Tickets(q, olderDone)[i] == q[i] || Tickets(q, olderDone)[i] == q[i].(serviced := true)
    decreases |q|
  {
    if q != [] {
      var e := if q[0].request.op == Visibility && olderDone then q[0].(serviced := true) else q[0];
      TicketsSame(q[1..], olderDone && e.serviced);
    }
  }

  lemma TicketsOk(c: Config, q: seq<Entry>, olderDone: bool, last: nat)
    requires QueueOk(c, q, last)
    ensures QueueOk(c, Tickets(q, olderDone), last)
  {
    TicketsSame(q, olderDone);
    SameQueue(c, q, Tickets(q, olderDone), last);
  }

  lemma {:induction false} AcceptOk(c: Config, s: State, list: seq<(nat, SectorRequest)>)
    requires QueueOk(c, s.queue, s.sequence) && forall k | 0 <= k < |list| :: list[k].0 < c.clients && RequestOk(list[k].1)
    ensures QueueOk(c, AcceptAll(s, list).queue, AcceptAll(s, list).sequence)
    ensures |AcceptAll(s, list).queue| == |s.queue| + |list|
    decreases |list|
  {
    if list != [] {
      OneAccepted(s, list[0].0, list[0].1);
      assert list == [list[0]] + list[1..];
      AcceptedThen(s, list[0], list[1..]);
      AcceptOk(c, AcceptAll(s, [list[0]]), list[1..]);
    }
  }
}
