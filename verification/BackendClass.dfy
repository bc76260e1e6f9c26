/**
 The backend as the source keeps it: one object that serves, retires and appends
 to its queue in place. An edge that fails a protocol check changes nothing.
 */
module BackendClass {
  import opened CacheTypes
  import opened Backends
  import opened BackendQueues

  class Backend {
    const config: Config
    var memory: Bytes
    var queue: seq<Entry>
    var held: seq<Option<SectorRequest>>
    var last: seq<Option<nat>>
    var nextClient: nat
    var sequence: nat
    var cycle: Option<nat>
    var writeError: Status

    function Model(): State
      reads this
    {
      State(queue, held, last, nextClient, sequence, cycle, writeError, memory)
    }

    ghost predicate Valid()
      reads this
    {
      Shaped(config, Model())
    }

    constructor (c: Config, bytes: Bytes)
      requires c.Valid()
      ensures config == c && Valid() && Model() == InitState(c, bytes)
    {
      config, memory, queue := c, bytes, [];
      held, last := seq(c.clients, _ => None), seq(c.clients, _ => None);
      nextClient, sequence, cycle, writeError := 0, 0, None, Ok;
    }

    method Check(now: nat, offers: seq<Option<SectorRequest>>, ready: seq<bool>) returns (pass: bool)
      requires Valid()
      ensures pass == InputOk(config, Model(), now, offers, ready)
    {
      if |offers| != |held| || |ready| != |held| { return false; }
      if cycle.Some? && (cycle.value == LAST_COUNT || now != cycle.value + 1) { return false; }
      if cycle.Some? && now > LAST_COUNT { return false; }
      var i := 0;
      while i < |offers|
        invariant i <= |offers| && forall k | 0 <= k < i :: OfferOk(config, Model(), now, offers, k)
      {
        if !OfferOk(config, Model(), now, offers, i) { return false; }
        i := i + 1;
      }
      return sequence + |offers| <= LAST_COUNT;
    }

    /** Serves one request against the owner's bytes. */
    method ServeEntry(e: Entry, now: nat) returns (f: Entry)
      requires RequestOk(e.request)
      modifies this`memory, this`writeError
      ensures (f, memory, writeError) == old(ServeOne(e, now, memory, writeError))
    {
      f := e;
      if e.serviced || e.due > now { return; }
      match e.request.op {
        case Read =>
          var (data, status) := Load(memory, e.request.address);
          f := f.(data := data, status := status);
        case Write =>
          var runs := CollectRuns(e.request.enables);
          var bytes, status := WriteRuns(memory, e.request, runs);
          memory := bytes;
          f := f.(status := status);
          if status.Failed? && writeError.Ok? {
            writeError := status;
          }
        case Visibility =>
          f := f.(status := writeError);
      }
      f := f.(serviced := true);
    }

    /** Serves every due request once, from the front of the queue. */
    method Service(now: nat)
      requires forall i | 0 <= i < |queue| :: RequestOk(queue[i].request)
      modifies this`queue, this`memory, this`writeError
      ensures Served(queue, memory, writeError) == old(ServeAll(queue, now, memory, writeError))
    {
      hide ServeOne;
      ghost var q, m, err := queue, memory, writeError;
      var i := 0;
      while i < |queue|
        invariant i <= |queue| == |q| && forall k | i <= k < |q| :: queue[k] == q[k]
        invariant Served(queue[..i], memory, writeError) == ServeAll(q[..i], now, m, err)
      {
        assert q[..i + 1][..i] == q[..i];
        var e := ServeEntry(queue[i], now);
        ghost var before := queue[..i];
        queue := queue[i := e];
        assert queue[..i + 1] == before + [e];
        i := i + 1;
      }
      assert queue[..i] == queue && q[..i] == q;
    }

    /** Shows replies from the front until the limit, an unserved request, a repeated client or one that is not ready. */
    method Retire(ready: seq<bool>) returns (replies: seq<Option<Reply>>)
      requires Valid() && |ready| == config.clients
      modifies this`queue
      ensures queue == old(queue[Retired(queue, ready, config.replies)..])
      ensures |replies| == config.clients
      ensures forall k | 0 <= k < config.clients ::
                replies[k] == old(RepliesOf(queue, ready, Shown(queue, ready, config.replies, 0), k))
    {
      replies := seq(config.clients, _ => None);
      var retired, i := 0, 0;
      var blocked := false;
      while i < |queue| && i < config.replies && !blocked
        invariant i <= |queue| && |replies| == config.clients && queue == old(queue)
        invariant forall k | 0 <= k < config.clients :: replies[k] == RepliesOf(queue, ready, i, k)
        invariant blocked ==> i > 0 && retired == i - 1 && !ready[queue[i - 1].client] && Shown(queue, ready, config.replies, 0) == i
        invariant !blocked ==> retired == i && Shown(queue, ready, config.replies, 0) == Shown(queue, ready, config.replies, i)
        invariant !blocked ==> forall k | 0 <= k < i :: ready[queue[k].client]
        decreases |queue| - i, if blocked then 0 else 1
      {
        var e := queue[i];
        RepeatsShown(queue, ready, i);
        if !e.serviced || replies[e.client].Some? {
          break;
        }
        replies := replies[e.client := Some(Reply(e, ready[e.client]))];
        if !ready[e.client] {
          blocked := true;
        } else {
          retired := retired + 1;
        }
        i := i + 1;
      }
      queue := queue[retired..];
    }

    method AcceptOne(client: nat, r: SectorRequest, now: nat)
      requires client < |last|
      modifies this`queue, this`last, this`sequence
      ensures sequence == old(sequence) + 1 && last == old(last)[client := Some(r.transaction)]
      ensures queue == old(queue) + [Entry(client, r, now + config.latency, old(sequence) + 1, false, ZERO_SECTOR, Ok)]
    {
      sequence := sequence + 1;
      queue := queue + [Entry(client, r, now + config.latency, sequence, false, ZERO_SECTOR, Ok)];
      last := last[client := Some(r.transaction)];
    }

    /** Accepts offers round robin while the cycle's and the old occupancy's budget lasts. */
    method Admit(now: nat, offers: seq<Option<SectorRequest>>, slots: nat) returns (accepted: seq<bool>, ghost list: seq<nat>)
      requires config.Valid() && |last| == config.clients && |offers| == config.clients
      modifies this`queue, this`last, this`nextClient, this`sequence
      ensures list == old(BackendQueues.Admit(config, offers, nextClient, 0, if config.accepts < slots then config.accepts else slots))
      ensures queue == old(queue) + NewEntries(config, offers, list, now, old(sequence))
      ensures Recorded(config, offers, list, accepted, last, old(last))
      ensures nextClient == NextClient(config, old(nextClient), list) && sequence == old(sequence) + |list|
    {
      hide BackendQueues.Admit, NewEntries, ClientAt, Recorded, NextClient, Following, Joined, Config.Valid;
      accepted, list := seq(config.clients, _ => false), [];
      NoneJoined(config, offers, now, sequence, queue);
      NoneRecorded(config, offers, accepted, last);
      NextAtStart(config, nextClient);
      var start, next := nextClient, nextClient;
      var budget := if config.accepts < slots then config.accepts else slots;
      ghost var whole := BackendQueues.Admit(config, offers, start, 0, budget);
      var count, offset := 0, 0;
      while offset < config.clients
        invariant offset <= config.clients && count == |list| <= budget && nextClient == start
        invariant |accepted| == config.clients && |last| == config.clients
        invariant whole == list + BackendQueues.Admit(config, offers, start, offset, budget - count)
        invariant Joined(config, offers, list, now, old(sequence), old(queue), queue)
        invariant Recorded(config, offers, list, accepted, last, old(last))
        invariant next == NextClient(config, start, list) && sequence == old(sequence) + |list|
      {
        var client := ClientAt(config, start, offset);
        AdmitStep(config, offers, start, offset, budget - count);
        if offers[client].Some? && count < budget {
          RecordedGrows(config, offers, list, accepted, last, old(last), client);
          JoinOne(config, offers, list, client, now, old(sequence), old(queue), queue);
          NextAfter(config, start, list, client);
          ListGrows(list, client, BackendQueues.Admit(config, offers, start, offset + 1, budget - count - 1));
          AcceptOne(client, offers[client].value, now);
          accepted := accepted[client := true];
          list := list + [client];
          count := count + 1;
          next := Following(config, client);
        }
        offset := offset + 1;
      }
      AdmitStep(config, offers, start, offset, budget - count);
      assert list == whole;
      JoinedMeans(config, offers, list, now, old(sequence), old(queue), queue);
      nextClient := next;
    }

    /** The replies the next edge would show to clients that are all ready, without serving anything. */
    method PreviewResponses(now: nat) returns (ok: bool, replies: seq<Option<Reply>>)
      requires Valid()
      ensures ok == (cycle.Some? ==> cycle.value != LAST_COUNT && now == cycle.value + 1)
      ensures ok ==> |replies| == config.clients
      ensures ok ==> forall k | 0 <= k < config.clients ::
                replies[k] == RepliesOf(queue, seq(config.clients, _ => true), Listed(queue, now, config.replies, 0), k)
    {
      if cycle.Some? && (cycle.value == LAST_COUNT || now != cycle.value + 1) { return false, []; }
      ok, replies := true, seq(config.clients, _ => None);
      ghost var all := seq(config.clients, _ => true);
      var i := 0;
      while i < |queue|
        invariant i <= |queue| && |replies| == config.clients
        invariant forall k | 0 <= k < config.clients :: replies[k] == RepliesOf(queue, all, i, k)
        invariant Listed(queue, now, config.replies, 0) == Listed(queue, now, config.replies, i)
      {
        var e := queue[i];
        RepeatsShown(queue, all, i);
        if i >= config.replies || e.due > now || replies[e.client].Some? {
          break;
        }
        replies := replies[e.client := Some(Reply(e, true))];
        i := i + 1;
      }
    }

    method Step(now: nat, offers: seq<Option<SectorRequest>>, ready: seq<bool>)
      returns (ok: bool, accepted: seq<bool>, replies: seq<Option<Reply>>)
      requires Valid()
      modifies this
      ensures ok == old(InputOk(config, Model(), now, offers, ready))
      ensures !ok ==> Model() == old(Model())
      ensures ok ==> Model() == BackendQueues.Step(config, old(Model()), now, offers, ready)
      ensures ok ==> |accepted| == config.clients
                     && forall k | 0 <= k < config.clients :: accepted[k] == (k in Accepted(config, old(Model()), offers))
      ensures ok ==> |replies| == config.clients
                     && forall k | 0 <= k < config.clients :: replies[k] == EdgeReply(config, old(Model()), now, ready, k)
    {
      hide ServeAll, Retired, Shown, RepliesOf, BackendQueues.Admit, NewEntries;
      accepted, replies := [], [];
      ok := Check(now, offers, ready);
      if !ok { return; }
      ghost var s := Model();
      var slots := if |queue| <= config.maxInflight then config.maxInflight - |queue| else 0;
      Service(now);
      ServeKeepsClients(s.queue, now, s.memory, s.writeError);
      replies := Retire(ready);
      ghost var list;
      accepted, list := Admit(now, offers, slots);
      held := seq(config.clients, i requires 0 <= i < config.clients && i < |accepted| && i < |offers| =>
        if offers[i].Some? && !accepted[i] then offers[i] else None);
      cycle := Some(now);
      ghost var t := BackendQueues.Step(config, s, now, offers, ready);
      assert held == t.held;
      assert last == t.last;
    }
  }

  /** The marks and last transactions after accepting the listed clients. */
  ghost predicate Recorded(c: Config, offers: seq<Option<SectorRequest>>, list: seq<nat>, accepted: seq<bool>,
                           last: seq<Option<nat>>, was: seq<Option<nat>>)
  {
    && |offers| == c.clients && |accepted| == c.clients && |last| == c.clients && |was| == c.clients
    && (forall k | 0 <= k < |list| :: list[k] < c.clients && offers[list[k]].Some?)
    && (forall k | 0 <= k < c.clients :: accepted[k] == (k in list))
    && (forall k | 0 <= k < c.clients :: last[k] == if k in list then Some(offers[k].value.transaction) else was[k])
  }

  lemma NoneRecorded(c: Config, offers: seq<Option<SectorRequest>>, accepted: seq<bool>, last: seq<Option<nat>>)
    requires |offers| == c.clients && |accepted| == c.clients && |last| == c.clients
    requires forall k | 0 <= k < c.clients :: !accepted[k]
    ensures Recorded(c, offers, [], accepted, last, last)
  {
  }

  lemma RecordedGrows(c: Config, offers: seq<Option<SectorRequest>>, list: seq<nat>, accepted: seq<bool>,
                      last: seq<Option<nat>>, was: seq<Option<nat>>, client: nat)
    requires Recorded(c, offers, list, accepted, last, was) && client < c.clients && offers[client].Some?
    ensures Recorded(c, offers, list + [client], accepted[client := true], last[client := Some(offers[client].value.transaction)], was)
  {
  }

  function Following(c: Config, client: nat): nat
    requires c.Valid()
  {
    (client + 1) % c.clients
  }

  lemma NextAtStart(c: Config, next: nat)
    requires c.Valid()
    ensures NextClient(c, next, []) == next
  {
  }

  lemma NextAfter(c: Config, next: nat, list: seq<nat>, client: nat)
    requires c.Valid()
    ensures NextClient(c, next, list + [client]) == Following(c, client)
  {
  }

  /** The queue is the old one and the accepted offers behind it. */
  ghost predicate Joined(c: Config, offers: seq<Option<SectorRequest>>, list: seq<nat>, now: nat, sequence: nat,
                         was: seq<Entry>, q: seq<Entry>)
  {
    && |offers| == c.clients && (forall k | 0 <= k < |list| :: list[k] < c.clients && offers[list[k]].Some?)
    && q == was + NewEntries(c, offers, list, now, sequence)
  }

  lemma NoneJoined(c: Config, offers: seq<Option<SectorRequest>>, now: nat, sequence: nat, q: seq<Entry>)
    requires |offers| == c.clients
    ensures Joined(c, offers, [], now, sequence, q, q)
  {
    NoEntries(c, offers, now, sequence);
  }

  lemma JoinOne(c: Config, offers: seq<Option<SectorRequest>>, list: seq<nat>, client: nat, now: nat, sequence: nat,
                was: seq<Entry>, q: seq<Entry>)
    requires Joined(c, offers, list, now, sequence, was, q) && client < c.clients && offers[client].Some?
    ensures Joined(c, offers, list + [client], now, sequence, was,
                   q + [Entry(client, offers[client].value, now + c.latency, sequence + |list| + 1, false, ZERO_SECTOR, Ok)])
  {
    hide NewEntries;
    NewEntriesAppend(c, offers, list, client, now, sequence);
  }

  lemma JoinedMeans(c: Config, offers: seq<Option<SectorRequest>>, list: seq<nat>, now: nat, sequence: nat,
                    was: seq<Entry>, q: seq<Entry>)
    requires Joined(c, offers, list, now, sequence, was, q)
    ensures |offers| == c.clients && (forall k | 0 <= k < |list| :: list[k] < c.clients && offers[list[k]].Some?)
    ensures q == was + NewEntries(c, offers, list, now, sequence)
  {
  }

  lemma ListGrows(list: seq<nat>, client: nat, rest: seq<nat>)
    ensures list + ([client] + rest) == list + [client] + rest
  {
  }

  lemma AdmitStep(c: Config, offers: seq<Option<SectorRequest>>, next: nat, offset: nat, budget: nat)
    requires c.Valid() && |offers| == c.clients && offset <= c.clients
    ensures BackendQueues.Admit(c, offers, next, offset, budget) ==
            if offset == c.clients || budget == 0 then []
            else
              var client := ClientAt(c, next, offset);
              if offers[client].Some? then [client] + BackendQueues.Admit(c, offers, next, offset + 1, budget - 1)
              else BackendQueues.Admit(c, offers, next, offset + 1, budget)
    ensures budget == 0 && offset < c.clients ==> BackendQueues.Admit(c, offers, next, offset + 1, budget) == []
  {
  }

  lemma NoEntries(c: Config, offers: seq<Option<SectorRequest>>, now: nat, sequence: nat)
    requires |offers| == c.clients
    ensures NewEntries(c, offers, [], now, sequence) == []
  {
  }

  lemma NewEntriesAppend(c: Config, offers: seq<Option<SectorRequest>>, list: seq<nat>, client: nat, now: nat, sequence: nat)
    requires |offers| == c.clients && client < c.clients && offers[client].Some?
    requires forall k | 0 <= k < |list| :: list[k] < c.clients && offers[list[k]].Some?
    ensures NewEntries(c, offers, list + [client], now, sequence) ==
            NewEntries(c, offers, list, now, sequence)
            + [Entry(client, offers[client].value, now + c.latency, sequence + |list| + 1, false, ZERO_SECTOR, Ok)]
  {
  }

  /** A client repeats exactly when it has a reply already. */
  lemma RepeatsShown(q: seq<Entry>, ready: seq<bool>, i: nat)
    requires i < |q| && forall k | 0 <= k < |q| :: q[k].client < |ready|
    ensures Repeats(q, i) <==> RepliesOf(q, ready, i, q[i].client).Some?
  {
    RepliesMeans(q, ready, i, q[i].client);
  }

  lemma {:induction false} RepliesMeans(q: seq<Entry>, ready: seq<bool>, shown: nat, client: nat)
    requires shown <= |q| && client < |ready|
    ensures RepliesOf(q, ready, shown, client).Some? <==> exists j :: 0 <= j < shown && q[j].client == client
  {
    if shown > 0 && q[shown - 1].client != client {
      RepliesMeans(q, ready, shown - 1, client);
    }
  }
}
