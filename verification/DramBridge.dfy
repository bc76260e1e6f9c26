/**
 The bridge to an external DRAM timing library (timing/memsys/external.go). Data is
 read or applied when a request is accepted; the library's acknowledgements, in any
 order, decide when the reply may leave. Bus banks share one in-order lane each.
 */
module DramBridge {
  import opened CacheTypes
  import opened Backends

  datatype Config = Config(accepts: nat, maxInflight: nat, replies: nat, clients: nat, banks: nat)
  {
    predicate Valid() {
      accepts > 0 && maxInflight > 0 && replies > 0 && clients > 0 && banks > 0
    }
  }

  datatype Entry = Entry(client: nat, request: SectorRequest, sequence: nat, serviced: bool, data: Sector, status: Status)

  /** `held` is the reply each client was shown and did not take. */
  datatype State = State(queue: seq<Entry>, held: seq<Option<Entry>>, sequence: nat, writeError: Status, memory: Bytes)

  /** The bus bank of a data request. */
  function BankOf(c: Config, r: SectorRequest): nat
    requires c.Valid()
  {
    (r.address / SECTOR_BYTES) % c.banks
  }

  predicate InBank(c: Config, e: Entry, b: nat)
    requires c.Valid()
  {
    e.request.op != Visibility && BankOf(c, e.request) == b
  }

  // ------------------------------------------------------------------ preview

  /** The banks with a data request among the first `j` entries. */
  function SeenBanks(c: Config, q: seq<Entry>, j: nat): (s: set<nat>)
    requires c.Valid() && j <= |q|
    ensures forall b :: b in s <==> exists i :: 0 <= i < j && InBank(c, q[i], b)
  {
    if j == 0 then {}
    else
      var before := SeenBanks(c, q, j - 1);
      if q[j - 1].request.op == Visibility then before else before + {BankOf(c, q[j - 1].request)}
  }

  /** The scan of the queue for replies: one per client, the oldest of its bank, acknowledged, within the limit. */
  function PreviewFrom(c: Config, q: seq<Entry>, j: nat, shown: seq<Option<Entry>>, count: nat): (r: seq<Option<Entry>>)
    requires c.Valid() && j <= |q| && |shown| == c.clients && forall i | 0 <= i < |q| :: q[i].client < c.clients
    ensures |r| == c.clients
    decreases |q| - j
  {
    if j == |q| then shown
    else
      var e := q[j];
      var blocked := e.request.op != Visibility && BankOf(c, e.request) in SeenBanks(c, q, j);
      if !blocked && e.serviced && shown[e.client].None? && count < c.replies then
        PreviewFrom(c, q, j + 1, shown[e.client := Some(e)], count + 1)
      else PreviewFrom(c, q, j + 1, shown, count)
  }

  function CountHeld(held: seq<Option<Entry>>): nat {
    if held == [] then 0 else CountHeld(held[..|held| - 1]) + (if held[|held| - 1].Some? then 1 else 0)
  }

  function Preview(c: Config, s: State): (r: seq<Option<Entry>>)
    requires Shaped(c, s)
    ensures |r| == c.clients
  {
    PreviewFrom(c, s.queue, 0, s.held, CountHeld(s.held))
  }

  predicate Shaped(c: Config, s: State) {
    && c.Valid() && |s.held| == c.clients
    && forall i | 0 <= i < |s.queue| :: s.queue[i].client < c.clients && RequestOk(s.queue[i].request)
  }

  // ------------------------------------------------------------------- retire

  /** The sequence numbers delivered by the scan of the queue from entry `j` on. */
  function RetireFrom(c: Config, q: seq<Entry>, preview: seq<Option<Entry>>, ready: seq<bool>, j: nat, count: nat): set<nat>
    requires j <= |q| && |preview| == c.clients && |ready| == c.clients && forall i | 0 <= i < |q| :: q[i].client < c.clients
    decreases |q| - j
  {
    if j == |q| then {}
    else
      var e := q[j];
      var shown := preview[e.client].Some? && preview[e.client].value.sequence == e.sequence && count < c.replies;
      if shown && ready[e.client] then {e.sequence} + RetireFrom(c, q, preview, ready, j + 1, count + 1)
      else RetireFrom(c, q, preview, ready, j + 1, count)
  }

  /** The replies shown to clients that did not take them. */
  function HeldFrom(c: Config, q: seq<Entry>, preview: seq<Option<Entry>>, ready: seq<bool>, j: nat, count: nat): (r: seq<Option<Entry>>)
    requires j <= |q| && |preview| == c.clients && |ready| == c.clients && forall i | 0 <= i < |q| :: q[i].client < c.clients
    ensures |r| == c.clients
    ensures forall k | 0 <= k < c.clients :: r[k].Some? ==> r[k] == preview[k]
    decreases |q| - j
  {
    if j == |q| then seq(c.clients, _ => None)
    else
      var e := q[j];
      var shown := preview[e.client].Some? && preview[e.client].value.sequence == e.sequence && count < c.replies;
      if shown && ready[e.client] then HeldFrom(c, q, preview, ready, j + 1, count + 1)
      else
        var rest := HeldFrom(c, q, preview, ready, j + 1, count);
        if shown then rest[e.client := preview[e.client]] else rest
  }

  function Keep(q: seq<Entry>, gone: set<nat>): seq<Entry> {
    if q == [] then [] else (if q[0].sequence in gone then [] else [q[0]]) + Keep(q[1..], gone)
  }

  function Taken(q: seq<Entry>, gone: set<nat>): seq<Entry> {
    if q == [] then [] else (if q[0].sequence in gone then [q[0]] else []) + Taken(q[1..], gone)
  }

  // -------------------------------------------------------------- acknowledge

  /** An acknowledgement names a data request of the queue that has none yet. */
  predicate AckOk(q: seq<Entry>, id: nat) {
    exists i :: 0 <= i < |q| && q[i].sequence == id && !q[i].serviced && q[i].request.op != Visibility
  }

  function Ack(q: seq<Entry>, id: nat): (r: seq<Entry>)
    ensures |r| == |q|
  {
    seq(|q|, i requires 0 <= i < |q| => if q[i].sequence == id then q[i].(serviced := true) else q[i])
  }

  /** The queue after a list of acknowledgements; nothing when one of them is unknown or repeated. */
  function AckAll(q: seq<Entry>, done: seq<nat>): (r: Option<seq<Entry>>)
    ensures r.Some? ==> |r.value| == |q|
    decreases |done|
  {
    if done == [] then Some(q)
    else if !AckOk(q, done[0]) then None
    else AckAll(Ack(q, done[0]), done[1..])
  }

  // ---------------------------------------------------------------- admission

  /** A new entry: data is read, or applied, now. */
  function Sample(client: nat, r: SectorRequest, sequence: nat, m: Bytes, err: Status): Entry
    requires RequestOk(r)
  {
    match r.op
    case Read => Entry(client, r, sequence, false, Load(m, r.address).0, Load(m, r.address).1)
    case Write => Entry(client, r, sequence, false, ZERO_SECTOR, WriteStatus(m, r))
    case Visibility => Entry(client, r, sequence, false, ZERO_SECTOR, err)
  }

  /** Accepts a list of requests, oldest first. */
  function AcceptAll(s: State, list: seq<(nat, SectorRequest)>): State
    requires forall k | 0 <= k < |list| :: RequestOk(list[k].1)
    decreases |list|
  {
    if list == [] then s
    else
      var (client, r) := list[0];
      var status := if r.op == Write then WriteStatus(s.memory, r) else Ok;
      AcceptAll(s.(queue := s.queue + [Sample(client, r, s.sequence + 1, s.memory, s.writeError)],
                   sequence := s.sequence + 1,
                   memory := if r.op == Write then Store(s.memory, r) else s.memory,
                   writeError := if s.writeError.Ok? then status else s.writeError), list[1..])
  }

  /** Tickets whose older requests are all done are done. */
  function Tickets(q: seq<Entry>, olderDone: bool): (r: seq<Entry>)
    ensures |r| == |q|
  {
    if q == [] then []
    else
      var e := if q[0].request.op == Visibility && olderDone then q[0].(serviced := true) else q[0];
      [e] + Tickets(q[1..], olderDone && e.serviced)
  }

  // ----------------------------------------------------------------- one edge

  /** One edge: retire, acknowledge, accept, complete tickets. `accepted` lists the round robin's choice. */
  function Step(c: Config, s: State, ready: seq<bool>, done: seq<nat>, accepted: seq<(nat, SectorRequest)>): Option<State>
    requires Shaped(c, s) && |ready| == c.clients
    requires forall k | 0 <= k < |accepted| :: accepted[k].0 < c.clients && RequestOk(accepted[k].1)
  {
    var preview := Preview(c, s);
    var gone := RetireFrom(c, s.queue, preview, ready, 0, 0);
    var acked := AckAll(Keep(s.queue, gone), done);
    if acked.None? then None
    else
      var t := AcceptAll(s.(queue := acked.value), accepted);
      Some(t.(queue := Tickets(t.queue, true), held := HeldFrom(c, s.queue, preview, ready, 0, 0)))
  }
}
