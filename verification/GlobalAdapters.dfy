/**
 The global adapter (timing/memsys/global_adapter.go): a batch leaves word by word, each
 port at its own pace, under one wire transaction; replies and receipts are matched to it.
 */
module GlobalAdapters {
  import opened CacheTypes
  import opened Coalescing
  import opened Coalescers

  /** A batch in flight: the ports it left by and the ports that answered. */
  datatype WordRecord = WordRecord(batch: Offered, sent: Channels, done: Channels, released: bool)

  /** A word reply on one port: the wire transaction it names and its payload. */
  datatype WordReply = WordReply(transaction: nat, data: seq<bv8>, failed: bool, delivered: bool)

  datatype StoreReceipt = StoreReceipt(transaction: nat, port: nat)

  datatype Adapter = Adapter(records: map<nat, WordRecord>, sequence: nat, delivered: Channels, held: Option<Offered>,
                             heldReads: seq<Option<WordReply>>)

  datatype AdapterInput = AdapterInput(batch: Option<Offered>, accepted: seq<bool>, replies: seq<Option<WordReply>>,
                                       stores: seq<StoreReceipt>, responseReady: bool)

  const LAST_SEQUENCE: nat := 0xffff_ffff_ffff_ffff

  const IDLE: Adapter := Adapter(map[], 1, {}, None, [None, None])

  predicate Fits(a: Adapter, i: AdapterInput) {
    |a.heldReads| == 2 && |i.accepted| == 2 && |i.replies| == 2 && (i.batch.Some? ==> |i.batch.value.batch.words| == 2)
  }

  /** The lanes one port of a batch carries. */
  function PortLanes(b: Batch, p: nat): Lanes {
    set l | l in b.lanes && l / 2 == p
  }

  predicate BatchOk(b: Batch) {
    && ChannelsOf(b) != {} && b.lanes != {} && (forall l | l in b.lanes :: l < LANES)
    && forall p | 0 <= p < |b.words| ::
         && b.words[p].Some? == (PortLanes(b, p) != {})
         && (b.words[p].Some? ==> b.words[p].value.address % WORD_BYTES == 0)
  }

  /** The port still has its word of the offered batch to send. */
  predicate Offers(a: Adapter, i: AdapterInput, p: nat) {
    i.batch.Some? && p in ChannelsOf(i.batch.value.batch) && p !in a.delivered
  }

  // ------------------------------------------------------------------------------ replies

  predicate ReadOk(a: Adapter, p: nat, r: WordReply) {
    && r.transaction in a.records
    && var rec := a.records[r.transaction];
       !rec.batch.write && p in rec.sent && p !in rec.done
  }

  /** The transaction the reply packer selects: port 0's, else port 1's. */
  function Selected(i: AdapterInput): Option<nat>
    requires |i.replies| == 2
  {
    if i.replies[0].Some? then Some(i.replies[0].value.transaction)
    else if i.replies[1].Some? then Some(i.replies[1].value.transaction)
    else None
  }

  /** The port's reply is packed into this edge's batch reply. */
  predicate Packed(i: AdapterInput, p: nat)
    requires |i.replies| == 2 && p < 2
  {
    i.replies[p].Some? && Selected(i) == Some(i.replies[p].value.transaction)
  }

  /** The batch reply packed from the ports: only the selected transaction's words, under its batch's name. */
  function PackedReply(a: Adapter, i: AdapterInput): Option<BatchReply>
    requires |i.replies| == 2
  {
    if Selected(i).None? || Selected(i).value !in a.records then None
    else
      Some(BatchReply(a.records[Selected(i).value].batch.id, PackedPorts(i),
                      [PackedWord(i, 0), PackedWord(i, 1)], [PackedFailed(i, 0), PackedFailed(i, 1)]))
  }

  function PackedPorts(i: AdapterInput): Channels
    requires |i.replies| == 2
  {
    set p | 0 <= p < 2 && Packed(i, p)
  }

  function PackedWord(i: AdapterInput, p: nat): seq<bv8>
    requires |i.replies| == 2 && p < 2
  {
    if Packed(i, p) then i.replies[p].value.data else ZERO_WORD
  }

  predicate PackedFailed(i: AdapterInput, p: nat)
    requires |i.replies| == 2 && p < 2
  {
    Packed(i, p) && i.replies[p].value.failed
  }

  predicate HandshakeOk(a: Adapter, i: AdapterInput, p: nat)
    requires Fits(a, i) && p < 2
  {
    && (a.heldReads[p].Some? ==> i.replies[p].Some? && a.heldReads[p].value == i.replies[p].value.(delivered := false))
    && (i.replies[p].Some? ==> ReadOk(a, p, i.replies[p].value) && i.replies[p].value.delivered == (Packed(i, p) && i.responseReady))
  }

  predicate ReceiptOk(a: Adapter, r: StoreReceipt) {
    && r.port < 2 && r.transaction in a.records
    && var rec := a.records[r.transaction];
       rec.batch.write && r.port in rec.sent && r.port !in rec.done
  }

  /** No store is acknowledged twice in one edge. */
  predicate ReceiptsApart(rs: seq<StoreReceipt>) {
    forall j, k | 0 <= j < k < |rs| :: rs[j] != rs[k]
  }

  predicate AdapterFollows(a: Adapter, i: AdapterInput)
    requires Fits(a, i)
  {
    && (a.held.Some? ==> i.batch == a.held)
    && (i.batch.Some? ==> a.sequence < LAST_SEQUENCE && BatchOk(i.batch.value.batch))
    && (forall p | 0 <= p < 2 && i.accepted[p] :: Offers(a, i, p))
    && HandshakeOk(a, i, 0) && HandshakeOk(a, i, 1)
    && (forall k | 0 <= k < |i.stores| :: ReceiptOk(a, i.stores[k])) && ReceiptsApart(i.stores)
  }

  // ----------------------------------------------------------------------------- the edge

  /** The ports of a transaction answered in this edge. */
  function ReadsDone(i: AdapterInput, id: nat): Channels
    requires |i.replies| == 2
  {
    (if i.replies[0].Some? && i.replies[0].value.delivered && i.replies[0].value.transaction == id then {0} else {}) +
    (if i.replies[1].Some? && i.replies[1].value.delivered && i.replies[1].value.transaction == id then {1} else {})
  }

  function StoresDone(rs: seq<StoreReceipt>, id: nat): Channels {
    set k | 0 <= k < |rs| && rs[k].transaction == id :: rs[k].port
  }

  function NewlySent(i: AdapterInput): Channels
    requires |i.accepted| == 2
  {
    (if i.accepted[0] then {0} else {}) + (if i.accepted[1] then {1} else {})
  }

  /** The batch has left by every port it uses. */
  predicate BatchLeaves(a: Adapter, i: AdapterInput)
    requires Fits(a, i)
  {
    i.batch.Some? && ChannelsOf(i.batch.value.batch) <= a.delivered + NewlySent(i)
  }

  function Answered(a: Adapter, i: AdapterInput, id: nat): WordRecord
    requires Fits(a, i) && id in a.records
  {
    a.records[id].(done := a.records[id].done + ReadsDone(i, id) + StoresDone(i.stores, id))
  }

  /** The records before finished ones are dropped. */
  function RecordsAfter(a: Adapter, i: AdapterInput): map<nat, WordRecord>
    requires Fits(a, i)
  {
    var answered := map id | id in a.records :: Answered(a, i, id);
    if i.batch.None? || (NewlySent(i) == {} && a.sequence !in answered) then answered
    else
      var rec := if a.sequence in answered then answered[a.sequence] else WordRecord(i.batch.value, {}, {}, false);
      answered[a.sequence := rec.(sent := rec.sent + NewlySent(i), released := rec.released || BatchLeaves(a, i))]
  }

  predicate Over(rec: WordRecord) {
    rec.released && rec.done == ChannelsOf(rec.batch.batch)
  }

  function AdapterNext(a: Adapter, i: AdapterInput): Adapter
    requires Fits(a, i)
  {
    var records := RecordsAfter(a, i);
    Adapter(map id | id in records && !Over(records[id]) :: records[id],
            if BatchLeaves(a, i) then a.sequence + 1 else a.sequence,
            if BatchLeaves(a, i) then {} else if i.batch.Some? then a.delivered + NewlySent(i) else a.delivered,
            if i.batch.Some? && !BatchLeaves(a, i) then i.batch else None,
            [if i.replies[0].Some? && !i.replies[0].value.delivered then i.replies[0] else None,
             if i.replies[1].Some? && !i.replies[1].value.delivered then i.replies[1] else None])
  }
}
