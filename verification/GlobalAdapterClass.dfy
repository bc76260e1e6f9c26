/** The global adapter as the object it is (timing/memsys/global_adapter.go). */
module GlobalAdapterClass {
  import opened CacheTypes
  import opened Coalescing
  import opened Coalescers
  import opened GlobalAdapters
  import GlobalAdapterLedger

  /** The receipt loop: each store known, sent, and acknowledged for the first time. */
  method CheckReceipts(a: Adapter, rs: seq<StoreReceipt>) returns (ok: bool)
    ensures ok == ((forall k | 0 <= k < |rs| :: ReceiptOk(a, rs[k])) && ReceiptsApart(rs))
  {
    hide ReceiptOk;
    var seen: set<StoreReceipt> := {};
    var k := 0;
    while k < |rs|
      invariant k <= |rs| && (forall j | 0 <= j < k :: ReceiptOk(a, rs[j])) && ReceiptsApart(rs[..k])
      invariant seen == set j | 0 <= j < k :: rs[j]
    {
      if !ReceiptOk(a, rs[k]) {
        return false;
      }
      if rs[k] in seen {
        var j :| 0 <= j < k && rs[j] == rs[k];
        return false;
      }
      seen := seen + {rs[k]};
      k := k + 1;
    }
    assert rs[..k] == rs;
    ok := true;
  }

  method Validate(a: Adapter, i: AdapterInput) returns (ok: bool)
    requires Fits(a, i)
    ensures ok == AdapterFollows(a, i)
  {
    hide ReceiptOk, ReceiptsApart, BatchOk, HandshakeOk;
    if a.held.Some? && i.batch != a.held {
      return false;
    }
    if i.batch.Some? && !(a.sequence < LAST_SEQUENCE && BatchOk(i.batch.value.batch)) {
      return false;
    }
    if (i.accepted[0] && !Offers(a, i, 0)) || (i.accepted[1] && !Offers(a, i, 1)) {
      return false;
    }
    if !HandshakeOk(a, i, 0) || !HandshakeOk(a, i, 1) {
      return false;
    }
    ok := CheckReceipts(a, i.stores);
  }

  function WithDone(rec: WordRecord, ports: Channels): WordRecord {
    rec.(done := rec.done + ports)
  }

  lemma DoneMore(rec: WordRecord, a: Channels, b: Channels)
    ensures WithDone(WithDone(rec, a), b) == WithDone(rec, a + b) && WithDone(rec, {}) == rec
  {
    assert rec.done + a + b == rec.done + (a + b);
  }

  /** The reply loop: each port whose reply is handed on is done. */
  method MarkReads(records: map<nat, WordRecord>, i: AdapterInput) returns (r: map<nat, WordRecord>)
    requires |i.replies| == 2
    requires forall p | 0 <= p < 2 && i.replies[p].Some? :: i.replies[p].value.transaction in records
    ensures r.Keys == records.Keys && forall id | id in records :: r[id] == WithDone(records[id], ReadsDone(i, id))
  {
    hide WithDone, ReadsUpTo;
    r := records;
    forall id | id in records ensures r[id] == WithDone(records[id], ReadsUpTo(i, 0, id)) {
      ReadsStep(i, 0, id);
      DoneMore(records[id], {}, {});
    }
    var p := 0;
    while p < 2
      invariant p <= 2 && r.Keys == records.Keys
      invariant forall id | id in records :: r[id] == WithDone(records[id], ReadsUpTo(i, p, id))
    {
      forall id | id in records
        ensures ReadsUpTo(i, p + 1, id) ==
                if Handed(i, p) && i.replies[p].value.transaction == id then ReadsUpTo(i, p, id) + {p} else ReadsUpTo(i, p, id)
      {
        ReadsStep(i, p, id);
      }
      if i.replies[p].Some? && i.replies[p].value.delivered {
        var id := i.replies[p].value.transaction;
        DoneMore(records[id], ReadsUpTo(i, p, id), {p});
        r := r[id := WithDone(r[id], {p})];
      }
      p := p + 1;
    }
    forall id | id in records ensures ReadsUpTo(i, 2, id) == ReadsDone(i, id) { ReadsStep(i, 1, id); }
  }

  /** The receipt loop: each acknowledged port is done. */
  method MarkStores(records: map<nat, WordRecord>, rs: seq<StoreReceipt>) returns (r: map<nat, WordRecord>)
    requires forall k | 0 <= k < |rs| :: rs[k].transaction in records
    ensures r.Keys == records.Keys && forall id | id in records :: r[id] == WithDone(records[id], StoresDone(rs, id))
  {
    hide WithDone, StoresDone;
    r := records;
    forall id | id in records ensures r[id] == WithDone(records[id], StoresDone(rs[..0], id)) {
      NoStores(rs, id);
      DoneMore(records[id], {}, {});
    }
    var k := 0;
    while k < |rs|
      invariant k <= |rs| && r.Keys == records.Keys
      invariant forall id | id in records :: r[id] == WithDone(records[id], StoresDone(rs[..k], id))
    {
      forall id | id in records
        ensures StoresDone(rs[..k + 1], id) == if id == rs[k].transaction then StoresDone(rs[..k], id) + {rs[k].port} else StoresDone(rs[..k], id)
      {
        StoresMore(rs, k, id);
      }
      DoneMore(records[rs[k].transaction], StoresDone(rs[..k], rs[k].transaction), {rs[k].port});
      r := r[rs[k].transaction := WithDone(r[rs[k].transaction], {rs[k].port})];
      k := k + 1;
    }
    assert rs[..k] == rs;
  }

  lemma NoStores(rs: seq<StoreReceipt>, id: nat)
    ensures StoresDone(rs[..0], id) == {}
  {
  }

  method MarkDone(a: Adapter, i: AdapterInput) returns (records: map<nat, WordRecord>)
    requires Fits(a, i) && AdapterFollows(a, i)
    ensures records == map id | id in a.records :: Answered(a, i, id)
  {
    hide BatchOk, Offers, WithDone, StoresDone, ReadsDone, Packed, ReceiptsApart;
    assert forall k | 0 <= k < |i.stores| :: ReceiptOk(a, i.stores[k]);
    var half := MarkReads(a.records, i);
    records := MarkStores(half, i.stores);
    forall id | id in a.records ensures records[id] == Answered(a, i, id) {
      MarksAnswer(a, i, id);
    }
  }

  lemma MarksAnswer(a: Adapter, i: AdapterInput, id: nat)
    requires Fits(a, i) && id in a.records
    ensures WithDone(WithDone(a.records[id], ReadsDone(i, id)), StoresDone(i.stores, id)) == Answered(a, i, id)
  {
  }

  function ReadsUpTo(i: AdapterInput, p: nat, id: nat): Channels
    requires |i.replies| == 2 && p <= 2
  {
    (if p > 0 && i.replies[0].Some? && i.replies[0].value.delivered && i.replies[0].value.transaction == id then {0} else {}) +
    (if p > 1 && i.replies[1].Some? && i.replies[1].value.delivered && i.replies[1].value.transaction == id then {1} else {})
  }

  predicate Handed(i: AdapterInput, p: nat)
    requires |i.replies| == 2 && p < 2
  {
    i.replies[p].Some? && i.replies[p].value.delivered
  }

  lemma ReadsStep(i: AdapterInput, p: nat, id: nat)
    requires |i.replies| == 2 && p < 2
    ensures ReadsUpTo(i, 0, id) == {} && ReadsUpTo(i, 2, id) == ReadsDone(i, id)
    ensures ReadsUpTo(i, p + 1, id) ==
            if Handed(i, p) && i.replies[p].value.transaction == id then ReadsUpTo(i, p, id) + {p} else ReadsUpTo(i, p, id)
  {
  }

  lemma StoresMore(rs: seq<StoreReceipt>, k: nat, id: nat)
    requires k < |rs|
    ensures StoresDone(rs[..k + 1], id) == if id == rs[k].transaction then StoresDone(rs[..k], id) + {rs[k].port} else StoresDone(rs[..k], id)
  {
    var a, b := rs[..k], rs[..k + 1];
    assert b[k] == rs[k] && forall j | 0 <= j < k :: a[j] == b[j];
    forall q | q in StoresDone(a, id) ensures q in StoresDone(b, id) {
      var j :| 0 <= j < |a| && a[j].transaction == id && a[j].port == q;
      assert b[j].port == q;
    }
    if id == rs[k].transaction {
      assert b[k].port in StoresDone(b, id);
    }
  }

  /** The sweep that drops finished records. */
  method Sweep(records: map<nat, WordRecord>) returns (left: map<nat, WordRecord>)
    ensures left == map id | id in records && !Over(records[id]) :: records[id]
  {
    hide Over;
    left := records;
    var todo := records.Keys;
    while todo != {}
      invariant todo <= records.Keys
      invariant left == map id | id in records && !(id !in todo && Over(records[id])) :: records[id]
      decreases |todo|
    {
      var id :| id in todo;
      if Over(records[id]) {
        left := left - {id};
      }
      todo := todo - {id};
    }
  }

  /** The ports accepted now. */
  method PortsAccepted(i: AdapterInput) returns (ports: Channels)
    requires |i.accepted| == 2
    ensures ports == NewlySent(i)
  {
    ports := {};
    var p := 0;
    while p < 2
      invariant p <= 2 && ports == (if p > 0 && i.accepted[0] then {0} else {}) + (if p > 1 && i.accepted[1] then {1} else {})
    {
      if i.accepted[p] {
        ports := ports + {p};
      }
      p := p + 1;
    }
  }

  /** The edge: answers, words accepted, the batch released, finished records dropped. */
  method Edge(a: Adapter, i: AdapterInput) returns (n: Adapter)
    requires Fits(a, i) && AdapterFollows(a, i)
    ensures n == AdapterNext(a, i)
  {
    hide AdapterFollows, Answered, Over, ChannelsOf, NewlySent;
    var records := MarkDone(a, i);
    var ports := PortsAccepted(i);
    var leaves, delivered, sequence := false, a.delivered, a.sequence;
    if i.batch.Some? {
      delivered := delivered + ports;
      leaves := ChannelsOf(i.batch.value.batch) <= delivered;
      if ports != {} || sequence in records {
        var rec := if sequence in records then records[sequence] else WordRecord(i.batch.value, {}, {}, false);
        records := records[sequence := rec.(sent := rec.sent + ports, released := rec.released || leaves)];
      }
    }
    assert records == RecordsAfter(a, i) && leaves == BatchLeaves(a, i);
    records := Sweep(records);
    if leaves {
      sequence, delivered := sequence + 1, {};
    }
    n := Adapter(records, sequence, delivered, if i.batch.Some? && !leaves then i.batch else None,
                 [if i.replies[0].Some? && !i.replies[0].value.delivered then i.replies[0] else None,
                  if i.replies[1].Some? && !i.replies[1].value.delivered then i.replies[1] else None]);
  }

  class GlobalAdapter {
    var records: map<nat, WordRecord>
    var sequence: nat
    var delivered: Channels
    var held: Option<Offered>
    var heldReads: seq<Option<WordReply>>
    ghost var wire: GlobalAdapterLedger.Wire

    function State(): Adapter
      reads this
    {
      Adapter(records, sequence, delivered, held, heldReads)
    }

    ghost predicate Valid()
      reads this
    {
      GlobalAdapterLedger.Kept(State(), wire)
    }

    constructor ()
      ensures Valid() && State() == IDLE && wire == GlobalAdapterLedger.Wire(map[], {})
    {
      records, sequence, delivered, held, heldReads := map[], 1, {}, None, [None, None];
      wire := GlobalAdapterLedger.Wire(map[], {});
      new;
      GlobalAdapterLedger.Starts();
    }

    /**
     The batch reply packed from the two ports: only the selected transaction's words, under its
     batch's name. A foreign or repeated reply on either port is refused.
     */
    method Preview(i: AdapterInput) returns (ok: bool, r: Option<BatchReply>)
      requires Fits(State(), i)
      ensures ok <==> forall p | 0 <= p < 2 && i.replies[p].Some? :: ReadOk(State(), p, i.replies[p].value)
      ensures r == if ok then PackedReply(State(), i) else None
      ensures r.Some? <==> ok && (i.replies[0].Some? || i.replies[1].Some?)
      ensures r.Some? ==> |r.value.words| == 2 && |r.value.failed| == 2 && Selected(i).value in records && r.value.id == records[Selected(i).value].batch.id
      ensures r.Some? ==> forall p | 0 <= p < 2 :: p in r.value.mask <==> Packed(i, p)
      ensures r.Some? ==> forall p | 0 <= p < 2 && Packed(i, p) ::
                r.value.words[p] == i.replies[p].value.data && r.value.failed[p] == i.replies[p].value.failed
    {
      hide ReadOk, PackedReply;
      r := None;
      var selected: nat := 0;
      var p := 0;
      while p < 2
        invariant p <= 2 && (forall q | 0 <= q < p && i.replies[q].Some? :: ReadOk(State(), q, i.replies[q].value))
        invariant r.Some? <==> exists q | 0 <= q < p :: i.replies[q].Some?
        invariant r.Some? ==> Selected(i) == Some(selected) && selected in records && r.value.id == records[selected].batch.id
        invariant r.Some? ==> |r.value.words| == 2 && |r.value.failed| == 2 && forall q | q in r.value.mask :: q < p
        invariant r.Some? ==> forall q | 0 <= q < 2 && !(q < p && Packed(i, q)) :: r.value.words[q] == ZERO_WORD && !r.value.failed[q]
        invariant r.Some? ==> forall q | 0 <= q < p :: q in r.value.mask <==> Packed(i, q)
        invariant r.Some? ==> forall q | 0 <= q < p && Packed(i, q) ::
          r.value.words[q] == i.replies[q].value.data && r.value.failed[q] == i.replies[q].value.failed
      {
        if i.replies[p].Some? {
          var reply := i.replies[p].value;
          if !ReadOk(State(), p, reply) {
            return false, None;
          }
          ReadKnown(State(), p, reply);
          if r.None? {
            selected := reply.transaction;
            r := Some(BatchReply(records[selected].batch.id, {}, [ZERO_WORD, ZERO_WORD], [false, false]));
          }
          if reply.transaction == selected {
            var b := r.value;
            r := Some(BatchReply(b.id, b.mask + {p}, b.words[p := reply.data], b.failed[p := reply.failed]));
          }
        }
        p := p + 1;
      }
      ok := true;
      if r.Some? {
        PackedIs(State(), i, r.value);
      } else {
        NonePacked(State(), i);
      }
    }

    /** One clock edge: a refused one changes nothing. */
    method Step(i: AdapterInput) returns (ok: bool)
      requires Valid() && Fits(State(), i)
      modifies this
      ensures Valid() && ok == AdapterFollows(old(State()), i)
      ensures !ok ==> State() == old(State()) && wire == old(wire)
      ensures ok ==> State() == AdapterNext(old(State()), i) && wire == GlobalAdapterLedger.Wired(old(State()), old(wire), i)
      ensures ok ==> GlobalAdapterLedger.AnswersOf(i) !! old(wire).answers
    {
      hide AdapterFollows, AdapterNext, GlobalAdapterLedger.Wired, GlobalAdapterLedger.Kept, GlobalAdapterLedger.AnswersOf;
      var a := State();
      ok := Validate(a, i);
      if !ok {
        return;
      }
      GlobalAdapterLedger.StepKeeps(a, wire, i);
      wire := GlobalAdapterLedger.Wired(a, wire, i);
      var n := Edge(a, i);
      records, sequence, delivered, held, heldReads := n.records, n.sequence, n.delivered, n.held, n.heldReads;
    }
  }

  lemma PackedIs(a: Adapter, i: AdapterInput, b: BatchReply)
    requires |i.replies| == 2 && Selected(i).Some? && Selected(i).value in a.records && b.id == a.records[Selected(i).value].batch.id
    requires |b.words| == 2 && |b.failed| == 2 && forall p | p in b.mask :: p < 2
    requires forall p | 0 <= p < 2 :: p in b.mask <==> Packed(i, p)
    requires forall p | 0 <= p < 2 && Packed(i, p) :: b.words[p] == i.replies[p].value.data && b.failed[p] == i.replies[p].value.failed
    requires forall p | 0 <= p < 2 && !Packed(i, p) :: b.words[p] == ZERO_WORD && !b.failed[p]
    ensures PackedReply(a, i) == Some(b)
  {
    assert b.mask == PackedPorts(i);
    assert b.words == [PackedWord(i, 0), PackedWord(i, 1)] && b.failed == [PackedFailed(i, 0), PackedFailed(i, 1)];
  }

  lemma NonePacked(a: Adapter, i: AdapterInput)
    requires |i.replies| == 2 && i.replies[0].None? && i.replies[1].None?
    ensures PackedReply(a, i).None?
  {
  }

  lemma ReadKnown(a: Adapter, p: nat, r: WordReply)
    requires ReadOk(a, p, r)
    ensures r.transaction in a.records
  {
  }
}
