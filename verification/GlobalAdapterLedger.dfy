/** What every run of the global adapter keeps: one answer per word, credited to the batch that sent it. */
module GlobalAdapterLedger {
  import opened CacheTypes
  import opened Coalescing
  import opened Coalescers
  import opened GlobalAdapters

  /** One word answered: its wire transaction and port. */
  datatype WordAnswer = WordAnswer(transaction: nat, port: nat)

  /** The past: the batch behind each wire transaction, and the words answered. */
  datatype Wire = Wire(batches: map<nat, Offered>, answers: set<WordAnswer>)

  function PortsAnswered(answers: set<WordAnswer>, id: nat): Channels {
    set x | x in answers && x.transaction == id :: x.port
  }

  predicate RecordKept(a: Adapter, w: Wire, id: nat)
    requires id in a.records
  {
    var rec := a.records[id];
    && 1 <= id <= a.sequence && id in w.batches && w.batches[id] == rec.batch
    && rec.done <= rec.sent <= ChannelsOf(rec.batch.batch) && rec.sent != {}
    && rec.done == PortsAnswered(w.answers, id)
    && (id < a.sequence ==> rec.released && rec.sent == ChannelsOf(rec.batch.batch))
    && (id == a.sequence ==> !rec.released && a.held == Some(rec.batch) && rec.sent == a.delivered)
  }

  predicate HeldKept(a: Adapter) {
    if a.held.None? then a.delivered == {} && a.sequence !in a.records
    else
      && BatchOk(a.held.value.batch) && a.delivered <= ChannelsOf(a.held.value.batch) && a.delivered != ChannelsOf(a.held.value.batch)
      && (a.sequence in a.records <==> a.delivered != {})
  }

  /** A wire transaction without a record has had every word answered. */
  predicate PastKept(a: Adapter, w: Wire, id: nat)
    requires id in w.batches
  {
    && 1 <= id <= a.sequence && (id == a.sequence ==> id in a.records)
    && (id !in a.records ==> PortsAnswered(w.answers, id) == ChannelsOf(w.batches[id].batch))
  }

  predicate Kept(a: Adapter, w: Wire) {
    && |a.heldReads| == 2 && a.sequence >= 1 && HeldKept(a)
    && (forall id | id in a.records :: RecordKept(a, w, id))
    && (forall id | id in w.batches :: PastKept(a, w, id))
    && (forall x | x in w.answers :: x.transaction in w.batches)
  }

  function AnswersOf(i: AdapterInput): set<WordAnswer>
    requires |i.replies| == 2
  {
    (set p | 0 <= p < 2 && i.replies[p].Some? && i.replies[p].value.delivered :: WordAnswer(i.replies[p].value.transaction, p)) +
    (set k | 0 <= k < |i.stores| :: WordAnswer(i.stores[k].transaction, i.stores[k].port))
  }

  function Wired(a: Adapter, w: Wire, i: AdapterInput): Wire
    requires Fits(a, i)
  {
    Wire(if NewlySent(i) != {} && i.batch.Some? then w.batches[a.sequence := i.batch.value] else w.batches, w.answers + AnswersOf(i))
  }

  lemma Starts()
    ensures Kept(IDLE, Wire(map[], {}))
  {
  }

  // ------------------------------------------------------------------------------ answers

  lemma AnswersPorts(i: AdapterInput, id: nat)
    requires |i.replies| == 2
    ensures PortsAnswered(AnswersOf(i), id) == ReadsDone(i, id) + StoresDone(i.stores, id)
  {
    var left, right := PortsAnswered(AnswersOf(i), id), ReadsDone(i, id) + StoresDone(i.stores, id);
    forall p | p in right ensures p in left {
      if p in ReadsDone(i, id) {
        assert WordAnswer(id, p) in AnswersOf(i);
      } else {
        var k :| 0 <= k < |i.stores| && i.stores[k].transaction == id && i.stores[k].port == p;
        assert WordAnswer(id, p) in AnswersOf(i);
      }
    }
  }

  lemma PortsMore(a: set<WordAnswer>, b: set<WordAnswer>, id: nat)
    ensures PortsAnswered(a + b, id) == PortsAnswered(a, id) + PortsAnswered(b, id)
  {
    forall p | p in PortsAnswered(a, id) + PortsAnswered(b, id) ensures p in PortsAnswered(a + b, id) {
      assert WordAnswer(id, p) in a + b;
    }
    forall p | p in PortsAnswered(a + b, id) ensures p in PortsAnswered(a, id) + PortsAnswered(b, id) {
      assert WordAnswer(id, p) in a + b;
    }
  }

  /** An answer of this edge is for a live record, on a port sent and not answered before. */
  lemma AnswerLive(a: Adapter, i: AdapterInput, x: WordAnswer)
    requires Fits(a, i) && AdapterFollows(a, i) && x in AnswersOf(i)
    ensures x.transaction in a.records && x.port in a.records[x.transaction].sent && x.port !in a.records[x.transaction].done
  {
    hide BatchOk, ReceiptsApart, Offers;
    if exists k :: 0 <= k < |i.stores| && x == WordAnswer(i.stores[k].transaction, i.stores[k].port) {
      var k :| 0 <= k < |i.stores| && x == WordAnswer(i.stores[k].transaction, i.stores[k].port);
      assert ReceiptOk(a, i.stores[k]);
    }
  }

  /** No word is answered twice: this edge's answers are new. */
  lemma AnswersNew(a: Adapter, w: Wire, i: AdapterInput)
    requires Kept(a, w) && Fits(a, i) && AdapterFollows(a, i)
    ensures AnswersOf(i) !! w.answers
  {
    hide BatchOk, AdapterFollows, AnswersOf, HeldKept;
    forall x | x in AnswersOf(i) ensures x !in w.answers {
      AnswerLive(a, i, x);
      assert RecordKept(a, w, x.transaction);
      assert x in w.answers ==> x.port in PortsAnswered(w.answers, x.transaction);
    }
  }

  lemma AnsweredKept(a: Adapter, w: Wire, i: AdapterInput, id: nat)
    requires Kept(a, w) && Fits(a, i) && AdapterFollows(a, i) && id in a.records
    ensures var rec := Answered(a, i, id);
            && rec.done <= rec.sent && rec.done == PortsAnswered(w.answers + AnswersOf(i), id)
            && rec.sent == a.records[id].sent && rec.batch == a.records[id].batch && rec.released == a.records[id].released
  {
    hide BatchOk, AdapterFollows, AnswersOf, HeldKept;
    assert RecordKept(a, w, id);
    AnswersPorts(i, id);
    PortsMore(w.answers, AnswersOf(i), id);
    forall p | p in PortsAnswered(AnswersOf(i), id) ensures p in a.records[id].sent {
      AnswerLive(a, i, WordAnswer(id, p));
    }
  }

  // ------------------------------------------------------------------------------ the edge

  lemma SentNow(a: Adapter, w: Wire, i: AdapterInput)
    requires Kept(a, w) && Fits(a, i) && AdapterFollows(a, i)
    ensures i.batch.None? ==> NewlySent(i) == {} && a.held.None?
    ensures i.batch.Some? ==>
              && BatchOk(i.batch.value.batch) && NewlySent(i) <= ChannelsOf(i.batch.value.batch) && NewlySent(i) !! a.delivered
              && a.delivered <= ChannelsOf(i.batch.value.batch)
              && (a.sequence in a.records ==> a.records[a.sequence].batch == i.batch.value && a.records[a.sequence].sent == a.delivered)
              && (a.sequence !in a.records ==> a.delivered == {})
    ensures a.sequence !in a.records ==> a.sequence !in w.batches
  {
    hide BatchOk, ReceiptsApart, ReceiptOk, HandshakeOk;
    assert a.sequence in a.records ==> RecordKept(a, w, a.sequence);
    assert a.sequence in w.batches ==> PastKept(a, w, a.sequence);
    assert i.accepted[0] ==> Offers(a, i, 0);
    assert i.accepted[1] ==> Offers(a, i, 1);
  }

  /** The offered batch's record after the edge. */
  lemma OfferedRecord(a: Adapter, w: Wire, i: AdapterInput)
    requires Kept(a, w) && Fits(a, i) && AdapterFollows(a, i) && a.sequence in RecordsAfter(a, i)
    ensures i.batch.Some?
    ensures var rec := RecordsAfter(a, i)[a.sequence];
            && rec.batch == i.batch.value && rec.sent == a.delivered + NewlySent(i) && rec.sent != {}
            && rec.done <= rec.sent <= ChannelsOf(rec.batch.batch) && rec.released == BatchLeaves(a, i)
            && rec.done == PortsAnswered(w.answers + AnswersOf(i), a.sequence)
            && (rec.released <==> rec.sent == ChannelsOf(rec.batch.batch))
  {
    hide BatchOk, AdapterFollows, AnswersOf, PortsAnswered, ChannelsOf;
    SentNow(a, w, i);
    if a.sequence in a.records {
      assert RecordKept(a, w, a.sequence);
      AnsweredKept(a, w, i, a.sequence);
    } else {
      NothingAnswered(a, w, i);
    }
  }

  lemma NothingAnswered(a: Adapter, w: Wire, i: AdapterInput)
    requires Kept(a, w) && Fits(a, i) && AdapterFollows(a, i) && a.sequence !in a.records
    ensures PortsAnswered(w.answers + AnswersOf(i), a.sequence) == {}
  {
    hide BatchOk, AdapterFollows, AnswersOf;
    assert a.sequence !in w.batches by { SentNow(a, w, i); }
    forall x | x in w.answers + AnswersOf(i) ensures x.transaction != a.sequence {
      if x in AnswersOf(i) { AnswerLive(a, i, x); }
    }
  }

  /** Every older record after the edge. */
  lemma OlderRecord(a: Adapter, w: Wire, i: AdapterInput, id: nat)
    requires Kept(a, w) && Fits(a, i) && AdapterFollows(a, i) && id in RecordsAfter(a, i) && id != a.sequence
    ensures id in a.records && 1 <= id < a.sequence && id in w.batches
    ensures var rec := RecordsAfter(a, i)[id];
            && rec.batch == w.batches[id] && rec.released && rec.sent == ChannelsOf(rec.batch.batch) && rec.sent != {}
            && rec.done <= rec.sent && rec.done == PortsAnswered(w.answers + AnswersOf(i), id)
  {
    hide BatchOk, AdapterFollows, AnswersOf, PortsAnswered, ChannelsOf, HeldKept;
    assert RecordKept(a, w, id);
    AnsweredKept(a, w, i, id);
  }

  lemma NextRecord(a: Adapter, w: Wire, i: AdapterInput, id: nat)
    requires Kept(a, w) && Fits(a, i) && AdapterFollows(a, i) && id in AdapterNext(a, i).records
    ensures RecordKept(AdapterNext(a, i), Wired(a, w, i), id)
  {
    hide BatchOk, AdapterFollows, AnswersOf, PortsAnswered, ChannelsOf, HeldKept, RecordsAfter, Answered;
    SentNow(a, w, i);
    if id == a.sequence {
      OfferedRecord(a, w, i);
      if id !in w.batches {
        assert NewlySent(i) != {} by { SequenceKnown(a, w, i); }
      } else {
        SequenceKnown(a, w, i);
      }
    } else {
      OlderRecord(a, w, i, id);
    }
  }

  lemma SequenceKnown(a: Adapter, w: Wire, i: AdapterInput)
    requires Kept(a, w) && Fits(a, i) && AdapterFollows(a, i)
    ensures a.sequence in w.batches <==> a.sequence in a.records
    ensures a.sequence in w.batches ==> i.batch.Some? && w.batches[a.sequence] == i.batch.value
    ensures a.sequence in RecordsAfter(a, i) <==> a.sequence in Wired(a, w, i).batches
  {
    hide BatchOk, AdapterFollows, AnswersOf, PortsAnswered, ChannelsOf;
    SentNow(a, w, i);
    assert a.sequence in a.records ==> RecordKept(a, w, a.sequence);
    assert a.sequence in w.batches ==> PastKept(a, w, a.sequence);
  }

  lemma NextHeld(a: Adapter, w: Wire, i: AdapterInput)
    requires Kept(a, w) && Fits(a, i) && AdapterFollows(a, i)
    ensures HeldKept(AdapterNext(a, i))
  {
    hide BatchOk, AdapterFollows, AnswersOf, PortsAnswered, ChannelsOf, Answered, RecordsAfter;
    SentNow(a, w, i);
    var n := AdapterNext(a, i);
    SequenceRecord(a, i);
    if a.sequence in RecordsAfter(a, i) {
      OfferedRecord(a, w, i);
    }
    if n.sequence in RecordsAfter(a, i) && n.sequence != a.sequence {
      OlderRecord(a, w, i, n.sequence);
    }
  }

  lemma SequenceRecord(a: Adapter, i: AdapterInput)
    requires Fits(a, i)
    ensures a.sequence in RecordsAfter(a, i) <==> a.sequence in a.records || (i.batch.Some? && NewlySent(i) != {})
  {
  }

  lemma NextPast(a: Adapter, w: Wire, i: AdapterInput, id: nat)
    requires Kept(a, w) && Fits(a, i) && AdapterFollows(a, i) && id in Wired(a, w, i).batches
    ensures PastKept(AdapterNext(a, i), Wired(a, w, i), id)
  {
    hide BatchOk, AdapterFollows, AnswersOf, PortsAnswered, ChannelsOf, HeldKept, RecordsAfter;
    SentNow(a, w, i);
    SequenceKnown(a, w, i);
    if id == a.sequence {
      OfferedRecord(a, w, i);
      NextSequence(a, w, i);
    } else {
      assert PastKept(a, w, id);
      if id in a.records {
        RecordStays(a, i, id);
        OlderRecord(a, w, i, id);
      } else {
        QuietPast(a, w, i, id);
      }
    }
  }

  lemma RecordStays(a: Adapter, i: AdapterInput, id: nat)
    requires Fits(a, i) && id in a.records
    ensures id in RecordsAfter(a, i)
  {
  }

  /** While the batch is still leaving, its record is not over. */
  lemma NextSequence(a: Adapter, w: Wire, i: AdapterInput)
    requires Kept(a, w) && Fits(a, i) && AdapterFollows(a, i) && a.sequence in RecordsAfter(a, i)
    ensures !BatchLeaves(a, i) ==> a.sequence in AdapterNext(a, i).records
  {
    hide BatchOk, AdapterFollows, AnswersOf, PortsAnswered, ChannelsOf, HeldKept, RecordsAfter;
    OfferedRecord(a, w, i);
  }

  lemma QuietPast(a: Adapter, w: Wire, i: AdapterInput, id: nat)
    requires Kept(a, w) && Fits(a, i) && AdapterFollows(a, i) && id !in a.records
    ensures PortsAnswered(w.answers + AnswersOf(i), id) == PortsAnswered(w.answers, id)
    ensures id != a.sequence ==> id !in RecordsAfter(a, i)
  {
    hide BatchOk, AdapterFollows, AnswersOf;
    PortsMore(w.answers, AnswersOf(i), id);
    forall x | x in AnswersOf(i) ensures x.transaction != id {
      AnswerLive(a, i, x);
    }
  }

  // --------------------------------------------------------------------------- the theorems

  lemma StepKeeps(a: Adapter, w: Wire, i: AdapterInput)
    requires Kept(a, w) && Fits(a, i) && AdapterFollows(a, i)
    ensures Kept(AdapterNext(a, i), Wired(a, w, i))
    ensures AnswersOf(i) !! w.answers
  {
    hide AdapterFollows, AnswersOf, HeldKept, RecordKept, PastKept, RecordsAfter, BatchLeaves;
    AnswersNew(a, w, i);
    NextHeld(a, w, i);
    forall id | id in AdapterNext(a, i).records ensures RecordKept(AdapterNext(a, i), Wired(a, w, i), id) {
      NextRecord(a, w, i, id);
    }
    forall id | id in Wired(a, w, i).batches ensures PastKept(AdapterNext(a, i), Wired(a, w, i), id) {
      NextPast(a, w, i, id);
    }
    forall x | x in Wired(a, w, i).answers ensures x.transaction in Wired(a, w, i).batches {
      if x in AnswersOf(i) {
        AnswerLive(a, i, x);
        RecordBatch(a, w, x.transaction);
      }
    }
  }

  lemma RecordBatch(a: Adapter, w: Wire, id: nat)
    requires Kept(a, w) && id in a.records
    ensures id in w.batches && w.batches[id] == a.records[id].batch
  {
    assert RecordKept(a, w, id);
  }

  ghost predicate IsRun(states: seq<Adapter>, inputs: seq<AdapterInput>) {
    && |states| == |inputs| + 1 && states[0] == IDLE
    && forall k | 0 <= k < |inputs| ::
         Fits(states[k], inputs[k]) && AdapterFollows(states[k], inputs[k]) && states[k + 1] == AdapterNext(states[k], inputs[k])
  }

  ghost function WireAt(states: seq<Adapter>, inputs: seq<AdapterInput>, k: nat): Wire
    requires IsRun(states, inputs) && k <= |inputs|
  {
    if k == 0 then Wire(map[], {}) else Wired(states[k - 1], WireAt(states, inputs, k - 1), inputs[k - 1])
  }

  lemma {:induction false} RunKept(states: seq<Adapter>, inputs: seq<AdapterInput>, k: nat)
    requires IsRun(states, inputs) && k <= |inputs|
    ensures Kept(states[k], WireAt(states, inputs, k))
  {
    hide Kept, AdapterNext, Wired, AdapterFollows;
    if k == 0 {
      Starts();
    } else {
      RunKept(states, inputs, k - 1);
      StepKeeps(states[k - 1], WireAt(states, inputs, k - 1), inputs[k - 1]);
    }
  }

  /** In every reachable state, answered ports were sent and sent ports are the batch's own. */
  lemma PortsNested(states: seq<Adapter>, inputs: seq<AdapterInput>, k: nat, id: nat)
    requires IsRun(states, inputs) && k <= |inputs| && id in states[k].records
    ensures var rec := states[k].records[id];
            rec.done <= rec.sent <= ChannelsOf(rec.batch.batch)
  {
    RunKept(states, inputs, k);
    assert RecordKept(states[k], WireAt(states, inputs, k), id);
  }

  /** No edge answers a word that an earlier edge answered; a transaction without a record has all its words answered. */
  lemma WordsAnsweredOnce(states: seq<Adapter>, inputs: seq<AdapterInput>, k: nat)
    requires IsRun(states, inputs) && k < |inputs|
    ensures AnswersOf(inputs[k]) !! WireAt(states, inputs, k).answers
    ensures forall id | id in WireAt(states, inputs, k).batches && id !in states[k].records ::
              PortsAnswered(WireAt(states, inputs, k).answers, id) == ChannelsOf(WireAt(states, inputs, k).batches[id].batch)
  {
    hide HeldKept, AdapterNext, Wired, AdapterFollows, AnswersOf, RecordKept, PortsAnswered, ChannelsOf;
    RunKept(states, inputs, k);
    StepKeeps(states[k], WireAt(states, inputs, k), inputs[k]);
    var w := WireAt(states, inputs, k);
    assert forall id | id in w.batches :: PastKept(states[k], w, id);
  }

  /** A wire transaction names one batch for good, and its answers are credited to that batch. */
  lemma AnswersCreditOwnBatch(states: seq<Adapter>, inputs: seq<AdapterInput>, k: nat, x: WordAnswer)
    requires IsRun(states, inputs) && k < |inputs| && x in AnswersOf(inputs[k])
    ensures var w := WireAt(states, inputs, k);
            && x.transaction in w.batches && x.transaction in states[k].records
            && states[k].records[x.transaction].batch == w.batches[x.transaction]
            && x.port in ChannelsOf(w.batches[x.transaction].batch)
            && Wired(states[k], w, inputs[k]).batches[x.transaction] == w.batches[x.transaction]
  {
    hide HeldKept, AdapterNext, AdapterFollows, AnswersOf, PortsAnswered, ChannelsOf, PastKept;
    RunKept(states, inputs, k);
    var a, w := states[k], WireAt(states, inputs, k);
    AnswerLive(a, inputs[k], x);
    assert RecordKept(a, w, x.transaction);
    SequenceKnown(a, w, inputs[k]);
  }
}
