/**
 The shape of the miss registers: the finalized entries of each missing line
 form one chain, linked in order, and the replay head is the front of its chain.
 The lemmas give the chains after each event of the register file.
 */
module CacheChains {
  import opened CacheTypes
  import opened CacheMissRegisters

  /** For each missing line, the slots of its finalized entries in replay order. */
  type Chains = map<nat, seq<nat>>

  /** The entry at position `i` points at the entry after it, and the last one at nothing. */
  ghost predicate Linked(m: Mshr, ch: seq<nat>, i: int)
    requires 0 <= i < |ch| && (forall k | 0 <= k < |ch| :: ch[k] < |m.entries|)
  {
    m.entries[ch[i]].next == if i + 1 < |ch| then Some(HandleOf(m, ch[i + 1])) else None
  }

  ghost predicate ChainOk(m: Mshr, l: nat, ch: seq<nat>) {
    && ch != []
    && (forall i | 0 <= i < |ch| ::
          && ch[i] < |m.entries| && m.entries[ch[i]].valid && m.entries[ch[i]].finalized
          && m.entries[ch[i]].line == l)
    && (forall i | 0 <= i < |ch| :: Linked(m, ch, i))
    && (forall i, j | 0 <= i < j < |ch| :: ch[i] != ch[j])
  }

  ghost predicate ChainsOk(m: Mshr, chains: Chains) {
    forall l | l in chains :: ChainOk(m, l, chains[l])
  }

  function RootOf(m: Mshr, ch: seq<nat>): Handle {
    if ch != [] && ch[0] < |m.entries| then HandleOf(m, ch[0]) else NO_HANDLE
  }

  function TailOf(m: Mshr, ch: seq<nat>): Handle {
    if ch != [] && ch[|ch| - 1] < |m.entries| then HandleOf(m, ch[|ch| - 1]) else NO_HANDLE
  }

  /** Every live entry is in its line's chain, except the one still in the pipeline. */
  ghost predicate Placed(m: Mshr, chains: Chains, open: Option<nat>, i: nat)
    requires i < |m.entries|
  {
    m.entries[i].valid ==>
      if m.entries[i].finalized then m.entries[i].line in chains && i in chains[m.entries[i].line]
      else open == Some(i) && m.entries[i].next.None?
  }

  ghost predicate HeadChained(m: Mshr, chains: Chains) {
    m.head.Some? ==>
      && Live(m, m.head.value)
      && m.entries[m.head.value.slot].line in chains
      && chains[m.entries[m.head.value.slot].line] != []
      && chains[m.entries[m.head.value.slot].line][0] == m.head.value.slot
  }

  ghost predicate ChainInv(m: Mshr, chains: Chains, open: Option<nat>) {
    && ChainsOk(m, chains)
    && (forall i | 0 <= i < |m.entries| :: Placed(m, chains, open, i))
    && (open.Some? ==> open.value < |m.entries| && m.entries[open.value].valid && !m.entries[open.value].finalized)
    && HeadChained(m, chains)
  }

  /** The line whose chain is replaying. */
  function HeadLine(m: Mshr): Option<nat> {
    if m.head.Some? && m.head.value.slot < |m.entries| then Some(m.entries[m.head.value.slot].line) else None
  }

  /** The chains that still wait for their line, with the root that asked for it. */
  ghost function Want(m: Mshr, chains: Chains): map<nat, Handle>
  {
    map l | l in chains && HeadLine(m) != Some(l) :: RootOf(m, chains[l])
  }

  ghost function AfterFinalize(m: Mshr, chains: Chains, f: Finalization): Chains
    requires FinalizeOk(m, f)
  {
    var l := m.entries[f.handle.slot].line;
    if f.release then chains
    else if f.previous.None? || l !in chains then chains[l := [f.handle.slot]]
    else chains[l := chains[l] + [f.handle.slot]]
  }

  /** The predecessor the allocation recorded is the tail of the line's chain, or there is no chain. */
  ghost predicate Expects(m: Mshr, chains: Chains, f: Finalization)
    requires f.handle.slot < |m.entries|
  {
    var l := m.entries[f.handle.slot].line;
    if f.previous.None? then l !in chains
    else l in chains && f.previous.value == TailOf(m, chains[l])
  }

  /** A chain none of whose entries changed is still a chain. */
  lemma ChainKept(m: Mshr, n: Mshr, l: nat, ch: seq<nat>)
    requires ChainOk(m, l, ch) && |n.entries| == |m.entries|
    requires forall i | 0 <= i < |ch| :: n.entries[ch[i]] == m.entries[ch[i]]
    ensures ChainOk(n, l, ch)
    ensures RootOf(n, ch) == RootOf(m, ch)
  {
    forall i | 0 <= i < |ch| ensures Linked(n, ch, i) {
      assert Linked(m, ch, i);
    }
  }

  lemma FinalizeRelease(m: Mshr, chains: Chains, f: Finalization)
    requires ChainInv(m, chains, Some(f.handle.slot)) && FinalizeOk(m, f) && f.release
    ensures ChainInv(Finalize(m, f), chains, None)
    ensures Want(Finalize(m, f), chains) == Want(m, chains)
    ensures HeadLine(Finalize(m, f)) == HeadLine(m)
  {
    var n := Finalize(m, f);
    forall l | l in chains ensures ChainOk(n, l, chains[l]) && RootOf(n, chains[l]) == RootOf(m, chains[l]) {
      ChainKept(m, n, l, chains[l]);
    }
    forall i | 0 <= i < |n.entries| ensures Placed(n, chains, None, i) {
      assert Placed(m, chains, Some(f.handle.slot), i);
    }
  }

  lemma FinalizeMiss(m: Mshr, chains: Chains, f: Finalization)
    requires ChainInv(m, chains, Some(f.handle.slot)) && FinalizeOk(m, f) && !f.release
    requires Expects(m, chains, f)
    ensures ChainInv(Finalize(m, f), AfterFinalize(m, chains, f), None)
    ensures HeadLine(Finalize(m, f)) == HeadLine(m)
  {
    var n, after := Finalize(m, f), AfterFinalize(m, chains, f);
    var s := f.handle.slot;
    var line := m.entries[s].line;
    assert Placed(m, chains, Some(s), s);
    forall l | l in after ensures ChainOk(n, l, after[l]) {
      if l != line {
        ChainKept(m, n, l, chains[l]);
      } else if f.previous.Some? {
        LinkChain(m, chains, f);
      } else {
        assert Linked(n, after[l], 0);
      }
    }
    forall i | 0 <= i < |n.entries| ensures Placed(n, after, None, i) {
      assert Placed(m, chains, Some(s), i);
      if i == s {
        assert after[line][|after[line]| - 1] == s;
      }
    }
  }

  lemma LinkChain(m: Mshr, chains: Chains, f: Finalization)
    requires ChainInv(m, chains, Some(f.handle.slot)) && FinalizeOk(m, f) && !f.release && f.previous.Some?
    requires Expects(m, chains, f)
    ensures var l := m.entries[f.handle.slot].line;
            ChainOk(Finalize(m, f), l, chains[l] + [f.handle.slot])
  {
    var n, s := Finalize(m, f), f.handle.slot;
    var l := m.entries[s].line;
    var ch := chains[l];
    var ch' := ch + [s];
    assert ChainOk(m, l, ch);
    assert Placed(m, chains, Some(s), s);
    assert forall i | 0 <= i < |ch| :: ch'[i] == ch[i] && ch[i] != s;
    forall i | 0 <= i < |ch'| ensures Linked(n, ch', i) {
      if i < |ch| {
        assert Linked(m, ch, i);
      }
    }
  }

  /** Only a new root changes what waits. */
  lemma FinalizeWant(m: Mshr, chains: Chains, f: Finalization)
    requires ChainInv(m, chains, Some(f.handle.slot)) && FinalizeOk(m, f) && !f.release
    requires Expects(m, chains, f)
    ensures var n, after := Finalize(m, f), AfterFinalize(m, chains, f);
            && ChainInv(n, after, None)
            && Want(n, after) == if f.previous.None? then Want(m, chains)[m.entries[f.handle.slot].line := f.handle]
                                 else Want(m, chains)
  {
    hide ChainInv, Want, AfterFinalize, Finalize, Expects;
    FinalizeMiss(m, chains, f);
    WantAfter(m, chains, f);
  }

  lemma WantAfter(m: Mshr, chains: Chains, f: Finalization)
    requires ChainInv(m, chains, Some(f.handle.slot)) && FinalizeOk(m, f) && !f.release
    requires Expects(m, chains, f)
    ensures Want(Finalize(m, f), AfterFinalize(m, chains, f)) ==
            if f.previous.None? then Want(m, chains)[m.entries[f.handle.slot].line := f.handle] else Want(m, chains)
  {
    hide Placed, Linked;
    var n, l := Finalize(m, f), m.entries[f.handle.slot].line;
    assert l in chains ==> ChainOk(m, l, chains[l]);
    assert forall i | 0 <= i < |m.entries| :: n.entries[i].generation == m.entries[i].generation;
    assert forall ch: seq<nat> :: RootOf(n, ch) == RootOf(m, ch);
    assert HeadLine(n) == HeadLine(m);
  }

  ghost function AfterDequeue(m: Mshr, chains: Chains): Chains
    requires m.head.Some? && m.head.value.slot < |m.entries|
  {
    var l := m.entries[m.head.value.slot].line;
    if l !in chains then chains
    else if |chains[l]| <= 1 then chains - {l}
    else chains[l := chains[l][1..]]
  }

  lemma DequeueHead(m: Mshr, chains: Chains)
    requires ChainInv(m, chains, None) && m.head.Some?
    ensures ChainInv(Dequeue(m), AfterDequeue(m, chains), None)
    ensures Want(Dequeue(m), AfterDequeue(m, chains)) == Want(m, chains)
    ensures Dequeue(m).head.Some? ==> HeadLine(Dequeue(m)) == HeadLine(m)
  {
    hide ChainOk, Placed, Want;
    var n, after := Dequeue(m), AfterDequeue(m, chains);
    forall l | l in after ensures ChainOk(n, l, after[l]) {
      DequeueChain(m, chains, l);
    }
    forall i | 0 <= i < |n.entries| ensures Placed(n, after, None, i) {
      DequeuePlaced(m, chains, i);
    }
    NextHead(m, chains);
    DequeueWant(m, chains);
  }

  lemma DequeueChain(m: Mshr, chains: Chains, l: nat)
    requires ChainInv(m, chains, None) && m.head.Some? && l in AfterDequeue(m, chains)
    ensures ChainOk(Dequeue(m), l, AfterDequeue(m, chains)[l])
  {
    hide Placed;
    var line := m.entries[m.head.value.slot].line;
    assert ChainOk(m, line, chains[line]) && ChainOk(m, l, chains[l]);
    if l != line {
      ChainKept(m, Dequeue(m), l, chains[l]);
    } else {
      ChainTail(m, line, chains[line]);
    }
  }

  /** The head passes to the next of its own chain, if there is one. */
  lemma NextHead(m: Mshr, chains: Chains)
    requires ChainInv(m, chains, None) && m.head.Some?
    ensures HeadChained(Dequeue(m), AfterDequeue(m, chains))
    ensures Dequeue(m).head.Some? ==> HeadLine(Dequeue(m)) == HeadLine(m)
    ensures var line := m.entries[m.head.value.slot].line;
            line in chains && (Dequeue(m).head.None? <==> line !in AfterDequeue(m, chains))
  {
    hide Placed;
    var line := m.entries[m.head.value.slot].line;
    assert ChainOk(m, line, chains[line]) && Linked(m, chains[line], 0);
  }

  lemma DequeueWant(m: Mshr, chains: Chains)
    requires ChainInv(m, chains, None) && m.head.Some?
    ensures Want(Dequeue(m), AfterDequeue(m, chains)) == Want(m, chains)
  {
    hide ChainOk, Placed;
    NextHead(m, chains);
    var n := Dequeue(m);
    assert forall i | 0 <= i < |m.entries| :: n.entries[i].generation == m.entries[i].generation;
    assert forall ch: seq<nat> :: RootOf(n, ch) == RootOf(m, ch);
  }

  lemma DequeuePlaced(m: Mshr, chains: Chains, i: nat)
    requires ChainInv(m, chains, None) && m.head.Some? && i < |m.entries|
    ensures Placed(Dequeue(m), AfterDequeue(m, chains), None, i)
  {
    var s := m.head.value.slot;
    var line := m.entries[s].line;
    var ch := chains[line];
    assert Placed(m, chains, None, i);
    if i != s && m.entries[i].valid && m.entries[i].line == line {
      var k :| 0 <= k < |ch| && ch[k] == i;
      assert ch[1..][k - 1] == i;
    }
  }

  lemma ChainTail(m: Mshr, l: nat, ch: seq<nat>)
    requires ChainOk(m, l, ch) && |ch| > 1 && m.head.Some? && m.head.value.slot == ch[0]
    ensures ChainOk(Dequeue(m), l, ch[1..])
  {
    var n, t := Dequeue(m), ch[1..];
    assert forall i | 0 <= i < |t| :: t[i] == ch[i + 1] && t[i] != ch[0];
    forall i | 0 <= i < |t| ensures Linked(n, t, i) {
      assert Linked(m, ch, i + 1);
    }
  }

  /** The fill of a waiting chain starts its replay. */
  lemma StartChain(m: Mshr, chains: Chains, open: Option<nat>, l: nat)
    requires ChainInv(m, chains, open) && m.head.None? && l in chains
    ensures var n := Start(m, RootOf(m, chains[l]));
            && ChainInv(n, chains, open)
            && HeadLine(n) == Some(l)
            && Want(n, chains) == Want(m, chains) - {l}
  {
    var n := Start(m, RootOf(m, chains[l]));
    assert ChainOk(m, l, chains[l]);
    forall k | k in chains ensures ChainOk(n, k, chains[k]) && RootOf(n, chains[k]) == RootOf(m, chains[k]) {
      ChainKept(m, n, k, chains[k]);
    }
    forall i | 0 <= i < |n.entries| ensures Placed(n, chains, open, i) {
      assert Placed(m, chains, open, i);
    }
  }

  /** A free slot takes a new entry. */
  lemma AllocateSlot(m: Mshr, chains: Chains, slot: nat, a: Allocation)
    requires ChainInv(m, chains, None) && slot < |m.entries| && !m.entries[slot].valid
    ensures var n := Allocate(m, slot, a);
            && ChainInv(n, chains, Some(slot))
            && HeadLine(n) == HeadLine(m)
            && Want(n, chains) == Want(m, chains)
  {
    var n := Allocate(m, slot, a);
    forall l | l in chains ensures ChainOk(n, l, chains[l]) && RootOf(n, chains[l]) == RootOf(m, chains[l]) {
      ChainKept(m, n, l, chains[l]);
    }
    forall i | 0 <= i < |n.entries| ensures Placed(n, chains, Some(slot), i) {
      assert Placed(m, chains, None, i);
    }
  }

  lemma RegisterFree(m: Mshr, chains: Chains, open: Option<nat>)
    requires ChainInv(m, chains, open)
    ensures ChainInv(Registered(m), chains, open)
    ensures Want(Registered(m), chains) == Want(m, chains)
    ensures HeadLine(Registered(m)) == HeadLine(m)
  {
    var n := Registered(m);
    forall l | l in chains ensures ChainOk(n, l, chains[l]) && RootOf(n, chains[l]) == RootOf(m, chains[l]) {
      ChainKept(m, n, l, chains[l]);
    }
    forall i | 0 <= i < |n.entries| ensures Placed(n, chains, open, i) {
      assert Placed(m, chains, open, i);
    }
  }

  /**
   The predecessor that an allocation finds in the old table is the tail of the
   line's chain after the edge's finalize and dequeue, and it finds none exactly
   when the line then has no chain. The one exception is a line whose own entry is
   being released by a hit on this edge; that line is resident.
   */
  lemma PredecessorIsTail(m: Mshr, chains: Chains, open: Option<nat>, ev: Events, after: Chains, line: nat)
    requires ChainInv(m, chains, open) && EventsOk(m, ev)
    requires open == if ev.finalize.Some? then Some(ev.finalize.value.handle.slot) else None
    requires ChainInv(Dequeued(m, ev), after, None)
    requires ev.finalize.Some? && ev.finalize.value.release ==> m.entries[ev.finalize.value.handle.slot].line != line
    ensures var p := Predecessor(m.entries, Finalized(m, ev).entries, Gone(m, ev), line, 0);
            && (p.None? <==> line !in after)
            && (p.Some? ==> p.value == after[line][|after[line]| - 1] && HandleOf(m, p.value) == HandleOf(Dequeued(m, ev), p.value))
  {
    var f, d := Finalized(m, ev), Dequeued(m, ev);
    var p := Predecessor(m.entries, f.entries, Gone(m, ev), line, 0);
    forall i | 0 <= i < |m.entries|
      ensures EdgeEntry(m, ev, i)
    {
      EdgeKeeps(m, ev, i);
    }
    if line in after {
      var ch := after[line];
      assert ChainOk(d, line, ch);
      var t := ch[|ch| - 1];
      assert Linked(d, ch, |ch| - 1);
      assert EdgeEntry(m, ev, t);
      assert Follows(m.entries, f.entries, Gone(m, ev), line, t);
    }
    if p.Some? {
      var i := p.value;
      assert EdgeEntry(m, ev, i);
      assert Placed(d, after, None, i);
      var ch := after[line];
      assert ChainOk(d, line, ch);
      var k :| 0 <= k < |ch| && ch[k] == i;
      assert Linked(d, ch, k);
    }
  }

  /** What finalize and dequeue leave of one entry. */
  ghost predicate EdgeEntry(m: Mshr, ev: Events, i: nat)
    requires EventsOk(m, ev) && i < |m.entries|
  {
    var e, f, d := m.entries[i], Finalized(m, ev).entries[i], Dequeued(m, ev).entries[i];
    && f.next == d.next && d.line == e.line && d.generation == e.generation
    && (d.valid <==> e.valid && Gone(m, ev) != Some(i)
                     && !(ev.finalize.Some? && ev.finalize.value.release && ev.finalize.value.handle.slot == i))
  }

  lemma EdgeKeeps(m: Mshr, ev: Events, i: nat)
    requires EventsOk(m, ev) && i < |m.entries|
    ensures EdgeEntry(m, ev, i)
  {
    if ev.finalize.Some? {
      var f := ev.finalize.value;
      var g := Finalize(m, f);
      assert g.entries[i].line == m.entries[i].line && g.entries[i].generation == m.entries[i].generation;
      assert g.entries[i].valid == (m.entries[i].valid && !(f.release && f.handle.slot == i));
    }
  }
}
