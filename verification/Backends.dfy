/**
 The deterministic memory backend (timing/memsys/backend.go) over the bytes of its
 owner (support/memory/memory.go): bounded in-flight requests, service in
 acceptance order, replies in order with head-of-line blocking, and round-robin
 admission.

 Requests carry a transaction number; tags, residency fields and cycle stamps are
 copied by the source and not modelled.
 */
module Backends {
  import opened CacheTypes

  datatype Operation = Read | Write | Visibility

  datatype SectorRequest = SectorRequest(transaction: nat, op: Operation, address: nat, enables: seq<bool>, data: Sector)

  predicate RequestOk(r: SectorRequest) {
    |r.enables| == SECTOR_BYTES && (r.op != Visibility ==> r.address % SECTOR_BYTES == 0)
  }

  type Bytes = seq<bv8>

  const OUT_OF_BOUNDS: Status := Failed(1)

  // ----------------------------------------------------------- backing bytes

  predicate WriteFits(m: Bytes, r: SectorRequest)
    requires RequestOk(r)
  {
    forall i | 0 <= i < SECTOR_BYTES && r.enables[i] :: r.address + i < |m|
  }

  /** The enabled bytes replaced, all of them or none. */
  function Store(m: Bytes, r: SectorRequest): (s: Bytes)
    requires RequestOk(r)
    ensures |s| == |m|
  {
    if WriteFits(m, r) then
      seq(|m|, k requires 0 <= k < |m| =>
        if r.address <= k < r.address + SECTOR_BYTES && r.enables[k - r.address] then r.data[k - r.address] else m[k])
    else m
  }

  function WriteStatus(m: Bytes, r: SectorRequest): Status
    requires RequestOk(r)
  {
    if WriteFits(m, r) then Ok else OUT_OF_BOUNDS
  }

  function Load(m: Bytes, a: nat): (Sector, Status) {
    if a + SECTOR_BYTES <= |m| then (m[a..a + SECTOR_BYTES], Ok) else (ZERO_SECTOR, OUT_OF_BOUNDS)
  }

  /** A run of enabled bytes, as offsets. */
  datatype Run = Run(start: nat, end: nat)

  ghost predicate Covers(runs: seq<Run>, enables: seq<bool>, upto: nat)
    requires |enables| == SECTOR_BYTES && upto <= SECTOR_BYTES
  {
    && (forall k | 0 <= k < |runs| :: runs[k].start < runs[k].end <= upto && forall i | runs[k].start <= i < runs[k].end :: enables[i])
    && (forall i | 0 <= i < upto && enables[i] :: exists k :: 0 <= k < |runs| && runs[k].start <= i < runs[k].end)
    && (forall j, k | 0 <= j < k < |runs| :: runs[j].end <= runs[k].start)
  }

  lemma CoverMore(runs: seq<Run>, enables: seq<bool>, start: nat, end: nat)
    requires |enables| == SECTOR_BYTES && start < end <= SECTOR_BYTES && Covers(runs, enables, start) && forall i | start <= i < end :: enables[i]
    ensures Covers(runs + [Run(start, end)], enables, end)
  {
    var all := runs + [Run(start, end)];
    forall i | 0 <= i < end && enables[i] ensures exists k :: 0 <= k < |all| && all[k].start <= i < all[k].end {
      if i < start {
        var k :| 0 <= k < |runs| && runs[k].start <= i < runs[k].end;
        assert all[k].start <= i < all[k].end;
      } else {
        assert all[|runs|].start <= i < all[|runs|].end;
      }
    }
  }

  /** Groups the enabled bytes into ascending, separate runs. */
  method CollectRuns(enables: seq<bool>) returns (runs: seq<Run>)
    requires |enables| == SECTOR_BYTES
    ensures Covers(runs, enables, SECTOR_BYTES)
  {
    runs := [];
    var j := 0;
    while j < SECTOR_BYTES
      invariant j <= SECTOR_BYTES && Covers(runs, enables, j)
    {
      if !enables[j] {
        j := j + 1;
        continue;
      }
      var start := j;
      while j < SECTOR_BYTES && enables[j]
        invariant start <= j <= SECTOR_BYTES && (forall i | start <= i < j :: enables[i])
        invariant start < j || enables[start]
      {
        j := j + 1;
      }
      ghost var before := runs;
      runs := runs + [Run(start, j)];
      CoverMore(before, enables, start, j);
    }
  }

  // ---------------------------------------------------------- the owner's batch

  predicate Overlap(a: nat, n: nat, b: nat, k: nat) {
    a < b + k && b < a + n
  }

  /** Piece `j` fits the memory and shares no byte with an earlier piece. */
  predicate PieceOk(m: Bytes, addresses: seq<nat>, sources: seq<seq<bv8>>, j: nat)
    requires |addresses| == |sources| && j < |sources|
  {
    && addresses[j] + |sources[j]| <= |m|
    && forall i | 0 <= i < j :: !Overlap(addresses[j], |sources[j]|, addresses[i], |sources[i]|)
  }

  predicate BatchOk(m: Bytes, addresses: seq<nat>, sources: seq<seq<bv8>>) {
    |addresses| == |sources| && forall j | 0 <= j < |sources| :: PieceOk(m, addresses, sources, j)
  }

  predicate Holds(s: Bytes, a: nat, bytes: seq<bv8>) {
    a + |bytes| <= |s| && s[a..a + |bytes|] == bytes
  }

  /** Byte `x` belongs to one of the first `n` pieces. */
  ghost predicate InPieces(addresses: seq<nat>, sources: seq<seq<bv8>>, n: nat, x: nat)
    requires |addresses| == |sources| && n <= |sources|
  {
    exists j :: 0 <= j < n && InPiece(addresses[j], |sources[j]|, x)
  }

  predicate InPiece(a: nat, n: nat, x: nat) {
    a <= x < a + n
  }

  /** The first `n` pieces are in place and every other byte is as before. */
  ghost predicate Placed(m: Bytes, addresses: seq<nat>, sources: seq<seq<bv8>>, n: nat, s: Bytes)
    requires |addresses| == |sources| && n <= |sources|
  {
    && |s| == |m|
    && (forall j | 0 <= j < n :: Holds(s, addresses[j], sources[j]))
    && (forall x | 0 <= x < |m| && !InPieces(addresses, sources, n, x) :: s[x] == m[x])
  }

  function Splice(s: Bytes, a: nat, bytes: seq<bv8>): (t: Bytes)
    requires a + |bytes| <= |s|
    ensures |t| == |s|
  {
    s[..a] + bytes + s[a + |bytes|..]
  }

  lemma SpliceApart(s: Bytes, a: nat, bytes: seq<bv8>, b: nat, other: seq<bv8>)
    requires a + |bytes| <= |s| && Holds(s, b, other) && !Overlap(a, |bytes|, b, |other|)
    ensures Holds(Splice(s, a, bytes), b, other)
  {
    var t := Splice(s, a, bytes);
    forall k | 0 <= k < |other| ensures t[b..b + |other|][k] == other[k] {
      assert s[b..b + |other|][k] == s[b + k];
    }
  }

  lemma PlacedNext(m: Bytes, addresses: seq<nat>, sources: seq<seq<bv8>>, n: nat, s: Bytes)
    requires |addresses| == |sources| && n < |sources| && Placed(m, addresses, sources, n, s) && PieceOk(m, addresses, sources, n)
    ensures Placed(m, addresses, sources, n + 1, Splice(s, addresses[n], sources[n]))
  {
    hide Overlap, InPiece;
    var a, bytes := addresses[n], sources[n];
    var t := Splice(s, a, bytes);
    forall j | 0 <= j < n + 1 ensures Holds(t, addresses[j], sources[j]) {
      if j < n {
        assert Holds(s, addresses[j], sources[j]);
        SpliceApart(s, a, bytes, addresses[j], sources[j]);
      }
    }
    forall x | 0 <= x < |m| && !InPieces(addresses, sources, n + 1, x) ensures t[x] == m[x] {
      assert !InPieces(addresses, sources, n, x);
      assert !InPiece(a, |bytes|, x);
      OutsidePiece(s, a, bytes, x);
    }
  }

  lemma OutsidePiece(s: Bytes, a: nat, bytes: seq<bv8>, x: nat)
    requires a + |bytes| <= |s| && x < |s| && !InPiece(a, |bytes|, x)
    ensures Splice(s, a, bytes)[x] == s[x]
  {
  }

  /** The owner's atomic batch: every range and every pair is checked before the first byte changes. */
  method WriteBatch(m: Bytes, addresses: seq<nat>, sources: seq<seq<bv8>>) returns (s: Bytes, ok: bool)
    ensures ok == BatchOk(m, addresses, sources)
    ensures ok ==> Placed(m, addresses, sources, |sources|, s)
    ensures !ok ==> s == m
  {
    hide Placed, Overlap, Splice;
    s, ok := m, false;
    if |addresses| != |sources| {
      return;
    }
    for j := 0 to |sources|
      invariant forall k | 0 <= k < j :: PieceOk(m, addresses, sources, k)
    {
      var fits := CheckPiece(m, addresses, sources, j);
      if !fits {
        return;
      }
    }
    NothingPlaced(m, addresses, sources);
    for j := 0 to |sources|
      invariant |s| == |m| && Placed(m, addresses, sources, j, s)
    {
      assert PieceOk(m, addresses, sources, j);
      PlacedNext(m, addresses, sources, j, s);
      s := Splice(s, addresses[j], sources[j]);
    }
    ok := true;
  }

  /** The range check and the loop over the earlier pieces. */
  method CheckPiece(m: Bytes, addresses: seq<nat>, sources: seq<seq<bv8>>, j: nat) returns (fits: bool)
    requires |addresses| == |sources| && j < |sources|
    ensures fits == PieceOk(m, addresses, sources, j)
  {
    hide Overlap;
    if addresses[j] + |sources[j]| > |m| {
      return false;
    }
    for i := 0 to j
      invariant forall k | 0 <= k < i :: !Overlap(addresses[j], |sources[j]|, addresses[k], |sources[k]|)
    {
      if Overlap(addresses[j], |sources[j]|, addresses[i], |sources[i]|) {
        return false;
      }
    }
    fits := true;
  }

  lemma NothingPlaced(m: Bytes, addresses: seq<nat>, sources: seq<seq<bv8>>)
    requires |addresses| == |sources|
    ensures Placed(m, addresses, sources, 0, m)
  {
  }

  // ---------------------------------------------------------- a sector's write

  /** The runs of a sector as pieces of a batch. */
  predicate ArePieces(r: SectorRequest, runs: seq<Run>, addresses: seq<nat>, sources: seq<seq<bv8>>)
    requires forall k | 0 <= k < |runs| :: runs[k].start <= runs[k].end <= |r.data|
  {
    && |addresses| == |sources| == |runs|
    && forall k | 0 <= k < |runs| :: addresses[k] == r.address + runs[k].start && sources[k] == r.data[runs[k].start..runs[k].end]
  }

  /** The batch is refused exactly when some enabled byte lies outside the memory. */
  lemma RunsFit(m: Bytes, r: SectorRequest, runs: seq<Run>, addresses: seq<nat>, sources: seq<seq<bv8>>)
    requires RequestOk(r) && Covers(runs, r.enables, SECTOR_BYTES) && ArePieces(r, runs, addresses, sources)
    ensures BatchOk(m, addresses, sources) <==> WriteFits(m, r)
  {
    if BatchOk(m, addresses, sources) {
      forall i | 0 <= i < SECTOR_BYTES && r.enables[i] ensures r.address + i < |m| {
        var k :| 0 <= k < |runs| && runs[k].start <= i < runs[k].end;
        assert PieceOk(m, addresses, sources, k);
      }
    }
    if WriteFits(m, r) {
      forall j | 0 <= j < |sources| ensures PieceOk(m, addresses, sources, j) {
        assert r.enables[runs[j].end - 1];
      }
    }
  }

  /** The pieces in place are the enabled bytes in place. */
  lemma RunsPlaced(m: Bytes, r: SectorRequest, runs: seq<Run>, addresses: seq<nat>, sources: seq<seq<bv8>>, s: Bytes)
    requires RequestOk(r) && Covers(runs, r.enables, SECTOR_BYTES) && ArePieces(r, runs, addresses, sources)
    requires WriteFits(m, r) && Placed(m, addresses, sources, |sources|, s)
    ensures s == Store(m, r)
  {
    forall x | 0 <= x < |m| ensures s[x] == Store(m, r)[x] {
      ByteStored(m, r, runs, addresses, sources, s, x);
    }
  }

  lemma ByteStored(m: Bytes, r: SectorRequest, runs: seq<Run>, addresses: seq<nat>, sources: seq<seq<bv8>>, s: Bytes, x: nat)
    requires RequestOk(r) && Covers(runs, r.enables, SECTOR_BYTES) && ArePieces(r, runs, addresses, sources)
    requires Placed(m, addresses, sources, |sources|, s) && x < |m|
    ensures s[x] == if r.address <= x < r.address + SECTOR_BYTES && r.enables[x - r.address] then r.data[x - r.address] else m[x]
  {
    hide Covers, Holds, InPieces;
    RunsInside(r, runs);
    var i := x - r.address;
    if 0 <= i < SECTOR_BYTES && r.enables[i] {
      var k := RunAt(runs, r.enables, i);
      assert Holds(s, addresses[k], sources[k]);
      PieceByte(r, runs[k], s, x);
    } else {
      assert !InPieces(addresses, sources, |sources|, x) by {
        PiecesEnabled(r, runs, addresses, sources, x);
      }
    }
  }

  lemma RunAt(runs: seq<Run>, enables: seq<bool>, i: nat) returns (k: nat)
    requires |enables| == SECTOR_BYTES && Covers(runs, enables, SECTOR_BYTES) && i < SECTOR_BYTES && enables[i]
    ensures k < |runs| && runs[k].start <= i < runs[k].end
  {
    k :| 0 <= k < |runs| && runs[k].start <= i < runs[k].end;
  }

  lemma PieceByte(r: SectorRequest, run: Run, s: Bytes, x: nat)
    requires run.start <= run.end <= |r.data| && Holds(s, r.address + run.start, r.data[run.start..run.end])
    requires r.address + run.start <= x < r.address + run.end
    ensures x < |s| && s[x] == r.data[x - r.address]
  {
    var a, bytes := r.address + run.start, r.data[run.start..run.end];
    assert s[a..a + |bytes|][x - a] == s[x] && bytes[x - a] == r.data[x - r.address];
  }

  /** Every byte of a piece is enabled. */
  lemma PiecesEnabled(r: SectorRequest, runs: seq<Run>, addresses: seq<nat>, sources: seq<seq<bv8>>, x: nat)
    requires |r.enables| == SECTOR_BYTES && Covers(runs, r.enables, SECTOR_BYTES) && ArePieces(r, runs, addresses, sources)
    ensures InPieces(addresses, sources, |sources|, x) ==> 0 <= x - r.address < SECTOR_BYTES && r.enables[x - r.address]
  {
    if InPieces(addresses, sources, |sources|, x) {
      var k :| 0 <= k < |sources| && InPiece(addresses[k], |sources[k]|, x);
      assert runs[k].start <= x - r.address < runs[k].end;
    }
  }

  /** A sector's write: its runs become one batch, all of it or nothing. */
  method WriteRuns(m: Bytes, r: SectorRequest, runs: seq<Run>) returns (s: Bytes, status: Status)
    requires RequestOk(r) && Covers(runs, r.enables, SECTOR_BYTES)
    ensures s == Store(m, r) && status == WriteStatus(m, r)
  {
    hide Covers, WriteFits, Placed, BatchOk;
    assert forall k | 0 <= k < |runs| :: runs[k].start <= runs[k].end <= |r.data| by { RunsInside(r, runs); }
    var addresses, sources := [], [];
    for k := 0 to |runs|
      invariant |addresses| == |sources| == k
      invariant forall j | 0 <= j < k :: addresses[j] == r.address + runs[j].start && sources[j] == r.data[runs[j].start..runs[j].end]
    {
      addresses := addresses + [r.address + runs[k].start];
      sources := sources + [r.data[runs[k].start..runs[k].end]];
    }
    RunsFit(m, r, runs, addresses, sources);
    var ok;
    s, ok := WriteBatch(m, addresses, sources);
    if ok {
      RunsPlaced(m, r, runs, addresses, sources, s);
    }
    status := if ok then Ok else OUT_OF_BOUNDS;
  }

  lemma RunsInside(r: SectorRequest, runs: seq<Run>)
    requires RequestOk(r) && Covers(runs, r.enables, SECTOR_BYTES)
    ensures forall k | 0 <= k < |runs| :: runs[k].start <= runs[k].end <= |r.data|
  {
  }

  // ---------------------------------------------------------- reference order

  /** The bytes after serving a list of requests in order. */
  function MemoryAfter(m: Bytes, log: seq<SectorRequest>): Bytes
    requires forall k | 0 <= k < |log| :: RequestOk(log[k])
  {
    if log == [] then m
    else
      var before := MemoryAfter(m, log[..|log| - 1]);
      var r := log[|log| - 1];
      if r.op == Write then Store(before, r) else before
  }

  /** The first error among the writes of a list. */
  function ErrorAfter(m: Bytes, log: seq<SectorRequest>): Status
    requires forall k | 0 <= k < |log| :: RequestOk(log[k])
  {
    if log == [] then Ok
    else
      var before := ErrorAfter(m, log[..|log| - 1]);
      var r := log[|log| - 1];
      if before.Ok? && r.op == Write then WriteStatus(MemoryAfter(m, log[..|log| - 1]), r) else before
  }

  /** What a request is answered when it is served after `log`. */
  function AnswerTo(m: Bytes, log: seq<SectorRequest>, r: SectorRequest): (Sector, Status)
    requires RequestOk(r) && forall k | 0 <= k < |log| :: RequestOk(log[k])
  {
    match r.op
    case Read => Load(MemoryAfter(m, log), r.address)
    case Write => (ZERO_SECTOR, WriteStatus(MemoryAfter(m, log), r))
    case Visibility => (ZERO_SECTOR, ErrorAfter(m, log))
  }

  lemma AfterAppend(m: Bytes, log: seq<SectorRequest>, r: SectorRequest)
    requires RequestOk(r) && forall k | 0 <= k < |log| :: RequestOk(log[k])
    ensures var longer := log + [r];
            && (forall k | 0 <= k < |longer| :: RequestOk(longer[k]))
            && MemoryAfter(m, longer) == (if r.op == Write then Store(MemoryAfter(m, log), r) else MemoryAfter(m, log))
            && ErrorAfter(m, longer) ==
               (if ErrorAfter(m, log).Ok? && r.op == Write then WriteStatus(MemoryAfter(m, log), r) else ErrorAfter(m, log))
  {
    assert (log + [r])[..|log|] == log;
  }

  /** SectorRequest `k` of the list is a write that fails. */
  predicate Fails(m: Bytes, log: seq<SectorRequest>, k: nat)
    requires k < |log| && forall j | 0 <= j < |log| :: RequestOk(log[j])
  {
    log[k].op == Write && WriteStatus(MemoryAfter(m, log[..k]), log[k]).Failed?
  }

  /** A ticket's status is that of the first failing write before it; it is good exactly when there is none. */
  lemma {:induction false} FirstError(m: Bytes, log: seq<SectorRequest>) returns (first: nat)
    requires forall k | 0 <= k < |log| :: RequestOk(log[k])
    ensures first <= |log| && forall k | 0 <= k < first :: !Fails(m, log, k)
    ensures first == |log| <==> ErrorAfter(m, log).Ok?
    ensures first < |log| ==>
              Fails(m, log, first) && ErrorAfter(m, log) == WriteStatus(MemoryAfter(m, log[..first]), log[first])
  {
    first := 0;
    if log != [] {
      var n := |log| - 1;
      var head := log[..n];
      first := FirstError(m, head);
      assert forall k | 0 <= k < n :: head[k] == log[k] && head[..k] == log[..k];
      forall k | 0 <= k < n ensures Fails(m, head, k) == Fails(m, log, k) {
      }
      if first == n && !Fails(m, log, n) {
        first := n + 1;
      }
    }
  }
}
