/**
 The array as the source keeps it: one object whose lines, replacement pointers
 and reset marks change in place. Each method follows its function in CacheArrays;
 a rejected call reports false and changes nothing.
 */
module CacheArrayClass {
  import opened CacheTypes
  import opened CacheGeometry
  import opened CacheArrays

  class CacheArray {
    const spec: Spec
    var lines: seq<seq<Line>>
    var fifo: seq<nat>
    var initialized: seq<bool>

    function Model(): Array
      reads this
    {
      Array(lines, fifo, initialized)
    }

    ghost predicate Valid()
      reads this
    {
      spec.Valid() && Shaped(spec, Model())
    }

    constructor (c: Spec)
      requires c.Valid()
      ensures spec == c && Valid() && Model() == NewArray(c)
    {
      spec := c;
      lines := seq(c.sets, _ => seq(c.ways, _ => NO_LINE));
      fifo := seq(c.sets, _ => 0);
      initialized := seq(c.sets, _ => false);
    }

    method InitSet(s: nat)
      requires Valid() && s < spec.sets
      modifies this
      ensures Valid() && Model() == CacheArrays.InitSet(spec, old(Model()), s)
    {
      lines := lines[s := seq(spec.ways, _ => NO_LINE)];
      fifo := fifo[s := 0];
      initialized := initialized[s := true];
    }

    /** The way that holds the address; an error for another bank's address or a set not yet reset. */
    method Lookup(address: nat) returns (ok: bool, found: Option<nat>)
      requires Valid()
      ensures ok == Located(spec, Model(), address)
      ensures found == if ok then CacheArrays.Lookup(spec, Model(), address) else None
    {
      found := None;
      var s, tag := SetOf(spec, address), TagOf(spec, address);
      ok := BankOf(spec, address) == spec.bank && initialized[s];
      if !ok { return; }
      var way := 0;
      while way < spec.ways
        invariant way <= spec.ways
        invariant CacheArrays.Lookup(spec, Model(), address) == FindWay(lines[s], tag, way)
      {
        var line := lines[s][way];
        if line.valid && line.tag == tag {
          return ok, Some(way);
        }
        way := way + 1;
      }
    }

    method Read(r: Request) returns (ok: bool, reply: Response, hit: bool)
      requires Valid()
      ensures ok == Located(spec, Model(), r.address)
      ensures ok ==> (reply, hit) == CacheArrays.Read(spec, Model(), r)
      ensures !ok ==> !hit && reply == Response(r.id, ZERO_WORD, Ok)
    {
      reply, hit := Response(r.id, ZERO_WORD, Ok), false;
      var found: Option<nat>;
      ok, found := Lookup(r.address);
      if found.Some? {
        hit := true;
        reply := Response(r.id, ReadWord(spec, lines[SetOf(spec, r.address)][found.value].data, r.address), Ok);
      }
    }

    /** A store writes its enabled bytes into a resident line and marks it dirty, even with no byte enabled. */
    method Write(r: Request) returns (ok: bool, hit: bool)
      requires Valid()
      modifies this
      ensures Valid()
      ensures ok == (spec.writeback && (forall i | spec.wordBytes <= i < 8 :: !r.enables[i])
                     && Located(spec, old(Model()), r.address))
      ensures ok ==> (Model(), hit) == CacheArrays.Write(spec, old(Model()), r)
      ensures !ok ==> !hit && Model() == old(Model())
    {
      hit := false;
      ok := spec.writeback && (forall i | spec.wordBytes <= i < 8 :: !r.enables[i]);
      if !ok { return; }
      var found: Option<nat>;
      ok, found := Lookup(r.address);
      if found.None? { return; }
      hit := true;
      var s, way := SetOf(spec, r.address), found.value;
      var was := lines[s][way];
      var merged := MergeBytes(spec, was.data, r);
      lines := lines[s := lines[s][way := was.(dirty := true, data := merged)]];
    }

    /** Installs a line; the evicted copy is what a dirty occupant held. */
    method Fill(address: nat, data: Sector) returns (ok: bool, evicted: Option<Eviction>)
      requires Valid()
      modifies this
      ensures Valid()
      ensures ok == Located(spec, old(Model()), address)
      ensures ok ==> (Model(), evicted) == FillLine(spec, old(Model()), address, data)
      ensures !ok ==> evicted == None && Model() == old(Model())
    {
      evicted := None;
      var found: Option<nat>;
      ok, found := Lookup(address);
      if !ok { return; }
      var s := SetOf(spec, address);
      var way := fifo[s];
      if found.Some? {
        way := found.value;
      } else {
        evicted := Victim(spec, Model(), s, way);
      }
      lines := lines[s := lines[s][way := Line(true, false, TagOf(spec, address), data)]];
      fifo := fifo[s := (fifo[s] + 1) % spec.ways];
    }

    method FlushWay(s: nat, way: nat) returns (evicted: Option<Eviction>)
      requires Valid() && s < spec.sets && way < spec.ways
      modifies this
      ensures Valid() && (Model(), evicted) == CacheArrays.FlushWay(spec, old(Model()), s, way)
    {
      evicted := Victim(spec, Model(), s, way);
      lines := lines[s := lines[s][way := lines[s][way].(valid := false, dirty := false)]];
    }

    /** The loop with which a read-only bank clears a set. */
    method FlushSet(s: nat)
      requires Valid() && s < spec.sets
      modifies this
      ensures Valid() && Model() == CacheArrays.FlushSet(spec, old(Model()), s, spec.ways)
    {
      var way := 0;
      while way < spec.ways
        invariant way <= spec.ways && Valid()
        invariant Model() == CacheArrays.FlushSet(spec, old(Model()), s, way)
      {
        var _ := FlushWay(s, way);
        way := way + 1;
      }
    }
  }

  /** The byte loop of a store. */
  method MergeBytes(c: Spec, s: Sector, r: Request) returns (merged: Sector)
    requires c.Valid()
    ensures merged == Merge(c, s, r)
  {
    merged := s;
    var offset := WordOffset(c, r.address);
    var i := 0;
    while i < c.wordBytes
      invariant i <= c.wordBytes
      invariant forall k | 0 <= k < SECTOR_BYTES :: merged[k] ==
                  if offset <= k < offset + i && r.enables[k - offset] then r.data[k - offset] else s[k]
    {
      if r.enables[i] {
        merged := merged[offset + i := r.data[i]];
      }
      i := i + 1;
    }
  }
}
