/** The residency table: where every tracked logical block lives, with derived counters and indexes. */
module Residencies {
  import opened Blocks

  /** The table proper: dictionary order, locations, and the CPU-membership version. */
  datatype Table = Table(order: seq<BlockRef>, blocks: map<BlockRef, Location>, version: nat)

  ghost predicate LocationOk(l: Location) {
    && l.gpu.Some?
    && (l.residency != GPU ==> l.cpuSlot.Some?)
    && (l.residency == STAGING <==> l.stagingSlot.Some?)
  }

  ghost predicate TableOk(t: Table) {
    && Distinct(t.order)
    && ToSet(t.order) == t.blocks.Keys
    && (forall r :: r in t.blocks ==> LocationOk(t.blocks[r]))
  }

  predicate Resides(t: Table, r: BlockRef, where: Residency) {
    r in t.blocks && t.blocks[r].residency == where
  }

  ghost function CpuSet(blocks: map<BlockRef, Location>): (s: set<BlockRef>) {
    set r | r in blocks && blocks[r].residency == CPU
  }

  function Put(t: Table, r: BlockRef, l: Location): (t': Table) {
    Table(if r in t.blocks then t.order else t.order + [r],
          t.blocks[r := l],
          t.version + (if Resides(t, r, CPU) == (l.residency == CPU) then 0 else 1))
  }

  function MarkedGpu(t: Table, r: BlockRef, page: nat, complete: bool): (t': Table) {
    Put(t, r, Location(GPU, Some(page), if r in t.blocks then t.blocks[r].cpuSlot else None, None, complete))
  }

  function MarkedComplete(t: Table, r: BlockRef): (t': Table)
    requires r in t.blocks
  {
    Put(t, r, t.blocks[r].(complete := true))
  }

  function MarkedCpu(t: Table, r: BlockRef, slot: nat): (t': Table)
    requires r in t.blocks
  {
    Put(t, r, Location(CPU, t.blocks[r].gpu, Some(slot), None, t.blocks[r].complete))
  }

  function MarkedStaging(t: Table, r: BlockRef, slot: nat): (t': Table)
    requires r in t.blocks
  {
    Put(t, r, Location(STAGING, t.blocks[r].gpu, t.blocks[r].cpuSlot, Some(slot), t.blocks[r].complete))
  }

  function Removed(t: Table, r: BlockRef): (t': Table) {
    Table(Without(t.order, r), t.blocks - {r}, t.version + (if Resides(t, r, CPU) then 1 else 0))
  }

  /** Writing a location keeps the table well formed when the location itself is. */
  lemma PutKeepsTableOk(t: Table, r: BlockRef, l: Location)
    requires TableOk(t) && LocationOk(l)
    ensures TableOk(Put(t, r, l))
  {
    assert r in t.blocks ==> t.blocks[r := l].Keys == t.blocks.Keys;
    assert ToSet(t.order + [r]) == ToSet(t.order) + {r};
    assert r !in t.blocks ==> r !in ToSet(t.order);
  }

  lemma RemoveKeepsTableOk(t: Table, r: BlockRef)
    requires TableOk(t)
    ensures TableOk(Removed(t, r))
  {
    WithoutElements(t.order, r);
    assert ToSet(Without(t.order, r)) == ToSet(t.order) - {r};
  }

  /** The version moves exactly when membership in CPU-only residency moves. */
  lemma VersionCountsCpuChanges(t: Table, r: BlockRef, l: Location)
    ensures Put(t, r, l).version == t.version <==> CpuSet(Put(t, r, l).blocks) == CpuSet(t.blocks)
    ensures Removed(t, r).version == t.version <==> CpuSet(Removed(t, r).blocks) == CpuSet(t.blocks)
  {
    assert r in CpuSet(t.blocks) <==> Resides(t, r, CPU);
    assert r in CpuSet(Put(t, r, l).blocks) <==> l.residency == CPU;
    assert r !in CpuSet(Removed(t, r).blocks);
    assert Put(t, r, l).version == t.version ==> CpuSet(Put(t, r, l).blocks) == CpuSet(t.blocks);
    assert Removed(t, r).version == t.version ==> CpuSet(Removed(t, r).blocks) == CpuSet(t.blocks);
  }

  /** A request's blocks as a scan of the table would list them: its keys, in ascending index order. */
  ghost function BlocksOf(blocks: map<BlockRef, Location>, q: string): (s: set<BlockRef>) {
    set r | r in blocks && r.req == q
  }

  ghost predicate IsRequestListing(blocks: map<BlockRef, Location>, req: string, refs: seq<BlockRef>) {
    && (forall r :: r in refs <==> r in blocks && r.req == req)
    && (forall i, j :: 0 <= i < j < |refs| ==> refs[i].idx < refs[j].idx)
  }

  /** When a request's indices are contiguous from 0, its listing is RefsOf. */
  lemma {:induction false} ContiguousListing(blocks: map<BlockRef, Location>, req: string, n: nat, refs: seq<BlockRef>)
    requires IsRequestListing(blocks, req, refs)
    requires forall i: nat :: BlockRef(req, i) in blocks <==> i < n
    ensures refs == RefsOf(req, n)
  {
    ListingPrefix(blocks, req, n, refs, |refs|);
    var k := |refs|;
    assert k < n ==> BlockRef(req, k) in blocks;
  }

  lemma {:induction false} ListingPrefix(blocks: map<BlockRef, Location>, req: string, n: nat, refs: seq<BlockRef>,
                                         k: nat)
    requires IsRequestListing(blocks, req, refs)
    requires forall i: nat :: BlockRef(req, i) in blocks <==> i < n
    requires k <= |refs|
    ensures k <= n && forall i :: 0 <= i < k ==> refs[i] == BlockRef(req, i)
  {
    if k > 0 {
      ListingPrefix(blocks, req, n, refs, k - 1);
      var last := refs[k - 1];
      assert last in refs;
      assert last == BlockRef(req, last.idx);
      if k - 1 < last.idx {
        var missed := BlockRef(req, k - 1);
        assert missed in blocks;
        var j :| 0 <= j < |refs| && refs[j] == missed;
      }
      if k > 1 { assert refs[k - 2] == BlockRef(req, k - 2); }
    }
  }

  /** sorted(...) of a finite set of indices. */
  function Sorted(s: set<nat>): (r: seq<nat>) {
    if s == {} then []
    else
      LeastExists(s);
      var m :| m in s && forall x :: x in s ==> m <= x;
      [m] + Sorted(s - {m})
  }

  ghost predicate Increasing(r: seq<nat>) {
    forall i, j :: 0 <= i < j < |r| ==> r[i] < r[j]
  }

  lemma {:induction false} SortedFacts(s: set<nat>)
    ensures forall x :: x in Sorted(s) <==> x in s
    ensures Increasing(Sorted(s))
  {
    if s != {} {
      LeastExists(s);
      var m := Sorted(s)[0];
      var rest := Sorted(s - {m});
      SortedFacts(s - {m});
      assert Sorted(s) == [m] + rest && m in s && forall x :: x in s ==> m <= x;
      hide Sorted;
      forall k | 0 <= k < |rest| ensures m < rest[k] {
        assert rest[k] in rest;
      }
      assert forall x :: x in [m] + rest <==> x == m || x in rest;
    }
  }

  lemma LeastExists(s: set<nat>)
    requires s != {}
    ensures exists m :: m in s && forall x :: x in s ==> m <= x
  {
    var x :| x in s;
    LeastFrom(s, 0, x);
  }

  lemma {:induction false} LeastFrom(s: set<nat>, k: nat, x: nat)
    requires x in s && k <= x && forall y :: y in s ==> k <= y
    ensures exists m :: m in s && forall x :: x in s ==> m <= x
    decreases x - k
  {
    if k !in s {
      LeastFrom(s, k + 1, x);
    }
  }

  /** The derived fields agree with a scan of the table: the CPU counter counts, and the
      per-request index holds exactly the table's keys with no empty entry. */
  ghost predicate Agree(t: Table, numCpu: int, byRequest: map<string, map<nat, BlockRef>>) {
    TableOk(t) && numCpu == |CpuSet(t.blocks)| && Indexed(t.blocks, byRequest)
  }

  lemma AgreeTableOk(t: Table, numCpu: int, byRequest: map<string, map<nat, BlockRef>>)
    requires Agree(t, numCpu, byRequest)
    ensures TableOk(t)
  {
  }

  lemma TableLocations(t: Table)
    requires TableOk(t)
    ensures forall r :: r in t.blocks ==> LocationOk(t.blocks[r])
  {
  }

  ghost predicate Indexed(blocks: map<BlockRef, Location>, index: map<string, map<nat, BlockRef>>) {
    && (forall r :: r in blocks ==> r.req in index && r.idx in index[r.req])
    && (forall q :: q in index ==> index[q] != map[])
    && (forall q, i :: q in index && i in index[q] ==> index[q][i] == BlockRef(q, i) && BlockRef(q, i) in blocks)
  }

  function IndexAdded(index: map<string, map<nat, BlockRef>>, r: BlockRef): (index': map<string, map<nat, BlockRef>>) {
    index[r.req := (if r.req in index then index[r.req] else map[])[r.idx := r]]
  }

  function IndexDropped(index: map<string, map<nat, BlockRef>>, r: BlockRef)
    : (index': map<string, map<nat, BlockRef>>)
  {
    if r.req !in index then index
    else
      var inner := index[r.req] - {r.idx};
      if inner == map[] then index - {r.req} else index[r.req := inner]
  }

  lemma IndexAfterPut(blocks: map<BlockRef, Location>, r: BlockRef, l: Location, index: map<string, map<nat, BlockRef>>)
    requires Indexed(blocks, index)
    ensures Indexed(blocks[r := l], IndexAdded(index, r))
  {
    var after := IndexAdded(index, r);
    forall q | q in after ensures after[q] != map[] {
      assert q == r.req ==> r.idx in after[q];
    }
    forall k | k in blocks[r := l] ensures k.req in after && k.idx in after[k.req] {
      assert k == r || k in blocks;
    }
    forall q, i | q in after && i in after[q]
      ensures after[q][i] == BlockRef(q, i) && BlockRef(q, i) in blocks[r := l]
    {
      assert (q == r.req && i == r.idx) || (q in index && i in index[q]);
    }
  }

  lemma IndexUnchanged(blocks: map<BlockRef, Location>, r: BlockRef, index: map<string, map<nat, BlockRef>>)
    requires Indexed(blocks, index) && r in blocks
    ensures IndexAdded(index, r) == index
  {
    assert index[r.req][r.idx] == BlockRef(r.req, r.idx) == r;
    assert index[r.req][r.idx := r] == index[r.req];
  }

  lemma IndexAfterRemove(blocks: map<BlockRef, Location>, r: BlockRef, index: map<string, map<nat, BlockRef>>)
    requires Indexed(blocks, index) && r in blocks
    ensures Indexed(blocks - {r}, IndexDropped(index, r))
  {
    var inner, index' := index[r.req] - {r.idx}, IndexDropped(index, r);
    forall k | k in blocks && k != r ensures k.req in index' && k.idx in index'[k.req] {
      assert k.idx in index[k.req];
      if k.req == r.req {
        assert k.idx in inner;
      }
    }
    forall q, i | q in index' && i in index'[q]
      ensures index'[q][i] == BlockRef(q, i) && BlockRef(q, i) in blocks - {r}
    {
      assert q in index && i in index[q] && index'[q][i] == index[q][i];
    }
  }

  lemma CountAfterPut(t: Table, r: BlockRef, l: Location)
    ensures |CpuSet(t.blocks[r := l])| ==
      |CpuSet(t.blocks)| - (if Resides(t, r, CPU) then 1 else 0) + (if l.residency == CPU then 1 else 0)
  {
    var before, after := CpuSet(t.blocks), CpuSet(t.blocks[r := l]);
    if l.residency == CPU {
      assert after == before + {r};
    } else {
      assert after == before - {r};
    }
  }

  /** Every write of a location keeps counter and index in agreement with the table. */
  lemma PutAgrees(t: Table, r: BlockRef, l: Location, numCpu: int, index: map<string, map<nat, BlockRef>>)
    requires Agree(t, numCpu, index) && LocationOk(l)
    ensures Agree(Put(t, r, l),
                  numCpu - (if Resides(t, r, CPU) then 1 else 0) + (if l.residency == CPU then 1 else 0),
                  IndexAdded(index, r))
    ensures r in t.blocks ==> IndexAdded(index, r) == index
  {
    hide TableOk, Indexed, CpuSet;
    PutKeepsTableOk(t, r, l);
    CountAfterPut(t, r, l);
    IndexAfterPut(t.blocks, r, l, index);
    if r in t.blocks { IndexUnchanged(t.blocks, r, index); }
  }

  lemma RemoveAgrees(t: Table, r: BlockRef, numCpu: int, index: map<string, map<nat, BlockRef>>)
    requires Agree(t, numCpu, index) && r in t.blocks
    ensures Agree(Removed(t, r), numCpu - (if Resides(t, r, CPU) then 1 else 0), IndexDropped(index, r))
  {
    hide TableOk, Indexed;
    RemoveKeepsTableOk(t, r);
    assert CpuSet(t.blocks - {r}) == CpuSet(t.blocks) - {r};
    IndexAfterRemove(t.blocks, r, index);
  }

  lemma AgreeLocation(t: Table, numCpu: int, index: map<string, map<nat, BlockRef>>, r: BlockRef)
    requires Agree(t, numCpu, index)
    ensures r in t.blocks ==> LocationOk(t.blocks[r])
  {
    hide Indexed, CpuSet, ToSet;
  }

  /** While the counter is at 0, nothing is on the CPU. */
  lemma NoneCounted(t: Table, numCpu: int, index: map<string, map<nat, BlockRef>>)
    requires Agree(t, numCpu, index) && numCpu <= 0
    ensures forall r :: r in t.blocks ==> t.blocks[r].residency != CPU
  {
    hide Indexed, TableOk;
    assert CpuSet(t.blocks) == {};
    assert forall r :: r in t.blocks && t.blocks[r].residency == CPU ==> r in CpuSet(t.blocks);
  }

  class ResidencyTable {
    var order: seq<BlockRef>
    var blocks: map<BlockRef, Location>
    var numCpu: int
    var cpuVersion: nat
    var byRequest: map<string, map<nat, BlockRef>>

    ghost function View(): (t: Table)
      reads this
    {
      Table(order, blocks, cpuVersion)
    }

    ghost predicate Valid()
      reads this
    {
      Agree(View(), numCpu, byRequest)
    }

    constructor ()
      ensures Valid() && View() == Table([], map[], 0)
    {
      order, blocks, numCpu, cpuVersion, byRequest := [], map[], 0, 0, map[];
      new;
      assert CpuSet(blocks) == {};
    }

    /** blocks[r] = l, as a dictionary assignment. */
    method Assign(r: BlockRef, l: Location)
      modifies this`order, this`blocks
      ensures order == if r in old(blocks) then old(order) else old(order) + [r]
      ensures blocks == old(blocks)[r := l]
    {
      if r !in blocks {
        order := order + [r];
      }
      blocks := blocks[r := l];
    }

    method MarkGpu(r: BlockRef, page: nat, complete: bool)
      requires Valid()
      modifies this
      ensures Valid() && View() == MarkedGpu(old(View()), r, page, complete)
    {
      hide Agree;
      var l := Location(GPU, Some(page), if r in blocks then blocks[r].cpuSlot else None, None, complete);
      PutAgrees(View(), r, l, numCpu, byRequest);
      if r in blocks && blocks[r].residency == CPU {
        numCpu := numCpu - 1;
        cpuVersion := cpuVersion + 1;
      }
      Assign(r, l);
      byRequest := IndexAdded(byRequest, r);
    }

    method MarkComplete(r: BlockRef) returns (ok: bool)
      requires Valid()
      modifies this
      ensures Valid() && ok == (r in old(blocks))
      ensures View() == if ok then MarkedComplete(old(View()), r) else old(View())
    {
      hide Agree;
      AgreeLocation(View(), numCpu, byRequest, r);
      ok := r in blocks;
      if ok {
        PutAgrees(View(), r, blocks[r].(complete := true), numCpu, byRequest);
        Assign(r, blocks[r].(complete := true));
      }
    }

    /** Fails, as the code raises, when the block is unknown. */
    method MarkCpu(r: BlockRef, slot: nat) returns (ok: bool)
      requires Valid()
      modifies this
      ensures Valid() && ok == (r in old(blocks))
      ensures View() == if ok then MarkedCpu(old(View()), r, slot) else old(View())
    {
      hide Agree;
      AgreeLocation(View(), numCpu, byRequest, r);
      ok := r in blocks && blocks[r].gpu.Some?;
      if ok {
        var l := Location(CPU, blocks[r].gpu, Some(slot), None, blocks[r].complete);
        PutAgrees(View(), r, l, numCpu, byRequest);
        if blocks[r].residency != CPU {
          numCpu := numCpu + 1;
          cpuVersion := cpuVersion + 1;
        }
        Assign(r, l);
      }
    }

    /** Fails when the block is unknown or has no CPU copy. */
    method MarkStaging(r: BlockRef, slot: nat) returns (ok: bool)
      requires Valid()
      modifies this
      ensures Valid() && ok == (r in old(blocks) && old(blocks)[r].cpuSlot.Some?)
      ensures View() == if ok then MarkedStaging(old(View()), r, slot) else old(View())
    {
      hide Agree;
      AgreeLocation(View(), numCpu, byRequest, r);
      ok := r in blocks && blocks[r].cpuSlot.Some?;
      if ok {
        var l := Location(STAGING, blocks[r].gpu, blocks[r].cpuSlot, Some(slot), blocks[r].complete);
        PutAgrees(View(), r, l, numCpu, byRequest);
        if blocks[r].residency == CPU {
          numCpu := numCpu - 1;
          cpuVersion := cpuVersion + 1;
        }
        Assign(r, l);
      }
    }

    method Remove(r: BlockRef) returns (was: Option<Location>)
      requires Valid()
      modifies this
      ensures Valid() && View() == Removed(old(View()), r)
      ensures was == if r in old(blocks) then Some(old(blocks)[r]) else None
    {
      hide Agree;
      AgreeLocation(View(), numCpu, byRequest, r);
      was := None;
      if r in blocks {
        was := Some(blocks[r]);
        RemoveAgrees(View(), r, numCpu, byRequest);
        byRequest := IndexDropped(byRequest, r);
        if blocks[r].residency == CPU {
          numCpu := numCpu - 1;
          cpuVersion := cpuVersion + 1;
        }
        order, blocks := Without(order, r), blocks - {r};
      } else {
        RemoveUnknown(View(), numCpu, byRequest, r);
      }
    }

    /** Complete GPU-resident blocks (or all GPU-resident ones), in dictionary order. */
    method AllGpuBlocks(completeOnly: bool) returns (refs: seq<BlockRef>)
      requires Valid()
      ensures refs == GpuBlocks(View(), completeOnly)
    {
      hide Agree;
      refs := [];
      var i := 0;
      while i < |order|
        invariant 0 <= i <= |order|
        invariant refs == Filter(IsGpu(blocks, completeOnly), order[..i])
      {
        if IsGpu(blocks, completeOnly)(order[i]) {
          refs := refs + [order[i]];
        }
        i := i + 1;
        assert order[..i][..i - 1] == order[..i - 1];
      }
      assert order[..i] == order;
    }

    /** Served from the per-request index, yet equal to the sorted filter of the whole table. */
    method RefsForRequest(req: string) returns (refs: seq<BlockRef>)
      requires Valid()
      ensures IsRequestListing(blocks, req, refs)
    {
      hide Agree;
      refs := [];
      if req in byRequest {
        var inner := byRequest[req];
        IndexEntry(View(), numCpu, byRequest, req);
        var idxs := Sorted(inner.Keys);
        SortedFacts(inner.Keys);
        var i := 0;
        while i < |idxs|
          invariant 0 <= i <= |idxs| && |refs| == i
          invariant forall k :: 0 <= k < i ==> refs[k] == BlockRef(req, idxs[k])
        {
          assert idxs[i] in idxs;
          refs := refs + [inner[idxs[i]]];
          i := i + 1;
        }
        ListingFromIndex(blocks, req, inner, idxs, refs);
      } else {
        NoIndexEntry(View(), numCpu, byRequest, req);
      }
    }
  }

  lemma RemoveUnknown(t: Table, numCpu: int, index: map<string, map<nat, BlockRef>>, r: BlockRef)
    requires Agree(t, numCpu, index) && r !in t.blocks
    ensures Removed(t, r) == t
  {
    hide Indexed, CpuSet, LocationOk;
    assert r !in ToSet(t.order);
    WithoutAbsent(t.order, r);
    assert t.blocks - {r} == t.blocks;
  }

  lemma IndexEntry(t: Table, numCpu: int, index: map<string, map<nat, BlockRef>>, req: string)
    requires Agree(t, numCpu, index) && req in index
    ensures forall i :: i in index[req] ==> index[req][i] == BlockRef(req, i)
    ensures forall r :: r in t.blocks && r.req == req <==> r.idx in index[req] && r.req == req
  {
  }

  lemma NoIndexEntry(t: Table, numCpu: int, index: map<string, map<nat, BlockRef>>, req: string)
    requires Agree(t, numCpu, index) && req !in index
    ensures IsRequestListing(t.blocks, req, [])
  {
  }

  lemma ListingFromIndex(
      blocks: map<BlockRef, Location>, req: string, inner: map<nat, BlockRef>, idxs: seq<nat>, refs: seq<BlockRef>)
    requires forall r :: r in blocks && r.req == req <==> r.idx in inner && r.req == req
    requires forall x :: x in idxs <==> x in inner
    requires Increasing(idxs)
    requires |refs| == |idxs| && forall k :: 0 <= k < |refs| ==> refs[k] == BlockRef(req, idxs[k])
    ensures IsRequestListing(blocks, req, refs)
  {
    forall r | r in blocks && r.req == req ensures r in refs {
      assert r.idx in idxs;
      var k :| 0 <= k < |idxs| && idxs[k] == r.idx;
      assert refs[k] == r;
    }
    forall r | r in refs ensures r in blocks && r.req == req {
      var k :| 0 <= k < |refs| && refs[k] == r;
      assert idxs[k] in idxs;
    }
  }

  function IsGpu(blocks: map<BlockRef, Location>, completeOnly: bool): (keep: BlockRef -> bool) {
    r => r in blocks && blocks[r].residency == GPU && (blocks[r].complete || !completeOnly)
  }

  function GpuBlocks(t: Table, completeOnly: bool): (refs: seq<BlockRef>) {
    Filter(IsGpu(t.blocks, completeOnly), t.order)
  }
}
