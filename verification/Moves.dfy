/** What batches of moves do to the table and the free lists. */
module Moves {
  import opened Blocks
  import opened Residencies

  /** The slots n successive pops take from the end of a free list. */
  function Popped(free: seq<nat>, n: nat): (slots: seq<nat>)
    requires n <= |free|
    ensures |slots| == n
    ensures forall i :: 0 <= i < n ==> slots[i] == free[|free| - 1 - i]
  {
    seq(n, i requires 0 <= i < n => free[|free| - 1 - i])
  }

  lemma PoppedFacts(free: seq<nat>, n: nat)
    requires n <= |free| && Distinct(free)
    ensures Distinct(Popped(free, n)) && Distinct(free[..|free| - n])
    ensures forall s :: s in free <==> s in free[..|free| - n] || s in Popped(free, n)
    ensures forall s :: s in Popped(free, n) ==> s !in free[..|free| - n]
  {
    var slots, rest := Popped(free, n), free[..|free| - n];
    forall s | s in free ensures s in rest || s in slots {
      var k :| 0 <= k < |free| && free[k] == s;
      if k < |rest| { assert rest[k] == s; } else { assert slots[|free| - 1 - k] == s; }
    }
  }

  /** Writing the first n (block, location) pairs into the table, in order. */
  function PutN(t: Table, refs: seq<BlockRef>, locs: seq<Location>, n: nat): (t': Table)
    requires n <= |refs| == |locs|
  {
    if n == 0 then t else Put(PutN(t, refs, locs, n - 1), refs[n - 1], locs[n - 1])
  }

  lemma PutNStart(t: Table, refs: seq<BlockRef>, locs: seq<Location>)
    requires |refs| == |locs|
    ensures PutN(t, refs, locs, 0) == t
  {
  }

  lemma PutNStep(t: Table, refs: seq<BlockRef>, locs: seq<Location>, n: nat)
    requires n < |refs| == |locs|
    ensures PutN(t, refs, locs, n + 1) == Put(PutN(t, refs, locs, n), refs[n], locs[n])
  {
  }

  /** How many of the writes move a block into or out of CPU-only residency. */
  function Flips(t: Table, refs: seq<BlockRef>, locs: seq<Location>, n: nat): (k: nat)
    requires n <= |refs| == |locs|
  {
    if n == 0 then 0
    else Flips(t, refs, locs, n - 1)
         + (if Resides(t, refs[n - 1], CPU) == (locs[n - 1].residency == CPU) then 0 else 1)
  }

  lemma {:induction false} PutNWrites(t: Table, refs: seq<BlockRef>, locs: seq<Location>, n: nat, i: nat)
    requires i < n <= |refs| == |locs| && Distinct(refs)
    ensures refs[i] in PutN(t, refs, locs, n).blocks && PutN(t, refs, locs, n).blocks[refs[i]] == locs[i]
  {
    if i < n - 1 {
      PutNWrites(t, refs, locs, n - 1, i);
    }
  }

  lemma {:induction false} PutNKeeps(t: Table, refs: seq<BlockRef>, locs: seq<Location>, n: nat, r: BlockRef)
    requires n <= |refs| == |locs| && r !in refs[..n]
    ensures r in PutN(t, refs, locs, n).blocks <==> r in t.blocks
    ensures r in t.blocks ==> PutN(t, refs, locs, n).blocks[r] == t.blocks[r]
  {
    if n > 0 {
      assert refs[..n] == refs[..n - 1] + [refs[n - 1]];
      PutNKeeps(t, refs, locs, n - 1, r);
    }
  }

  lemma {:induction false} PutNVersion(t: Table, refs: seq<BlockRef>, locs: seq<Location>, n: nat)
    requires n <= |refs| == |locs| && Distinct(refs)
    ensures PutN(t, refs, locs, n).version == t.version + Flips(t, refs, locs, n)
  {
    if n > 0 {
      hide Distinct;
      DistinctLast(refs, n);
      PutNVersion(t, refs, locs, n - 1);
      PutNKeeps(t, refs, locs, n - 1, refs[n - 1]);
    }
  }

  lemma {:induction false} AllFlip(t: Table, refs: seq<BlockRef>, locs: seq<Location>, n: nat, toCpu: bool)
    requires n <= |refs| == |locs|
    requires forall i :: 0 <= i < n ==> (locs[i].residency == CPU) == toCpu
    ensures (forall i :: 0 <= i < n ==> Resides(t, refs[i], CPU) == toCpu) ==> Flips(t, refs, locs, n) == 0
    ensures (forall i :: 0 <= i < n ==> Resides(t, refs[i], CPU) != toCpu) ==> Flips(t, refs, locs, n) == n
  {
    if n > 0 {
      AllFlip(t, refs, locs, n - 1, toCpu);
    }
  }

  lemma {:induction false} PutNTableOk(t: Table, refs: seq<BlockRef>, locs: seq<Location>, n: nat)
    requires TableOk(t) && n <= |refs| == |locs|
    requires forall i :: 0 <= i < n ==> LocationOk(locs[i])
    ensures TableOk(PutN(t, refs, locs, n))
  {
    if n > 0 {
      PutNTableOk(t, refs, locs, n - 1);
      PutKeepsTableOk(PutN(t, refs, locs, n - 1), refs[n - 1], locs[n - 1]);
    }
  }

  /** The whole batch: exactly the named blocks take the given locations. */
  lemma PutAllFacts(t: Table, refs: seq<BlockRef>, locs: seq<Location>)
    requires |refs| == |locs| && Distinct(refs)
    ensures var t' := PutN(t, refs, locs, |refs|);
      && t'.version == t.version + Flips(t, refs, locs, |refs|)
      && t'.blocks.Keys == t.blocks.Keys + ToSet(refs)
      && (forall i :: 0 <= i < |refs| ==> t'.blocks[refs[i]] == locs[i])
      && (forall r :: r in t.blocks && r !in refs ==> t'.blocks[r] == t.blocks[r])
  {
    var t' := PutN(t, refs, locs, |refs|);
    assert refs[..|refs|] == refs;
    PutNVersion(t, refs, locs, |refs|);
    forall i | 0 <= i < |refs| ensures refs[i] in t'.blocks && t'.blocks[refs[i]] == locs[i] {
      PutNWrites(t, refs, locs, |refs|, i);
    }
    forall r | r !in refs
      ensures (r in t'.blocks <==> r in t.blocks) && (r in t.blocks ==> t'.blocks[r] == t.blocks[r])
    {
      PutNKeeps(t, refs, locs, |refs|, r);
    }
  }

  ghost predicate AllTracked(t: Table, refs: seq<BlockRef>) {
    forall i :: 0 <= i < |refs| ==> refs[i] in t.blocks
  }

  /** Where mark_cpu puts each block of a batch. */
  function CpuLocations(t: Table, refs: seq<BlockRef>, slots: seq<nat>): (locs: seq<Location>)
    requires |refs| <= |slots| && AllTracked(t, refs)
    ensures |locs| == |refs|
    ensures forall i :: 0 <= i < |refs| ==> locs[i] == OnCpu(t.blocks[refs[i]], slots[i])
  {
    seq(|refs|, i requires 0 <= i < |refs| => OnCpu(t.blocks[refs[i]], slots[i]))
  }

  /** Where mark_staging puts each block of a batch. */
  function StagingLocations(t: Table, refs: seq<BlockRef>, slots: seq<nat>): (locs: seq<Location>)
    requires |refs| <= |slots| && AllTracked(t, refs)
    ensures |locs| == |refs|
    ensures forall i :: 0 <= i < |refs| ==> locs[i] == OnStaging(t.blocks[refs[i]], slots[i])
  {
    seq(|refs|, i requires 0 <= i < |refs| => OnStaging(t.blocks[refs[i]], slots[i]))
  }

  function OnCpu(l: Location, slot: nat): (l': Location) {
    Location(CPU, l.gpu, Some(slot), None, l.complete)
  }

  function OnStaging(l: Location, slot: nat): (l': Location) {
    Location(STAGING, l.gpu, l.cpuSlot, Some(slot), l.complete)
  }
}
