/** The page pool as far as the engine relies on it, and the reservation of its tail for staging. */
module Allocation {
  import opened Blocks

  /** Pages nobody references can be handed out; the null page never is. */
  ghost predicate PoolOk(refCnt: seq<nat>, free: set<nat>, nullPage: nat) {
    forall p :: p in free <==> 0 <= p < |refCnt| && p != nullPage && refCnt[p] == 0
  }

  /** One reference more on every page of the list. */
  function Touched(refCnt: seq<nat>, pages: seq<nat>, n: nat): (r: seq<nat>)
    requires n <= |pages| && forall p :: p in pages ==> p < |refCnt|
    ensures |r| == |refCnt|
  {
    if n == 0 then refCnt
    else
      var r := Touched(refCnt, pages, n - 1);
      assert pages[n - 1] in pages;
      r[pages[n - 1] := r[pages[n - 1]] + 1]
  }

  /** One reference less on every page of the list. */
  function Dropped(refCnt: seq<nat>, pages: seq<nat>): (r: seq<nat>)
    ensures |r| == |refCnt|
  {
    if pages == [] then refCnt
    else DropOne(Dropped(refCnt, pages[..|pages| - 1]), pages[|pages| - 1])
  }

  function DropOne(refCnt: seq<nat>, p: nat): (r: seq<nat>)
    ensures |r| == |refCnt|
  {
    if p < |refCnt| && refCnt[p] > 0 then refCnt[p := refCnt[p] - 1] else refCnt
  }

  lemma DroppedSnoc(refCnt: seq<nat>, pages: seq<nat>, p: nat)
    ensures Dropped(refCnt, pages + [p]) == DropOne(Dropped(refCnt, pages), p)
  {
    assert (pages + [p])[..|pages|] == pages;
  }

  lemma {:induction false} TouchedAt(refCnt: seq<nat>, pages: seq<nat>, n: nat, p: nat)
    requires n <= |pages| && (forall x :: x in pages ==> x < |refCnt|) && p < |refCnt| && Distinct(pages)
    ensures Touched(refCnt, pages, n)[p] == refCnt[p] + if p in pages[..n] then 1 else 0
  {
    if n > 0 {
      DistinctLast(pages, n);
      TouchedAt(refCnt, pages, n - 1, p);
      assert pages[..n] == pages[..n - 1] + [pages[n - 1]];
    }
  }

  function AllBut(n: nat, nullPage: nat): (s: set<nat>)
    ensures forall p :: p in s <==> 0 <= p < n && p != nullPage
  {
    if n == 0 then {} else AllBut(n - 1, nullPage) + (if n - 1 == nullPage then {} else {n - 1})
  }

  class BlockPool {
    const nullPage: nat
    var refCnt: seq<nat>
    var free: set<nat>

    ghost predicate Valid()
      reads this
    {
      PoolOk(refCnt, free, nullPage)
    }

    constructor (n: nat, nullPage: nat)
      ensures Valid() && this.nullPage == nullPage && |refCnt| == n && forall p :: 0 <= p < n ==> refCnt[p] == 0
    {
      this.nullPage := nullPage;
      refCnt := seq(n, _ => 0);
      free := AllBut(n, nullPage);
    }

    method Touch(pages: seq<nat>)
      requires Valid() && forall p :: p in pages ==> p < |refCnt|
      modifies this
      ensures Valid() && refCnt == Touched(old(refCnt), pages, |pages|)
    {
      for i := 0 to |pages|
        invariant |refCnt| == |old(refCnt)| && PoolOk(refCnt, free, nullPage)
        invariant refCnt == Touched(old(refCnt), pages, i)
      {
        var p := pages[i];
        assert p in pages;
        if refCnt[p] == 0 && p != nullPage { free := free - {p}; }
        refCnt := refCnt[p := refCnt[p] + 1];
      }
    }

    /** Pages whose last reference goes become allocatable again. */
    method FreeBlocks(pages: seq<nat>)
      requires Valid() && forall p :: p in pages ==> p < |refCnt|
      modifies this
      ensures Valid() && refCnt == Dropped(old(refCnt), pages)
    {
      for i := 0 to |pages|
        invariant |refCnt| == |old(refCnt)| && PoolOk(refCnt, free, nullPage)
        invariant refCnt == Dropped(old(refCnt), pages[..i])
      {
        var p := pages[i];
        assert p in pages;
        assert pages[..i + 1] == pages[..i] + [p];
        DroppedSnoc(old(refCnt), pages[..i], p);
        refCnt := refCnt[p := if refCnt[p] == 0 then 0 else refCnt[p] - 1];
        if refCnt[p] == 0 && p != nullPage { free := free + {p}; }
      }
      assert pages[..|pages|] == pages;
    }
  }

  function Range(lo: nat, n: nat): (s: seq<nat>)
    ensures |s| == n && forall i :: 0 <= i < n ==> s[i] == lo + i
  {
    seq(n, i requires 0 <= i < n => lo + i)
  }

  lemma RangeElements(lo: nat, n: nat)
    ensures Distinct(Range(lo, n)) && forall p :: p in Range(lo, n) <==> lo <= p < lo + n
  {
    forall p | lo <= p < lo + n ensures p in Range(lo, n) {
      assert Range(lo, n)[p - lo] == p;
    }
  }

  /** The last k pages are referenced by nobody, and the null page is not among them. */
  ghost predicate TailUnused(refCnt: seq<nat>, nullPage: nat, k: int) {
    forall p :: 0 <= p < |refCnt| && |refCnt| - k <= p ==> p != nullPage && refCnt[p] == 0
  }

  /** Takes the last pages out of the allocator's hands for good, before anything is allocated. */
  method ReserveStagingTail(pool: BlockPool, numSlots: int) returns (res: Result<seq<nat>>)
    requires pool.Valid()
    modifies pool
    ensures pool.Valid() && |pool.refCnt| == |old(pool.refCnt)|
    ensures numSlots <= 0 ==> res == Ok([]) && pool.refCnt == old(pool.refCnt)
    ensures 0 < numSlots ==>
      (res.Ok? <==> numSlots < |pool.refCnt| && TailUnused(old(pool.refCnt), pool.nullPage, numSlots))
    ensures res.Err? ==> pool.refCnt == old(pool.refCnt) && (res.error == ValueError || res.error == RuntimeError)
    ensures res.Ok? && 0 < numSlots ==>
      && res.value == Range(|pool.refCnt| - numSlots, numSlots)
      && (forall p :: 0 <= p < |pool.refCnt| ==>
            pool.refCnt[p] == if p >= |pool.refCnt| - numSlots then 1 else old(pool.refCnt)[p])
      && (forall p :: p in pool.free ==> p < |pool.refCnt| - numSlots)
  {
    if numSlots <= 0 { return Ok([]); }
    var n := |pool.refCnt|;
    if numSlots >= n { return Err(ValueError); }
    var ids := Range(n - numSlots, numSlots);
    RangeElements(n - numSlots, numSlots);
    for i := 0 to |ids|
      invariant forall k :: 0 <= k < i ==> ids[k] != pool.nullPage && pool.refCnt[ids[k]] == 0
      invariant pool.refCnt == old(pool.refCnt) && pool.Valid()
    {
      assert ids[i] in ids && pool.refCnt[ids[i]] == old(pool.refCnt)[ids[i]];
      if ids[i] == pool.nullPage { return Err(ValueError); }
      if pool.refCnt[ids[i]] != 0 { return Err(RuntimeError); }
    }
    forall p | n - numSlots <= p < n ensures p != pool.nullPage && pool.refCnt[p] == 0 {
      assert ids[p - (n - numSlots)] == p;
    }
    forall p | 0 <= p < n
      ensures Touched(pool.refCnt, ids, |ids|)[p] == pool.refCnt[p] + if p >= n - numSlots then 1 else 0
    {
      TouchedAt(pool.refCnt, ids, |ids|, p);
      assert ids[..|ids|] == ids;
    }
    pool.Touch(ids);
    return Ok(ids);
  }

  /** A fresh pool with its tail reserved is the engine's starting point: no page but the tail has a
      reference, and no page of the tail can be handed out. */
  method StartPool(n: nat, numSlots: nat, nullPage: nat) returns (pool: BlockPool, res: Result<seq<nat>>)
    requires 0 < numSlots < n && nullPage < n - numSlots
    ensures pool.Valid() && res.Ok? && |pool.refCnt| == n
    ensures forall p :: 0 <= p < n && p != nullPage ==> pool.refCnt[p] == if p >= n - numSlots then 1 else 0
    ensures forall p :: p in pool.free <==> 0 <= p < n - numSlots && p != nullPage
  {
    pool := new BlockPool(n, nullPage);
    res := ReserveStagingTail(pool, numSlots);
  }
}
