/** What every fetch keeps, and exactly what it does. */
module StagingTheory {
  import opened Blocks
  import opened Ranking
  import opened Residencies
  import opened Layout
  import opened Scoring
  import opened Moves
  import opened Staging

  /** Slot bookkeeping of a plan: which slots are handed out and which stay where they are. */
  ghost predicate SlotsMove(p: Pool, plan: Plan, slots: seq<nat>, numSlots: nat)
    requires plan.fromFree <= |p.free| && plan.evict <= |plan.ranking|
  {
    var out, rest := plan.ranking[..plan.evict], p.free[..|p.free| - plan.fromFree];
    && Distinct(slots)
    && (forall s :: s in slots ==> s < numSlots && s !in rest)
    && (forall s :: s in p.free ==> s in rest || s in slots)
    && (forall s :: s in rest ==> s in p.free)
    && (forall r :: r in p.slot && r !in out ==> p.slot[r] !in slots)
    && (forall r :: r in p.slot && r in out ==> p.slot[r] in slots)
  }

  lemma PlannedSlotsMove(p: Pool, t: Table, plan: Plan, numSlots: nat)
    requires Partition(p, numSlots) && PlanFits(p, t, plan)
    ensures SlotsMove(p, plan, PlannedSlots(p, t, plan), numSlots)
    ensures Distinct(p.free[..|p.free| - plan.fromFree])
  {
    var v, e, ff := plan.ranking, plan.evict, plan.fromFree;
    var slots := PlannedSlots(p, t, plan);
    PoppedFacts(p.free, ff);
    VictimSlotsFacts(p, t, plan, numSlots);
    var a, b := Popped(p.free, ff), SlotsOf(p.slot, v)[..e];
    hide Popped, SlotsOf, Partition, PlanFits;
    ConcatDistinct(a, b);
  }

  lemma VictimSlotsFacts(p: Pool, t: Table, plan: Plan, numSlots: nat)
    requires Partition(p, numSlots) && PlanFits(p, t, plan)
    ensures var b, out := SlotsOf(p.slot, plan.ranking)[..plan.evict], plan.ranking[..plan.evict];
      && Distinct(b)
      && (forall s :: s in b ==> s < numSlots && s !in p.free)
      && (forall r :: r in p.slot ==> (p.slot[r] in b <==> r in out))
      && (forall s :: s in p.free ==> s < numSlots)
      && (forall r :: r in p.slot ==> p.slot[r] !in p.free)
  {
    var v, e := plan.ranking, plan.evict;
    var b, out := SlotsOf(p.slot, v)[..e], v[..e];
    forall r | r in p.slot && r in out ensures p.slot[r] in b {
      var j :| 0 <= j < e && v[j] == r;
      assert b[j] == p.slot[r];
    }
    forall r | r in p.slot && p.slot[r] in b ensures r in out {
      var j :| 0 <= j < e && b[j] == p.slot[r];
      assert p.slot[v[j]] == p.slot[r];
      assert out[j] == r;
    }
  }

  ghost predicate MovedSlots(p: Pool, plan: Plan, slots: seq<nat>, slot': map<BlockRef, nat>)
    requires plan.evict <= |plan.ranking|
  {
    var out := plan.ranking[..plan.evict];
    && |slots| == |plan.taken|
    && (forall r :: r in slot' <==> (r in p.slot && r !in out) || r in plan.taken)
    && (forall i :: 0 <= i < |slots| ==> slot'[plan.taken[i]] == slots[i])
    && (forall r :: r in p.slot && r !in out ==> slot'[r] == p.slot[r])
    && (forall r :: r in plan.taken ==> r !in p.slot)
  }

  /** The occupancy map after a successful fetch, block by block. */
  lemma FetchedSlots(p: Pool, t: Table, plan: Plan, numSlots: nat)
    requires Settled(p, t, numSlots) && PlanFits(p, t, plan)
    ensures MovedSlots(p, plan, PlannedSlots(p, t, plan), FetchedPool(p, t, plan).slot)
    ensures FetchedPool(p, t, plan).free == p.free[..|p.free| - plan.fromFree]
  {
    hide Partition, PutN, OccupiedBy, DropEach, ReservedSlots, Distinct, RankingOf, Ranked;
    var q := p.slot - ToSet(plan.ranking[..plan.evict]);
    var slots := PlannedSlots(p, t, plan);
    OccupiedByFacts(q, plan.taken, slots, |plan.taken|);
    assert plan.taken[..|plan.taken|] == plan.taken;
    forall r | r in plan.taken ensures r !in p.slot {
      var i :| 0 <= i < |plan.taken| && plan.taken[i] == r;
      assert Resides(t, r, CPU);
    }
  }

  lemma FetchedOrder(p: Pool, t: Table, plan: Plan, numSlots: nat)
    requires Settled(p, t, numSlots) && PlanFits(p, t, plan)
    requires Distinct(plan.order) && ToSet(plan.order) == ToSet(p.order)
    ensures var p' := FetchedPool(p, t, plan);
      && Distinct(p'.order) && ToSet(p'.order) == p'.slot.Keys
    ensures var p' := FailedPool(p, t, plan);
      && Distinct(p'.order) && ToSet(p'.order) == p'.slot.Keys
  {
    hide PutN, DropEach, OccupiedBy, Distinct, Mirrors, RankingOf, ReservedSlots;
    var kept := DropEach(plan.order, plan.ranking, plan.evict);
    DropEachFacts(plan.order, plan.ranking, plan.evict);
    FetchedSlots(p, t, plan, numSlots);
    forall r | r in kept ensures r !in plan.taken {
      assert r in ToSet(kept);
    }
    ConcatDistinct(kept, plan.taken);
    assert ToSet(kept + plan.taken) == ToSet(kept) + ToSet(plan.taken);
  }

  /** After a successful fetch the free list and the occupied slots still partition the pool. */
  lemma FetchedPartition(p: Pool, t: Table, plan: Plan, numSlots: nat)
    requires Settled(p, t, numSlots) && PlanFits(p, t, plan)
    requires Distinct(plan.order) && ToSet(plan.order) == ToSet(p.order)
    ensures Partition(FetchedPool(p, t, plan), numSlots)
  {
    hide Mirrors, RankingOf, PlanFits, MovedSlots, SlotsMove, FetchedPool, FailedPool, PlannedSlots;
    SettledParts(p, t, numSlots);
    PlanFitsBounds(p, t, plan);
    FetchedOrder(p, t, plan, numSlots);
    PlannedSlotsMove(p, t, plan, numSlots);
    FetchedSlots(p, t, plan, numSlots);
    var slots, p' := PlannedSlots(p, t, plan), FetchedPool(p, t, plan);
    SlotsStayApart(p, plan, slots, numSlots, p'.slot);
    SlotsCovered(p, plan, slots, numSlots, p'.slot);
    hide Distinct;
    forall s | s in p'.free ensures s < numSlots {
      assert s in p.free;
    }
  }

  lemma SlotsStayApart(p: Pool, plan: Plan, slots: seq<nat>, numSlots: nat, slot': map<BlockRef, nat>)
    requires Partition(p, numSlots) && plan.fromFree <= |p.free| && plan.evict <= |plan.ranking|
    requires SlotsMove(p, plan, slots, numSlots) && MovedSlots(p, plan, slots, slot')
    ensures var rest := p.free[..|p.free| - plan.fromFree];
      && (forall r :: r in slot' ==> slot'[r] < numSlots && slot'[r] !in rest)
      && (forall r, q :: r in slot' && q in slot' && slot'[r] == slot'[q] ==> r == q)
  {
    forall r | r in slot' ensures r in plan.taken <==> slot'[r] in slots {
      if r in plan.taken {
        var i :| 0 <= i < |slots| && plan.taken[i] == r;
        assert slots[i] in slots;
      }
    }
    forall r, q | r in slot' && q in slot' && slot'[r] == slot'[q] ensures r == q {
      if r in plan.taken {
        assert q in plan.taken;
        var i :| 0 <= i < |slots| && plan.taken[i] == r;
        var j :| 0 <= j < |slots| && plan.taken[j] == q;
        assert slots[i] == slots[j];
      }
    }
  }

  lemma SlotsCovered(p: Pool, plan: Plan, slots: seq<nat>, numSlots: nat, slot': map<BlockRef, nat>)
    requires Partition(p, numSlots) && plan.fromFree <= |p.free| && plan.evict <= |plan.ranking|
    requires SlotsMove(p, plan, slots, numSlots) && MovedSlots(p, plan, slots, slot')
    ensures var rest := p.free[..|p.free| - plan.fromFree];
      forall s :: 0 <= s < numSlots && s !in rest ==> exists r :: r in slot' && slot'[r] == s
  {
    var rest, out := p.free[..|p.free| - plan.fromFree], plan.ranking[..plan.evict];
    forall s | 0 <= s < numSlots && s !in rest ensures exists r :: r in slot' && slot'[r] == s {
      if s in slots {
        var i :| 0 <= i < |slots| && slots[i] == s;
        assert plan.taken[i] in slot' && slot'[plan.taken[i]] == s;
      } else {
        var r :| r in p.slot && p.slot[r] == s;
        assert r in slot' && slot'[r] == s;
      }
    }
  }

  lemma FailedFields(p: Pool, t: Table, plan: Plan)
    requires PlanFits(p, t, plan)
    ensures var p' := FailedPool(p, t, plan);
      && p'.free == p.free[..|p.free| - plan.fromFree] + PlannedSlots(p, t, plan)
      && (forall r :: r in p'.slot <==> r in p.slot && r !in plan.ranking[..plan.evict])
      && (forall r :: r in p'.slot ==> p'.slot[r] == p.slot[r])
  {
  }

  lemma FailedPartition(p: Pool, t: Table, plan: Plan, numSlots: nat)
    requires Settled(p, t, numSlots) && PlanFits(p, t, plan)
    requires Distinct(plan.order) && ToSet(plan.order) == ToSet(p.order)
    ensures Partition(FailedPool(p, t, plan), numSlots)
  {
    hide Mirrors, RankingOf, Distinct, FailedPool, FetchedPool, PlannedSlots, PlanFits, ToSet;
    PlanFitsBounds(p, t, plan);
    FetchedOrder(p, t, plan, numSlots);
    FailedFields(p, t, plan);
    PlannedSlotsMove(p, t, plan, numSlots);
    var slots, rest := PlannedSlots(p, t, plan), p.free[..|p.free| - plan.fromFree];
    var p' := FailedPool(p, t, plan);
    ConcatDistinct(rest, slots);
    FailedCovered(p, plan, slots, numSlots, p');
  }

  lemma FailedCovered(p: Pool, plan: Plan, slots: seq<nat>, numSlots: nat, p': Pool)
    requires Partition(p, numSlots) && plan.fromFree <= |p.free| && plan.evict <= |plan.ranking|
    requires SlotsMove(p, plan, slots, numSlots) && p'.free == p.free[..|p.free| - plan.fromFree] + slots
    requires forall r :: r in p'.slot <==> r in p.slot && r !in plan.ranking[..plan.evict]
    requires forall r :: r in p'.slot ==> p'.slot[r] == p.slot[r]
    ensures forall s :: 0 <= s < numSlots && s !in p'.free ==> exists r :: r in p'.slot && p'.slot[r] == s
  {
    forall s | 0 <= s < numSlots && s !in p'.free ensures exists r :: r in p'.slot && p'.slot[r] == s {
      var r :| r in p.slot && p.slot[r] == s;
      assert r in p'.slot && p'.slot[r] == s;
    }
  }

  /** Evicted blocks are back on the CPU slots they had; every other block is untouched. */
  lemma EvictedAt(p: Pool, t: Table, v: seq<BlockRef>, e: nat, r: BlockRef)
    requires RankingOf(p, t, v) && e <= |v|
    ensures r in EvictedTable(t, v, e).blocks <==> r in t.blocks
    ensures r in v[..e] ==>
      && r in t.blocks && t.blocks[r].cpuSlot.Some?
      && EvictedTable(t, v, e).blocks[r] == OnCpu(t.blocks[r], t.blocks[r].cpuSlot.value)
    ensures r in t.blocks && r !in v[..e] ==> EvictedTable(t, v, e).blocks[r] == t.blocks[r]
  {
    var locs := CpuLocations(t, v, CpuSlotsOf(t, v));
    if r in v[..e] {
      var j :| 0 <= j < e && v[j] == r;
      PutNWrites(t, v, locs, e, j);
    } else {
      PutNKeeps(t, v, locs, e, r);
    }
  }

  ghost predicate FetchMoves(t: Table, out: seq<BlockRef>, taken: seq<BlockRef>, slots: seq<nat>, t': Table) {
    && |taken| == |slots| && t'.blocks.Keys == t.blocks.Keys
    && (forall r :: r in out ==>
          && r in t.blocks && t.blocks[r].cpuSlot.Some?
          && t'.blocks[r] == OnCpu(t.blocks[r], t.blocks[r].cpuSlot.value))
    && (forall i :: 0 <= i < |taken| ==>
        taken[i] in t.blocks && t'.blocks[taken[i]] == OnStaging(t.blocks[taken[i]], slots[i]))
    && (forall r :: r in t.blocks && r !in out && r !in taken ==> t'.blocks[r] == t.blocks[r])
  }

  ghost predicate EvictMoves(t: Table, out: seq<BlockRef>, t': Table) {
    && t'.blocks.Keys == t.blocks.Keys
    && (forall r :: r in out ==>
          && r in t.blocks && t.blocks[r].residency == STAGING && t.blocks[r].cpuSlot.Some?
          && t'.blocks[r] == OnCpu(t.blocks[r], t.blocks[r].cpuSlot.value))
    && (forall r :: r in t.blocks && r !in out ==> t'.blocks[r] == t.blocks[r])
  }

  lemma EvictedMoves(p: Pool, t: Table, v: seq<BlockRef>, e: nat)
    requires RankingOf(p, t, v) && e <= |v|
    ensures EvictMoves(t, v[..e], EvictedTable(t, v, e))
  {
    hide EvictedTable, Distinct;
    var t' := EvictedTable(t, v, e);
    forall r ensures r in t'.blocks <==> r in t.blocks {
      EvictedAt(p, t, v, e, r);
    }
    forall r | r in v[..e]
      ensures r in t.blocks && t.blocks[r].residency == STAGING && t.blocks[r].cpuSlot.Some?
      ensures t'.blocks[r] == OnCpu(t.blocks[r], t.blocks[r].cpuSlot.value)
    {
      EvictedAt(p, t, v, e, r);
      var j :| 0 <= j < e && v[j] == r;
      assert Resides(t, v[j], STAGING);
    }
    forall r | r in t.blocks && r !in v[..e] ensures t'.blocks[r] == t.blocks[r] {
      EvictedAt(p, t, v, e, r);
    }
  }

  lemma TakenOnCpu(p: Pool, t: Table, plan: Plan, r: BlockRef)
    requires PlanFits(p, t, plan) && r in plan.taken
    ensures Resides(t, r, CPU)
  {
    var i :| 0 <= i < |plan.taken| && plan.taken[i] == r;
    assert Resides(t, plan.taken[i], CPU);
  }

  /** The table after a successful fetch, block by block. */
  lemma FetchedMoves(p: Pool, t: Table, plan: Plan)
    requires PlanFits(p, t, plan)
    ensures FetchMoves(t, plan.ranking[..plan.evict], plan.taken, PlannedSlots(p, t, plan), FetchedTable(p, t, plan))
  {
    hide PutN, EvictedTable, Distinct, ReservedSlots;
    var slots, out := PlannedSlots(p, t, plan), plan.ranking[..plan.evict];
    var t1, t' := EvictedTable(t, plan.ranking, plan.evict), FetchedTable(p, t, plan);
    hide RankingOf;
    EvictedMoves(p, t, plan.ranking, plan.evict);
    PutAllFacts(t1, plan.taken, StagingLocations(t, plan.taken, slots));
    forall r | r in plan.taken ensures Resides(t, r, CPU) && r !in out {
      TakenOnCpu(p, t, plan, r);
    }
    assert t'.blocks.Keys == t.blocks.Keys;
    forall i | 0 <= i < |plan.taken|
      ensures t'.blocks[plan.taken[i]] == OnStaging(t.blocks[plan.taken[i]], slots[i])
    {
      assert t'.blocks[plan.taken[i]] == StagingLocations(t, plan.taken, slots)[i];
    }
  }

  lemma FetchedMirrors(p: Pool, t: Table, plan: Plan, numSlots: nat)
    requires Settled(p, t, numSlots) && PlanFits(p, t, plan)
    ensures Mirrors(FetchedPool(p, t, plan), FetchedTable(p, t, plan))
  {
    hide Partition, FetchedPool, FetchedTable, PlannedSlots, Distinct;
    FetchedSlots(p, t, plan, numSlots);
    FetchedMoves(p, t, plan);
    var p', t', out := FetchedPool(p, t, plan), FetchedTable(p, t, plan), plan.ranking[..plan.evict];
    forall r ensures r in p'.slot <==> Resides(t', r, STAGING)
             ensures r in p'.slot ==> t'.blocks[r].stagingSlot == Some(p'.slot[r])
    {
      if r in plan.taken {
        var i :| 0 <= i < |plan.taken| && plan.taken[i] == r;
        assert t'.blocks[plan.taken[i]] == OnStaging(t.blocks[plan.taken[i]], PlannedSlots(p, t, plan)[i]);
      }
    }
  }

  lemma FailedMirrors(p: Pool, t: Table, plan: Plan, numSlots: nat)
    requires Settled(p, t, numSlots) && PlanFits(p, t, plan)
    ensures Mirrors(FailedPool(p, t, plan), EvictedTable(t, plan.ranking, plan.evict))
  {
    hide Partition, PutN, EvictedTable, PlannedSlots, Distinct, DropEach;
    forall r {
      EvictedAt(p, t, plan.ranking, plan.evict, r);
    }
  }

  lemma TouchedKeepsSettled(p: Pool, t: Table, refs: seq<BlockRef>, numSlots: nat)
    requires Settled(p, t, numSlots)
    ensures var o := Touched(t.blocks, p.order, refs);
      && Settled(p.(order := o), t, numSlots) && Distinct(o) && ToSet(o) == ToSet(p.order) && |o| == |p.order|
  {
    forall r | r in t.blocks && t.blocks[r].residency == STAGING ensures r in p.order {
      assert Resides(t, r, STAGING);
      assert r in ToSet(p.order);
    }
    TouchedSameOccupants(t.blocks, p.order, refs);
  }

  /** Between calls, whether the fetch was served, failed in the copy, or failed in the lookup, the
      free list and the occupied slots partition the pool and occupancy mirrors residency. */
  lemma EnsureKeepsSettled(
      key: BlockRef -> Score, d: Dims, base: nat, p: Pool, t: Table, gpu: seq<Page>, cpu: seq<Slab>,
      refs: seq<BlockRef>, copied: bool,
      res: Result<(map<BlockRef, nat>, seq<BlockRef>)>, p': Pool, t': Table, gpu': seq<Page>, numSlots: nat)
    requires Settled(p, t, numSlots)
    requires EnsurePost(key, d, base, p, t, gpu, cpu, refs, copied, res, p', t', gpu')
    ensures Settled(p', t', numSlots)
  {
    hide Settled, ToFetch, Hits, Touched, Dedup, Ranked, PlanFits, CanFetch, FetchedPages, OnlyPages, FetchedPool,
         FetchedTable, FailedPool, EvictedTable, Partition, Mirrors, OccupiedBy;
    TouchedKeepsSettled(p, t, Dedup(refs), numSlots);
    var plan := PlanFor(key, t.blocks, p, refs);
    if (forall r :: r in refs ==> r in t.blocks) && ToFetch(t.blocks, refs) != [] {
      SettledParts(p, t, numSlots);
      if copied {
        FetchedPartition(p, t, plan, numSlots);
        FetchedMirrors(p, t, plan, numSlots);
      } else {
        FailedPartition(p, t, plan, numSlots);
        FailedMirrors(p, t, plan, numSlots);
      }
      SettledFrom(p', t', numSlots);
    }
  }

  lemma SettledParts(p: Pool, t: Table, numSlots: nat)
    requires Settled(p, t, numSlots)
    ensures Partition(p, numSlots) && Mirrors(p, t)
  {
  }

  lemma SettledFrom(p: Pool, t: Table, numSlots: nat)
    requires Partition(p, numSlots) && Mirrors(p, t)
    ensures Settled(p, t, numSlots)
  {
  }

  /** Moves between CPU and staging: page, copy and fill state stay, and GPU blocks do not take part. */
  ghost predicate SameCopies(t: Table, t': Table) {
    && t'.blocks.Keys == t.blocks.Keys
    && (forall r :: r in t.blocks ==>
          && t'.blocks[r].gpu == t.blocks[r].gpu && t'.blocks[r].cpuSlot == t.blocks[r].cpuSlot
          && t'.blocks[r].complete == t.blocks[r].complete
          && (t'.blocks[r].residency == GPU <==> t.blocks[r].residency == GPU))
  }

  lemma EvictSameCopies(t: Table, out: seq<BlockRef>, t': Table)
    requires EvictMoves(t, out, t')
    ensures SameCopies(t, t')
  {
  }

  lemma FetchSameCopies(t: Table, out: seq<BlockRef>, taken: seq<BlockRef>, slots: seq<nat>, t': Table)
    requires FetchMoves(t, out, taken, slots, t')
    requires forall r :: r in taken ==> Resides(t, r, CPU)
    requires forall r :: r in out ==> Resides(t, r, STAGING)
    ensures SameCopies(t, t')
  {
    forall r | r in taken
      ensures r in t.blocks && t'.blocks[r].gpu == t.blocks[r].gpu && t'.blocks[r].cpuSlot == t.blocks[r].cpuSlot
      ensures t'.blocks[r].complete == t.blocks[r].complete && t'.blocks[r].residency != GPU
    {
      var i :| 0 <= i < |taken| && taken[i] == r;
      assert t'.blocks[taken[i]] == OnStaging(t.blocks[taken[i]], slots[i]);
    }
  }

  lemma VictimsStaged(p: Pool, t: Table, plan: Plan)
    requires PlanFits(p, t, plan)
    ensures forall r :: r in plan.ranking[..plan.evict] ==> Resides(t, r, STAGING)
  {
    forall r | r in plan.ranking[..plan.evict] ensures Resides(t, r, STAGING) {
      var j :| 0 <= j < plan.evict && plan.ranking[j] == r;
      assert Resides(t, plan.ranking[j], STAGING);
    }
  }

  /** A fetch moves blocks between CPU and staging only, whichever way it ends. */
  lemma EnsureSameCopies(
      key: BlockRef -> Score, d: Dims, base: nat, p: Pool, t: Table, gpu: seq<Page>, cpu: seq<Slab>,
      refs: seq<BlockRef>, copied: bool,
      res: Result<(map<BlockRef, nat>, seq<BlockRef>)>, p': Pool, t': Table, gpu': seq<Page>)
    requires EnsurePost(key, d, base, p, t, gpu, cpu, refs, copied, res, p', t', gpu')
    ensures SameCopies(t, t')
  {
    hide ToFetch, Hits, Touched, Dedup, Ranked, CanFetch, FetchedPages, OnlyPages, FetchedPool, FailedPool,
         FetchedTable, EvictedTable, OccupiedBy, PlannedSlots, EvictMoves, FetchMoves, Distinct;
    if (forall r :: r in refs ==> r in t.blocks) && ToFetch(t.blocks, refs) != [] {
      var plan := PlanFor(key, t.blocks, p, refs);
      if copied {
        FetchedMoves(p, t, plan);
        TakenFacts(p, t, plan);
        VictimsStaged(p, t, plan);
        FetchSameCopies(t, plan.ranking[..plan.evict], plan.taken, PlannedSlots(p, t, plan), t');
      } else {
        EvictedMoves(p, t, plan.ranking, plan.evict);
        EvictSameCopies(t, plan.ranking[..plan.evict], t');
      }
    }
  }

  /** Releasing a block frees its slot and puts it back on its CPU copy. */
  lemma ReleaseKeepsSettled(p: Pool, t: Table, r: BlockRef, numSlots: nat)
    requires Settled(p, t, numSlots) && (forall k :: k in t.blocks ==> LocationOk(t.blocks[k]))
    ensures Settled(ReleasedPool(p, r), ReleasedTable(p, t, r), numSlots)
    ensures Resides(t, r, STAGING) ==>
      && t.blocks[r].cpuSlot.Some?
      && ReleasedTable(p, t, r) == MarkedCpu(t, r, t.blocks[r].cpuSlot.value)
    ensures !Resides(t, r, STAGING) ==> ReleasedTable(p, t, r) == t && ReleasedPool(p, r) == p
  {
    if r in p.slot {
      ReleasePartition(p, r, numSlots);
      assert Resides(t, r, STAGING);
    }
  }

  lemma ReleasePartition(p: Pool, r: BlockRef, numSlots: nat)
    requires Partition(p, numSlots) && r in p.slot
    ensures Partition(ReleasedPool(p, r), numSlots)
  {
    var p' := ReleasedPool(p, r);
    WithoutElements(p.order, r);
    assert ToSet(p'.order) == ToSet(p.order) - {r};
    ConcatDistinct(p.free, [p.slot[r]]);
    forall s | 0 <= s < numSlots && s !in p'.free ensures exists q :: q in p'.slot && p'.slot[q] == s {
      var q :| q in p.slot && p.slot[q] == s;
      assert p.slot[r] in p'.free;
      assert q in p'.slot && p'.slot[q] == s;
    }
  }

  /** The pool is never bigger or smaller than its slots: free and occupied add up. */
  lemma SlotsAddUp(p: Pool, numSlots: nat)
    requires Partition(p, numSlots)
    ensures |p.free| + |p.order| == numSlots
  {
    forall i | 0 <= i < |p.order| ensures p.order[i] in p.slot {
      assert p.order[i] in ToSet(p.order);
    }
    var used := SlotsOf(p.slot, p.order);
    forall i, j | 0 <= i < j < |used| ensures used[i] != used[j] {
      assert p.order[i] != p.order[j];
    }
    ConcatDistinct(p.free, used);
    forall s | 0 <= s < numSlots ensures s in p.free + used {
      if s !in p.free {
        var r :| r in p.slot && p.slot[r] == s;
        assert r in ToSet(p.order);
        var i :| 0 <= i < |p.order| && p.order[i] == r;
        assert used[i] == s;
      }
    }
    FullFreeList(p.free + used, numSlots);
  }

  lemma {:induction false} TouchingColdBlocks(blocks: map<BlockRef, Location>, order: seq<BlockRef>,
                                              refs: seq<BlockRef>)
    requires forall r :: r in refs ==> r in blocks && blocks[r].residency == CPU
    ensures Touched(blocks, order, refs) == order
    decreases |refs|
  {
    if refs != [] {
      assert refs[0] in refs;
      TouchingColdBlocks(blocks, order, refs[1..]);
    }
  }

  /** A list of distinct CPU-resident blocks is fetched as it stands. */
  lemma ColdPlan(key: BlockRef -> Score, p: Pool, t: Table, refs: seq<BlockRef>, numSlots: nat)
    requires Partition(p, numSlots) && Distinct(refs)
    requires forall r :: r in refs ==> Resides(t, r, CPU)
    ensures var m := Min(|refs|, numSlots);
      var fromFree := Min(m, |p.free|);
      PlanFor(key, t.blocks, p, refs) == Plan(p.order, refs[..m], refs[m..], fromFree, Ranked(key, p.order),
                                              m - fromFree)
    ensures ToFetch(t.blocks, refs) == refs && Hits(t.blocks, refs) == map[]
  {
    hide Partition, Distinct, Filter, Dedup, Touched, Ranked;
    DedupOfDistinct(refs);
    FilterAll(OnCpuOnly(t.blocks), refs);
    TouchingColdBlocks(t.blocks, p.order, refs);
    SlotsAddUp(p, numSlots);
  }

  /** The exact outcome of a fetch of n distinct CPU-resident blocks: the first m = min(n, slots) are
      staged at distinct slots, the rest are skipped in order; the blocks evicted are the
      max(0, m - free) coldest earlier occupants, back on their own CPU copies; nothing else moves. */
  ghost predicate ExactOutcome(key: BlockRef -> Score, p: Pool, t: Table, refs: seq<BlockRef>, numSlots: nat,
                               res: Result<(map<BlockRef, nat>, seq<BlockRef>)>, t': Table) {
    var m := Min(|refs|, numSlots);
    var k := m - Min(m, |p.free|);
    && k <= |p.order|
    && var victims := Ranked(key, p.order)[..k];
    && AreColdest(key, p.order, victims)
    && exists slots: seq<nat> ::
         && |slots| == m && Distinct(slots) && (forall s :: s in slots ==> s < numSlots)
         && FetchMoves(t, victims, refs[..m], slots, t')
         && res == Ok((WithSlots(map[], refs[..m], slots), refs[m..]))
  }

  lemma FetchOutcome(
      key: BlockRef -> Score, d: Dims, base: nat, p: Pool, t: Table, gpu: seq<Page>, cpu: seq<Slab>,
      refs: seq<BlockRef>, res: Result<(map<BlockRef, nat>, seq<BlockRef>)>, p': Pool, t': Table, gpu': seq<Page>,
      numSlots: nat)
    requires Settled(p, t, numSlots) && Distinct(refs) && refs != []
    requires forall r :: r in refs ==> Resides(t, r, CPU)
    requires EnsurePost(key, d, base, p, t, gpu, cpu, refs, true, res, p', t', gpu')
    ensures ExactOutcome(key, p, t, refs, numSlots, res, t')
  {
    hide Settled, ToFetch, Hits, Touched, Dedup, Ranked, PlanFits, CanFetch, FetchedPages, FetchedPool, FetchedTable,
         AreColdest, FetchMoves, OccupiedBy, Partition, Distinct, PlannedSlots;
    SettledParts(p, t, numSlots);
    ColdPlan(key, p, t, refs, numSlots);
    var plan := PlanFor(key, t.blocks, p, refs);
    var slots := PlannedSlots(p, t, plan);
    PlanFitsBounds(p, t, plan);
    PlannedSlotsMove(p, t, plan, numSlots);
    FetchedMoves(p, t, plan);
    OccupantsDistinct(p, numSlots);
    PrefixIsColdest(key, p.order, plan.evict);
  }

  /** Whoever makes room for a fetch has the lowest recorded scores of all occupants; among equals the least
      recently used one goes. */
  ghost predicate LowestMakeRoom(scores: map<BlockRef, real>, p: Pool, t: Table, refs: seq<BlockRef>, numSlots: nat,
                                 res: Result<(map<BlockRef, nat>, seq<BlockRef>)>, t': Table) {
    var m := Min(|refs|, numSlots);
    exists victims: seq<BlockRef>, slots: seq<nat> ::
      && |victims| == m - Min(m, |p.free|) && GoFirst(scores, p.order, victims)
      && |slots| == m && Distinct(slots) && (forall s :: s in slots ==> s < numSlots)
      && FetchMoves(t, victims, refs[..m], slots, t')
      && res == Ok((WithSlots(map[], refs[..m], slots), refs[m..]))
  }

  lemma FetchEvictsLowest(
      scores: map<BlockRef, real>, d: Dims, base: nat, p: Pool, t: Table, gpu: seq<Page>, cpu: seq<Slab>,
      refs: seq<BlockRef>, res: Result<(map<BlockRef, nat>, seq<BlockRef>)>, p': Pool, t': Table, gpu': seq<Page>,
      numSlots: nat)
    requires Settled(p, t, numSlots) && Distinct(refs) && refs != []
    requires forall r :: r in refs ==> Resides(t, r, CPU)
    requires EnsurePost(KeyOf(scores), d, base, p, t, gpu, cpu, refs, true, res, p', t', gpu')
    ensures LowestMakeRoom(scores, p, t, refs, numSlots, res, t')
  {
    hide Settled, EnsurePost, KeyOf, Ranked, AreColdest, GoFirst, FetchMoves, OccupiedBy, Distinct;
    FetchOutcome(KeyOf(scores), d, base, p, t, gpu, cpu, refs, res, p', t', gpu', numSlots);
    var m := Min(|refs|, numSlots);
    var k := m - Min(m, |p.free|);
    var victims := Ranked(KeyOf(scores), p.order)[..k];
    AreColdestGoFirst(scores, p.order, victims);
  }

  /** The same whatever is asked for: hits count as just used, then the lowest scores go. */
  lemma PlanEvictsLowest(scores: map<BlockRef, real>, p: Pool, t: Table, refs: seq<BlockRef>, numSlots: nat)
    requires Settled(p, t, numSlots)
    ensures var plan := PlanFor(KeyOf(scores), t.blocks, p, refs);
      && plan.order == Touched(t.blocks, p.order, Dedup(refs))
      && plan.evict <= |plan.ranking|
      && GoFirst(scores, plan.order, plan.ranking[..plan.evict])
  {
    hide KeyOf, Ranked, AreColdest, GoFirst, Touched, Dedup, Distinct, Partition, Mirrors;
    var plan := PlanFor(KeyOf(scores), t.blocks, p, refs);
    TouchedKeepsSettled(p, t, Dedup(refs), numSlots);
    PrefixIsColdest(KeyOf(scores), plan.order, plan.evict);
    AreColdestGoFirst(scores, plan.order, plan.ranking[..plan.evict]);
  }

  lemma OccupantsDistinct(p: Pool, numSlots: nat)
    requires Partition(p, numSlots)
    ensures Distinct(p.order)
  {
  }

  /** The returned map is truthful: each block it names is staged at the slot it names. */
  ghost predicate Truthful(staged: map<BlockRef, nat>, t: Table) {
    forall r :: r in staged ==> Resides(t, r, STAGING) && t.blocks[r].stagingSlot == Some(staged[r])
  }

  lemma TruthfulAfterMoves(t: Table, refs: seq<BlockRef>, out: seq<BlockRef>, taken: seq<BlockRef>, slots: seq<nat>,
                           t': Table)
    requires FetchMoves(t, out, taken, slots, t') && Distinct(taken)
    requires forall r :: r in taken ==> Resides(t, r, CPU)
    requires forall r :: Resides(t, r, STAGING) ==> t.blocks[r].stagingSlot.Some?
    ensures Truthful(WithSlots(Hits(t.blocks, refs), taken, slots), t') <==>
      forall r :: r in refs && Resides(t, r, STAGING) ==> r !in out
  {
    hide OccupiedBy, Distinct;
    var hits := Hits(t.blocks, refs);
    var staged := WithSlots(hits, taken, slots);
    OccupiedByFacts(hits, taken, slots, |taken|);
    assert taken[..|taken|] == taken;
    forall r | r in taken ensures Resides(t', r, STAGING) && t'.blocks[r].stagingSlot == Some(staged[r]) {
      var i :| 0 <= i < |taken| && taken[i] == r;
      assert t'.blocks[taken[i]] == OnStaging(t.blocks[taken[i]], slots[i]);
    }
    forall r | r in refs && Resides(t, r, STAGING)
      ensures r in staged && Some(staged[r]) == t.blocks[r].stagingSlot
      ensures r in out ==> !Resides(t', r, STAGING)
      ensures r !in out ==> t'.blocks[r] == t.blocks[r]
    {
      assert r !in taken;
      assert r in hits;
    }
  }

  /** A batch may name blocks that are already staged. They are not protected from the evictions of
      the same batch, so the returned map is truthful if and only if none of them is among the
      occupants, coldest first, that the batch has to evict. */
  lemma TruthfulIffHitsSurvive(
      key: BlockRef -> Score, d: Dims, base: nat, p: Pool, t: Table, gpu: seq<Page>, cpu: seq<Slab>,
      refs: seq<BlockRef>, res: Result<(map<BlockRef, nat>, seq<BlockRef>)>, p': Pool, t': Table, gpu': seq<Page>,
      numSlots: nat)
    requires Settled(p, t, numSlots)
    requires (forall r :: r in refs ==> r in t.blocks) && ToFetch(t.blocks, refs) != []
    requires EnsurePost(key, d, base, p, t, gpu, cpu, refs, true, res, p', t', gpu')
    ensures var plan := PlanFor(key, t.blocks, p, refs);
      && res.Ok? && plan.evict <= |plan.ranking|
      && (Truthful(res.value.0, t') <==>
            forall r :: r in refs && Resides(t, r, STAGING) ==> r !in plan.ranking[..plan.evict])
  {
    hide Settled, Touched, Dedup, Ranked, PlanFits, CanFetch, FetchedPages, FetchedPool, FetchedTable, OccupiedBy,
         Partition, ToFetch, PlannedSlots, Hits, FetchMoves, Truthful, Distinct;
    SettledParts(p, t, numSlots);
    var plan := PlanFor(key, t.blocks, p, refs);
    PlanFitsBounds(p, t, plan);
    FetchedMoves(p, t, plan);
    TakenFacts(p, t, plan);
    TruthfulAfterMoves(t, refs, plan.ranking[..plan.evict], plan.taken, PlannedSlots(p, t, plan), t');
  }

  lemma TakenFacts(p: Pool, t: Table, plan: Plan)
    requires PlanFits(p, t, plan)
    ensures Distinct(plan.taken) && |PlannedSlots(p, t, plan)| == |plan.taken|
    ensures forall r :: r in plan.taken ==> Resides(t, r, CPU)
  {
    hide Distinct;
    forall r | r in plan.taken ensures Resides(t, r, CPU) {
      TakenOnCpu(p, t, plan, r);
    }
  }

  lemma HitThenMiss(blocks: map<BlockRef, Location>, a: BlockRef, b: BlockRef)
    requires a != b && a in blocks && b in blocks && blocks[a].residency == STAGING && blocks[b].residency == CPU
    ensures ToFetch(blocks, [a, b]) == [b] && Touched(blocks, [a], Dedup([a, b])) == [a]
  {
    DedupOfDistinct([a, b]);
    OnlySecondIsCold(blocks, a, b);
    TouchesFirst(blocks, a, b);
  }

  lemma OnlySecondIsCold(blocks: map<BlockRef, Location>, a: BlockRef, b: BlockRef)
    requires a in blocks && b in blocks && blocks[a].residency == STAGING && blocks[b].residency == CPU
    ensures Filter(OnCpuOnly(blocks), [a, b]) == [b]
  {
    var keep := OnCpuOnly(blocks);
    assert !keep(a) && keep(b);
    assert [a, b][..1] == [a] && [a][..0] == [];
    assert Filter(keep, [a]) == Filter(keep, []) == [];
  }

  lemma TouchesFirst(blocks: map<BlockRef, Location>, a: BlockRef, b: BlockRef)
    requires a in blocks && b in blocks && blocks[a].residency == STAGING && blocks[b].residency == CPU
    ensures Touched(blocks, [a], [a, b]) == [a]
  {
    assert [a, b][1..] == [b] && [b][1..] == [];
    assert MovedToEnd([a], a) == [a];
    assert Touched(blocks, [a], []) == [a];
    assert Touched(blocks, [a], [b]) == Touched(blocks, [a], []);
  }

  /** One slot, held by block 0; block 1 is on the CPU. */
  function CrowdedTable(): (t: Table) {
    Table([BlockRef("q", 0), BlockRef("q", 1)],
          map[BlockRef("q", 0) := Location(STAGING, Some(1), Some(0), Some(0), true),
              BlockRef("q", 1) := Location(CPU, Some(2), Some(1), None, true)], 3)
  }

  function CrowdedPool(): (p: Pool) {
    Pool([BlockRef("q", 0)], map[BlockRef("q", 0) := 0], [])
  }

  lemma CrowdedPlan(key: BlockRef -> Score)
    ensures var a, b := BlockRef("q", 0), BlockRef("q", 1);
      var t, p := CrowdedTable(), CrowdedPool();
      && Settled(p, t, 1) && ToFetch(t.blocks, [a, b]) == [b]
      && PlanFor(key, t.blocks, p, [a, b]) == Plan([a], [b], [], 0, [a], 1)
      && (forall r :: r in [a, b] ==> r in t.blocks) && Resides(t, a, STAGING)
  {
    hide ToFetch, Touched, Dedup;
    var a, b := BlockRef("q", 0), BlockRef("q", 1);
    var t, p := CrowdedTable(), CrowdedPool();
    assert ToSet(p.order) == p.slot.Keys;
    assert p.slot[a] == 0;
    HitThenMiss(t.blocks, a, b);
    assert DropAt([a], 0) == [];
    assert Ranked(key, [a]) == [a];
    assert [b][..1] == [b] && [b][1..] == [];
  }

  /** A batch that names block 0 and block 1: block 0 is a hit, and also the occupant evicted to make
      room. The fetch goes through, and the map it returns is untruthful. */
  lemma BatchEvictsItsOwnHit(key: BlockRef -> Score, d: Dims, base: nat, gpu: seq<Page>, cpu: seq<Slab>)
    requires base < |gpu| && 2 <= |cpu|
    ensures exists res, p', t', gpu' ::
      EnsurePost(key, d, base, CrowdedPool(), CrowdedTable(), gpu, cpu, [BlockRef("q", 0), BlockRef("q", 1)], true,
                 res, p', t', gpu')
    ensures forall res, p', t', gpu' ::
      (EnsurePost(key, d, base, CrowdedPool(), CrowdedTable(), gpu, cpu, [BlockRef("q", 0), BlockRef("q", 1)], true,
                  res, p', t', gpu')) ==> res.Ok? && !Truthful(res.value.0, t')
  {
    var a, b := BlockRef("q", 0), BlockRef("q", 1);
    var t, p, refs := CrowdedTable(), CrowdedPool(), [BlockRef("q", 0), BlockRef("q", 1)];
    hide EnsurePost, Truthful, ToFetch, PlanFor, Settled, CrowdedTable, CrowdedPool;
    CrowdedPlan(key);
    CrowdedFetch(key, d, base, gpu, cpu);
    forall res, p', t', gpu' | EnsurePost(key, d, base, p, t, gpu, cpu, refs, true, res, p', t', gpu')
      ensures res.Ok? && !Truthful(res.value.0, t')
    {
      TruthfulIffHitsSurvive(key, d, base, p, t, gpu, cpu, refs, res, p', t', gpu', 1);
      assert [a][..1] == [a];
      assert a in refs && Resides(t, a, STAGING) && a in [a];
    }
  }

  lemma CrowdedFetch(key: BlockRef -> Score, d: Dims, base: nat, gpu: seq<Page>, cpu: seq<Slab>)
    requires base < |gpu| && 2 <= |cpu|
    ensures exists res, p', t', gpu' ::
      EnsurePost(key, d, base, CrowdedPool(), CrowdedTable(), gpu, cpu, [BlockRef("q", 0), BlockRef("q", 1)], true,
                 res, p', t', gpu')
  {
    hide PlanFor, PlanFits, CanFetch, ToFetch, EnsurePost, Settled, PlannedSlots, CrowdedTable, CrowdedPool;
    var refs := [BlockRef("q", 0), BlockRef("q", 1)];
    CrowdedPlan(key);
    CrowdedFits(base, gpu, cpu);
    FetchExists(key, d, base, CrowdedPool(), CrowdedTable(), gpu, cpu, refs);
  }

  lemma CrowdedFits(base: nat, gpu: seq<Page>, cpu: seq<Slab>)
    requires base < |gpu| && 2 <= |cpu|
    ensures var plan := Plan([BlockRef("q", 0)], [BlockRef("q", 1)], [], 0, [BlockRef("q", 0)], 1);
      && PlanFits(CrowdedPool(), CrowdedTable(), plan)
      && CanFetch(gpu, cpu, base, CrowdedTable(), plan.taken, PlannedSlots(CrowdedPool(), CrowdedTable(), plan))
  {
    var plan := Plan([BlockRef("q", 0)], [BlockRef("q", 1)], [], 0, [BlockRef("q", 0)], 1);
    assert PlanFits(CrowdedPool(), CrowdedTable(), plan);
    assert PlannedSlots(CrowdedPool(), CrowdedTable(), plan) == [0];
  }

  /** A plan that fits and whose copies are in range can be served. */
  lemma FetchExists(key: BlockRef -> Score, d: Dims, base: nat, p: Pool, t: Table, gpu: seq<Page>, cpu: seq<Slab>,
                    refs: seq<BlockRef>)
    requires (forall r :: r in refs ==> r in t.blocks) && ToFetch(t.blocks, refs) != []
    requires var plan := PlanFor(key, t.blocks, p, refs);
      PlanFits(p, t, plan) && CanFetch(gpu, cpu, base, t, plan.taken, PlannedSlots(p, t, plan))
    ensures exists res, p', t', gpu' :: EnsurePost(key, d, base, p, t, gpu, cpu, refs, true, res, p', t', gpu')
  {
    hide FetchedPool, FetchedTable, FetchedPages, CanFetch, PlanFits, ToFetch, Hits, OccupiedBy, Ranked, Dedup, Touched;
    var plan := PlanFor(key, t.blocks, p, refs);
    TakenFacts(p, t, plan);
    var slots := PlannedSlots(p, t, plan);
    assert EnsurePost(key, d, base, p, t, gpu, cpu, refs, true,
      Ok((WithSlots(Hits(t.blocks, refs), plan.taken, slots), plan.skipped)),
      FetchedPool(p, t, plan), FetchedTable(p, t, plan), FetchedPages(d, gpu, cpu, base, t, plan.taken, slots));
  }
}
