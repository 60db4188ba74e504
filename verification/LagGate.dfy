/** What an unchanged `cpu_version` proves: nothing that lives off the GPU has moved. */
module LagGate {
  import opened Blocks
  import opened Residencies
  import opened Moves
  import opened Staging
  import opened StagingTheory

  /** Where every block that left its own GPU page now lives (fill state aside). */
  ghost function OffGpu(blocks: map<BlockRef, Location>): (m: map<BlockRef, Location>) {
    map r | r in blocks && blocks[r].residency != GPU :: blocks[r].(complete := true)
  }

  /** The version never goes back, and while it stands still nothing off the GPU changes. */
  ghost predicate Gated(t: Table, t': Table) {
    && t.version <= t'.version
    && (t.version == t'.version ==> OffGpu(t'.blocks) == OffGpu(t.blocks))
  }

  lemma GatedTrans(t: Table, t1: Table, t2: Table)
    requires Gated(t, t1) && Gated(t1, t2)
    ensures Gated(t, t2)
  {
  }

  /** A write either moves the block into or out of CPU residency, or leaves it where it was. */
  ghost predicate Lawful(t: Table, r: BlockRef, l: Location) {
    Resides(t, r, CPU) == (l.residency == CPU) ==>
      && (l.residency == GPU <==> r !in t.blocks || t.blocks[r].residency == GPU)
      && (l.residency != GPU ==> l.(complete := true) == t.blocks[r].(complete := true))
  }

  lemma PutGated(t: Table, r: BlockRef, l: Location)
    requires Lawful(t, r, l)
    ensures Gated(t, Put(t, r, l))
  {
    assert t.version == Put(t, r, l).version ==> OffGpu(Put(t, r, l).blocks) == OffGpu(t.blocks);
  }

  lemma {:induction false} PutNGated(t: Table, refs: seq<BlockRef>, locs: seq<Location>, n: nat)
    requires n <= |refs| == |locs| && Distinct(refs)
    requires forall i :: 0 <= i < n ==> Lawful(t, refs[i], locs[i])
    ensures Gated(t, PutN(t, refs, locs, n))
  {
    hide Gated;
    if n == 0 {
      StillGated(t);
    } else {
      PutNGated(t, refs, locs, n - 1);
      var t1 := PutN(t, refs, locs, n - 1);
      DistinctLast(refs, n);
      hide Distinct;
      PutNKeeps(t, refs, locs, n - 1, refs[n - 1]);
      PutGated(t1, refs[n - 1], locs[n - 1]);
      GatedTrans(t, t1, PutN(t, refs, locs, n));
    }
  }

  lemma StillGated(t: Table)
    ensures Gated(t, t)
  {
  }

  lemma RemovedGated(t: Table, r: BlockRef)
    requires !Resides(t, r, STAGING)
    ensures Gated(t, Removed(t, r))
  {
    assert t.version == Removed(t, r).version ==> OffGpu(Removed(t, r).blocks) == OffGpu(t.blocks);
  }

  lemma EvictGated(p: Pool, t: Table, v: seq<BlockRef>, e: nat)
    requires RankingOf(p, t, v) && e <= |v|
    ensures Gated(t, EvictedTable(t, v, e))
  {
    hide Gated, PutN;
    forall i | 0 <= i < e ensures Lawful(t, v[i], CpuLocations(t, v, CpuSlotsOf(t, v))[i]) {
      assert Resides(t, v[i], STAGING);
    }
    PutNGated(t, v, CpuLocations(t, v, CpuSlotsOf(t, v)), e);
  }

  lemma FetchGated(p: Pool, t: Table, plan: Plan)
    requires PlanFits(p, t, plan)
    ensures Gated(t, FetchedTable(p, t, plan))
  {
    hide Gated, PutN, EvictedTable, PlannedSlots, EvictMoves;
    var t1 := EvictedTable(t, plan.ranking, plan.evict);
    EvictGated(p, t, plan.ranking, plan.evict);
    EvictedMoves(p, t, plan.ranking, plan.evict);
    var locs := StagingLocations(t, plan.taken, PlannedSlots(p, t, plan));
    forall i | 0 <= i < |plan.taken| ensures Lawful(t1, plan.taken[i], locs[i]) {
      TakenStillOnCpu(p, t, plan, t1, i);
    }
    PutNGated(t1, plan.taken, locs, |plan.taken|);
    GatedTrans(t, t1, FetchedTable(p, t, plan));
  }

  lemma TakenStillOnCpu(p: Pool, t: Table, plan: Plan, t1: Table, i: nat)
    requires PlanFits(p, t, plan) && EvictMoves(t, plan.ranking[..plan.evict], t1) && i < |plan.taken|
    ensures Resides(t1, plan.taken[i], CPU)
  {
    hide Distinct;
    var r := plan.taken[i];
    assert Resides(t, r, CPU);
    assert r in t1.blocks.Keys;
  }

  lemma ReleaseGated(p: Pool, t: Table, r: BlockRef)
    ensures Gated(t, ReleasedTable(p, t, r))
  {
    if ReleasedTable(p, t, r) == t {
      StillGated(t);
    } else {
      PutGated(t, r, Location(CPU, t.blocks[r].gpu, Some(t.blocks[r].cpuSlot.value), None, t.blocks[r].complete));
    }
  }
}
