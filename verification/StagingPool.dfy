/** The staging pool: occupancy and free list, and the three-phase fetch over them. */
module StagingPools {
  import opened Blocks
  import opened Ranking
  import opened Residencies
  import opened Layout
  import opened Memory
  import opened Scoring
  import opened Moves
  import opened Offloading
  import opened Staging
  import opened StagingTheory

  class KVStagingPool {
    const numSlots: nat
    const base: nat
    const residency: ResidencyTable
    const scorer: PagedEvictionScorer
    const memory: KVMemory
    var order: seq<BlockRef>
    var slot: map<BlockRef, nat>
    var free: seq<nat>

    ghost function View(): (p: Pool)
      reads this
    {
      Pool(order, slot, free)
    }

    ghost predicate Valid()
      reads this, residency, memory
    {
      && residency.Valid() && memory.Valid()
      && base + numSlots <= memory.numPages
      && CopiesWithin(residency.View(), memory.numSlots)
      && Settled(View(), residency.View(), numSlots)
    }

    constructor (numSlots: nat, base: nat, residency: ResidencyTable, scorer: PagedEvictionScorer, memory: KVMemory)
      requires numSlots > 0
      ensures this.numSlots == numSlots && this.base == base
      ensures this.residency == residency && this.scorer == scorer && this.memory == memory
      ensures Partition(View(), numSlots) && slot == map[]
      ensures |free| == numSlots
    {
      this.numSlots, this.base, this.residency, this.scorer, this.memory := numSlots, base, residency, scorer, memory;
      order, slot := [], map[];
      free := seq(numSlots, i requires 0 <= i < numSlots => numSlots - 1 - i);
      new;
      forall s | 0 <= s < numSlots ensures s in free {
        assert free[numSlots - 1 - s] == s;
      }
      assert ToSet(order) == {};
    }

    /** Reserves a slot: a free one if any, else that of the coldest STAGING occupant outside
        `exclude`, which falls back to CPU. Occupants that are not STAGING are never victims. */
    method AllocateSlot(exclude: set<nat>) returns (res: Result<nat>)
      requires residency.Valid()
      requires forall r :: r in order ==> r in slot
      modifies this, residency
      ensures residency.Valid()
      ensures old(free) != [] ==>
        && res == Ok(old(free)[|old(free)| - 1]) && free == old(free)[..|old(free)| - 1]
        && order == old(order) && slot == old(slot) && residency.View() == old(residency.View())
      ensures old(free) == [] ==>
        var candidates := Filter(Evictable(old(residency.blocks), old(slot), exclude), old(order));
        && free == []
        && (forall r :: r in candidates <==>
              && r in old(order) && old(slot)[r] !in exclude
              && r in old(residency.blocks) && old(residency.blocks)[r].residency == STAGING)
        && if candidates == [] then
             res == Err(RuntimeError) && View() == old(View()) && residency.View() == old(residency.View())
           else
             var victim := candidates[ArgMin(KeyOf(scorer.scores), candidates)];
             && victim in old(slot) && res == Ok(old(slot)[victim])
             && order == Without(old(order), victim) && slot == old(slot) - {victim}
             && victim in old(residency.blocks) && old(residency.blocks)[victim].cpuSlot.Some?
             && residency.View() ==
                  MarkedCpu(old(residency.View()), victim, old(residency.blocks)[victim].cpuSlot.value)
             && (forall k :: k in candidates && k != victim ==> GoesFirst(scorer.scores, candidates, victim, k))
    {
      hide Agree, GoesFirst;
      if free != [] {
        res := Ok(free[|free| - 1]);
        free := free[..|free| - 1];
        return;
      }
      var keep := Evictable(residency.blocks, slot, exclude);
      var candidates: seq<BlockRef> := [];
      var i := 0;
      while i < |order|
        invariant 0 <= i <= |order| && candidates == Filter(keep, order[..i])
        invariant View() == old(View()) && residency.View() == old(residency.View()) && residency.Valid()
      {
        if keep(order[i]) {
          candidates := candidates + [order[i]];
        }
        i := i + 1;
        assert order[..i][..i - 1] == order[..i - 1];
      }
      assert order[..i] == order;
      FilterElements(keep, order);
      if candidates == [] {
        return Err(RuntimeError);
      }
      var victim := candidates[ArgMin(KeyOf(scorer.scores), candidates)];
      assert victim in candidates;
      forall k | k in candidates && k != victim ensures GoesFirst(scorer.scores, candidates, victim, k) {
        FirstIsColdest(KeyOf(scorer.scores), candidates, k);
        ColderGoesFirst(scorer.scores, candidates, victim, k);
      }
      AgreeLocation(residency.View(), residency.numCpu, residency.byRequest, victim);
      var ok := residency.MarkCpu(victim, residency.blocks[victim].cpuSlot.value);
      res := Ok(slot[victim]);
      order, slot := Without(order, victim), slot - {victim};
    }

    /** The lookup pass: staged blocks are hits and become most recent, CPU blocks are to be fetched. */
    method Lookup(refs: seq<BlockRef>) returns (res: Result<(map<BlockRef, nat>, seq<BlockRef>)>)
      requires forall r :: r in residency.blocks ==> LocationOk(residency.blocks[r])
      modifies this`order
      ensures order == Touched(residency.blocks, old(order), Dedup(refs))
      ensures res == if forall r :: r in refs ==> r in residency.blocks
                     then Ok((Hits(residency.blocks, refs), ToFetch(residency.blocks, refs))) else Err(KeyError)
    {
      hide Hits, Filter, Dedup, Distinct;
      var todo := Dedup(refs);
      DedupElements(refs);
      HitsEmpty(residency.blocks);
      FilterEmpty(OnCpuOnly(residency.blocks));
      var hits: map<BlockRef, nat>, fetch: seq<BlockRef> := map[], [];
      var i := 0;
      while i < |todo|
        invariant 0 <= i <= |todo|
        invariant Touched(residency.blocks, order, todo[i..]) == Touched(residency.blocks, old(order), todo)
        invariant forall k :: 0 <= k < i ==> todo[k] in residency.blocks
        invariant hits == Hits(residency.blocks, todo[..i])
        invariant fetch == Filter(OnCpuOnly(residency.blocks), todo[..i])
      {
        var r := todo[i];
        assert todo[i..][0] == r && todo[i..][1..] == todo[i + 1..];
        HitsSnoc(residency.blocks, todo, i);
        FilterSnoc(OnCpuOnly(residency.blocks), todo, i);
        if r !in residency.blocks {
          assert r in todo;
          return Err(KeyError);
        }
        var l := residency.blocks[r];
        if l.residency == STAGING && l.stagingSlot.Some? {
          order := MovedToEnd(order, r);
          hits := hits[r := l.stagingSlot.value];
        } else if l.residency == CPU && l.cpuSlot.Some? {
          fetch := fetch + [r];
        }
        i := i + 1;
      }
      assert todo[..i] == todo && todo[i..] == [];
      HitsSame(residency.blocks, todo, refs);
      res := Ok((hits, fetch));
    }

    /** The next reservation of a batch in which j blocks already hold slots. */
    method AllocateNext(exclude: set<nat>, ghost p: Pool, ghost t: Table, ghost j: nat, ghost slots: seq<nat>)
      returns (res: Result<nat>)
      requires residency.Valid() && Occupants(p, t) && exclude == ToSet(slots)
      requires Reserved(KeyOf(scorer.scores), p, t, j, View(), residency.View(), slots)
      modifies this, residency
      ensures residency.Valid()
      ensures res.Ok? <==> j < |p.free| + |p.order|
      ensures Reserved(KeyOf(scorer.scores), p, t, if res.Ok? then j + 1 else j, View(), residency.View(),
                       if res.Ok? then slots + [res.value] else slots)
    {
      hide Agree, Occupants, Reserved, Filter, Without;
      ghost var key := KeyOf(scorer.scores);
      ReservedCandidates(key, p, t, j, View(), residency.View(), slots);
      if free != [] {
        ReserveFree(key, p, t, j, View(), residency.View(), slots);
      } else if order != [] {
        ReserveByEviction(key, p, t, j, View(), residency.View(), slots);
      }
      res := AllocateSlot(exclude);
    }

    /** Reserves slots for a batch, skipping what cannot fit. Exactly the first min(n, free + occupied)
        blocks get slots: free slots first, then those of the coldest occupants, in ranking order. */
    method Reserve(fetch: seq<BlockRef>) returns (taken: seq<BlockRef>, slots: seq<nat>, skipped: seq<BlockRef>)
      requires residency.Valid() && Occupants(View(), residency.View())
      modifies this, residency
      ensures residency.Valid()
      ensures var m := Min(|fetch|, |old(free)| + |old(order)|);
        && taken == fetch[..m] && skipped == fetch[m..]
        && Reserved(KeyOf(scorer.scores), old(View()), old(residency.View()), m, View(), residency.View(), slots)
    {
      hide Agree, Occupants, Reserved;
      ghost var p, t := View(), residency.View();
      NoneReserved(KeyOf(scorer.scores), p, t);
      taken, slots, skipped := [], [], [];
      var exclude: set<nat> := {};
      assert exclude == ToSet(slots);
      var i := 0;
      while i < |fetch|
        invariant 0 <= i <= |fetch| && residency.Valid() && exclude == ToSet(slots)
        invariant |taken| == Min(i, |p.free| + |p.order|)
        invariant taken == fetch[..|taken|] && skipped == fetch[|taken|..i]
        invariant Reserved(KeyOf(scorer.scores), p, t, |taken|, View(), residency.View(), slots)
      {
        var s := AllocateNext(exclude, p, t, |taken|, slots);
        if s.Err? {
          skipped := skipped + [fetch[i]];
        } else {
          exclude := exclude + {s.value};
          slots := slots + [s.value];
          taken := taken + [fetch[i]];
        }
        i := i + 1;
      }
    }

    /** Publishes copied blocks: occupancy first, then residency. */
    method Publish(taken: seq<BlockRef>, slots: seq<nat>, ghost t: Table)
      requires residency.Valid() && |taken| == |slots| && Distinct(taken)
      requires AllTracked(t, taken)
      requires forall i :: 0 <= i < |taken| ==>
        && taken[i] in residency.blocks && residency.blocks[taken[i]] == t.blocks[taken[i]]
        && t.blocks[taken[i]].cpuSlot.Some? && taken[i] !in slot
      modifies this, residency
      ensures residency.Valid()
      ensures View() == Pool(old(order) + taken, OccupiedBy(old(slot), taken, slots, |taken|), old(free))
      ensures residency.View() == PutN(old(residency.View()), taken, StagingLocations(t, taken, slots), |taken|)
    {
      hide Agree, Distinct, PutN, OccupiedBy;
      ghost var now := residency.View();
      ghost var locs := StagingLocations(t, taken, slots);
      PutNStart(now, taken, locs);
      OccupiedStart(slot, taken, slots);
      var i := 0;
      while i < |taken|
        invariant 0 <= i <= |taken| && residency.Valid() && free == old(free)
        invariant order == old(order) + taken[..i]
        invariant slot == OccupiedBy(old(slot), taken, slots, i)
        invariant residency.View() == PutN(now, taken, locs, i)
      {
        DistinctLast(taken, i + 1);
        PutNKeeps(now, taken, locs, i, taken[i]);
        OccupiedKeeps(old(slot), taken, slots, i, taken[i]);
        PutNStep(now, taken, locs, i);
        OccupiedStep(old(slot), taken, slots, i);
        if taken[i] !in slot {
          order := order + [taken[i]];
        }
        slot := slot[taken[i] := slots[i]];
        var ok := residency.MarkStaging(taken[i], slots[i]);
        i := i + 1;
      }
      assert taken[..i] == taken;
    }

    /** Phases one to three for the blocks that must be fetched. */
    method Fetch(fetch: seq<BlockRef>, reach: nat, ghost plan: Plan)
      returns (res: Result<(seq<BlockRef>, seq<nat>, seq<BlockRef>)>)
      requires residency.Valid() && memory.Valid() && base + numSlots <= memory.numPages
      requires Fetchable(View(), residency.View(), fetch, numSlots, memory.numSlots)
      requires plan == FetchPlan(KeyOf(scorer.scores), View(), fetch)
      modifies this, residency, memory`gpu
      ensures residency.Valid() && memory.Valid()
      ensures reach < memory.d.layers ==>
        && res == Err(CopyError)
        && RolledBack(base, old(View()), old(residency.View()), plan, old(memory.GpuPages()),
                      View(), residency.View(), memory.GpuPages())
      ensures reach >= memory.d.layers ==>
        && PlanFits(old(View()), old(residency.View()), plan)
        && res == Ok((plan.taken, PlannedSlots(old(View()), old(residency.View()), plan), plan.skipped))
        && Served(memory.d, base, old(View()), old(residency.View()), plan, old(memory.GpuPages()), memory.CpuSlots(),
                  View(), residency.View(), memory.GpuPages())
    {
      hide Agree, Reserved, Distinct, Occupants, PlanFits, Ranked, Fetchable, Served, RolledBack, CanFetch;
      ghost var p, t, gpu0 := View(), residency.View(), memory.GpuPages();
      FetchableFacts(p, t, fetch, numSlots, memory.numSlots);
      var cpuSlots := CpuSlotsOf(Table(residency.order, residency.blocks, residency.cpuVersion), fetch);
      var taken, slots, skipped := Reserve(fetch);
      ghost var p1, t1 := View(), residency.View();
      ReservedFits(KeyOf(scorer.scores), p, t, fetch, numSlots, memory.numSlots, p1, t1, slots);
      var ok := memory.FetchBatch(cpuSlots[..|taken|], StagingPages(base, slots), reach);
      if !ok {
        free := free + slots;
        ReservedRollsBack(KeyOf(scorer.scores), p, t, fetch, numSlots, memory.numSlots, p1, t1, slots,
                          base, gpu0, memory.GpuPages());
        return Err(CopyError);
      }
      Publish(taken, slots, t);
      ReservedIsServed(KeyOf(scorer.scores), p, t, fetch, numSlots, memory.numSlots, p1, t1, slots,
                       memory.d, base, gpu0, memory.CpuSlots(), cpuSlots[..|taken|], memory.GpuPages());
      res := Ok((taken, slots, skipped));
    }

    /** Stages a list of blocks: a lookup pass, then reserve or evict, copy, publish. `reach` is the
        number of layers the copy gets through. */
    method EnsureResident(refs: seq<BlockRef>, reach: nat)
      returns (res: Result<(map<BlockRef, nat>, seq<BlockRef>)>)
      requires Valid()
      modifies this, residency, memory`gpu
      ensures Valid()
      ensures forall numPages :: PagesWithin(old(residency.View()), numPages) ==>
        PagesWithin(residency.View(), numPages)
      ensures EnsurePost(KeyOf(scorer.scores), memory.d, base, old(View()), old(residency.View()),
                         old(memory.GpuPages()), memory.CpuSlots(), refs, memory.d.layers <= reach,
                         res, View(), residency.View(), memory.GpuPages())
    {
      hide Agree, Settled, ToFetch, Hits, Touched, CopiesWithin, PlanFits, Dedup, Served, RolledBack, Fetchable,
           EnsurePost, PagesWithin;
      ghost var p, t, gpu := View(), residency.View(), memory.GpuPages();
      ghost var key, copied := KeyOf(scorer.scores), memory.d.layers <= reach;
      AgreeTableOk(t, residency.numCpu, residency.byRequest);
      TableLocations(t);
      var found := Lookup(refs);
      EnsureLooksUp(key, memory.d, base, p, t, gpu, memory.CpuSlots(), refs, copied);
      if found.Err? {
        EnsureKeepsValid(key, p, t, gpu, refs, copied, Err(found.error));
        return Err(found.error);
      }
      var (staged, fetch) := found.value;
      if fetch == [] {
        EnsureKeepsValid(key, p, t, gpu, refs, copied, Ok((staged, [])));
        return Ok((staged, []));
      }
      SettledIsFetchable(p, t, refs, numSlots, memory.numSlots);
      var out := Fetch(fetch, reach, FetchPlan(key, View(), fetch));
      EnsureFetches(key, memory.d, base, p, t, gpu, memory.CpuSlots(), refs, copied,
                    View(), residency.View(), memory.GpuPages());
      if out.Err? {
        EnsureKeepsValid(key, p, t, gpu, refs, copied, Err(out.error));
        return Err(out.error);
      }
      var (taken, slots, skipped) := out.value;
      res := Ok((WithSlots(staged, taken, slots), skipped));
      EnsureKeepsValid(key, p, t, gpu, refs, copied, res);
    }

    /** What a fetch leaves behind is ready for the next one. */
    lemma EnsureKeepsValid(key: BlockRef -> Score, p: Pool, t: Table, gpu: seq<Page>, refs: seq<BlockRef>, copied: bool,
                           res: Result<(map<BlockRef, nat>, seq<BlockRef>)>)
      requires residency.Valid() && memory.Valid() && base + numSlots <= memory.numPages
      requires Settled(p, t, numSlots) && CopiesWithin(t, memory.numSlots)
      requires EnsurePost(key, memory.d, base, p, t, gpu, memory.CpuSlots(), refs, copied,
                          res, View(), residency.View(), memory.GpuPages())
      ensures Valid()
      ensures forall numPages :: PagesWithin(t, numPages) ==> PagesWithin(residency.View(), numPages)
    {
      hide Agree, EnsurePost, Settled;
      EnsureKeepsSettled(key, memory.d, base, p, t, gpu, memory.CpuSlots(), refs, copied, res, View(), residency.View(),
                         memory.GpuPages(), numSlots);
      EnsureSameCopies(key, memory.d, base, p, t, gpu, memory.CpuSlots(), refs, copied, res, View(), residency.View(),
                       memory.GpuPages());
      forall r | r in residency.View().blocks ensures r in t.blocks {
        assert r in residency.View().blocks.Keys;
      }
    }

    /** Recycles a staging slot; the block's CPU copy becomes its residency again. */
    method Release(r: BlockRef)
      requires residency.Valid()
      modifies this, residency
      ensures residency.Valid()
      ensures old(Valid()) ==> Valid()
      ensures View() == ReleasedPool(old(View()), r)
      ensures residency.View() == ReleasedTable(old(View()), old(residency.View()), r)
    {
      hide Agree, Settled;
      if old(Valid()) {
        AgreeTableOk(residency.View(), residency.numCpu, residency.byRequest);
        ReleaseKeepsSettled(View(), residency.View(), r, numSlots);
      }
      if r !in slot {
        return;
      }
      var s := slot[r];
      order, slot, free := Without(order, r), slot - {r}, free + [s];
      if r in residency.blocks {
        var l := residency.blocks[r];
        if l.residency == STAGING && l.stagingSlot == Some(s) && l.cpuSlot.Some? {
          var ok := residency.MarkCpu(r, l.cpuSlot.value);
        }
      }
    }
  }

}
