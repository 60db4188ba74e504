/** Staging, evicting and releasing blocks: moves between CPU and staging pages. */
module EngineStage {
  import opened Blocks
  import opened Ranking
  import opened Residencies
  import opened Layout
  import opened Memory
  import opened Scoring
  import opened Moves
  import opened Staging
  import opened StagingTheory
  import opened Engine
  import opened EngineOffload

  lemma SameCopiesKeeps(t: Table, t': Table, free: seq<nat>, n: nat)
    requires SameCopies(t, t') && CopiesPartition(t.blocks, free, n) && GpuHoldsNoCopy(t.blocks)
    ensures CopiesPartition(t'.blocks, free, n) && GpuHoldsNoCopy(t'.blocks) && SameFill(t, t')
  {
    var b, b' := t.blocks, t'.blocks;
    forall r ensures r in b' <==> r in b {
      assert r in b'.Keys <==> r in b.Keys;
    }
    forall x | 0 <= x < n && x !in free ensures exists r :: r in b' && b'[r].cpuSlot == Some(x) {
      var r :| r in b && b[r].cpuSlot == Some(x);
      assert r in b' && b'[r].cpuSlot == Some(x);
    }
  }

  lemma EvictedTableOk(p: Pool, t: Table, v: seq<BlockRef>, e: nat)
    requires TableOk(t) && RankingOf(p, t, v) && e <= |v|
    ensures TableOk(EvictedTable(t, v, e))
  {
    hide Distinct, PutN, ToSet;
    PutNTableOk(t, v, CpuLocations(t, v, CpuSlotsOf(t, v)), e);
  }

  lemma FetchedTableOk(p: Pool, t: Table, plan: Plan)
    requires TableOk(t) && PlanFits(p, t, plan)
    ensures TableOk(FetchedTable(p, t, plan))
  {
    hide Distinct, PutN, ToSet, EvictedTable, ReservedSlots;
    EvictedTableOk(p, t, plan.ranking, plan.evict);
    PutNTableOk(EvictedTable(t, plan.ranking, plan.evict), plan.taken,
                StagingLocations(t, plan.taken, PlannedSlots(p, t, plan)), |plan.taken|);
  }

  /** What the table of a fetch looks like to the invariants, whichever way the fetch ended. */
  lemma EnsureTable(
      key: BlockRef -> Score, d: Dims, base: nat, p: Pool, t: Table, gpu: seq<Page>, cpu: seq<Slab>,
      refs: seq<BlockRef>, copied: bool,
      res: Result<(map<BlockRef, nat>, seq<BlockRef>)>, p': Pool, t': Table, gpu': seq<Page>)
    requires TableOk(t) && EnsurePost(key, d, base, p, t, gpu, cpu, refs, copied, res, p', t', gpu')
    ensures TableOk(t') && SameCopies(t, t')
  {
    hide TableOk, ToFetch, Hits, Touched, Dedup, Ranked, CanFetch, FetchedPages, OnlyPages, FetchedPool, FailedPool,
         FetchedTable, EvictedTable, OccupiedBy, PlannedSlots, Distinct, SameCopies;
    EnsureSameCopies(key, d, base, p, t, gpu, cpu, refs, copied, res, p', t', gpu');
    if (forall r :: r in refs ==> r in t.blocks) && ToFetch(t.blocks, refs) != [] {
      var plan := PlanFor(key, t.blocks, p, refs);
      if copied {
        FetchedTableOk(p, t, plan);
      } else {
        EvictedTableOk(p, t, plan.ranking, plan.evict);
      }
    }
  }

  /** The staging pages after the copies: taken blocks' pages hold their copies, all others stay. */
  lemma FetchedPageFacts(d: Dims, gpu: seq<Page>, cpu: seq<Slab>, base: nat, t: Table, taken: seq<BlockRef>,
                         slots: seq<nat>)
    requires CanFetch(gpu, cpu, base, t, taken, slots) && Distinct(slots)
    ensures var gpu' := FetchedPages(d, gpu, cpu, base, t, taken, slots);
      && OnlyPages(gpu, gpu', StagingPages(base, slots))
      && (forall i :: 0 <= i < |taken| ==>
            gpu'[base + slots[i]] == Unpack(d, cpu[t.blocks[taken[i]].cpuSlot.value]))
  {
    hide Unpack, Scatter;
    var pages, vals := StagingPages(base, slots), UnpackEach(d, cpu, CpuSlotsOf(t, taken));
    ScatterFacts(gpu, pages, vals, |slots|);
    assert pages[..|slots|] == pages;
    var gpu' := FetchedPages(d, gpu, cpu, base, t, taken, slots);
    forall i | 0 <= i < |taken| ensures gpu'[base + slots[i]] == Unpack(d, cpu[t.blocks[taken[i]].cpuSlot.value]) {
      assert gpu'[pages[i]] == vals[i];
    }
  }

  ghost predicate StagedPage(gpu: seq<Page>, base: nat, l: Location, page: Page) {
    l.residency == STAGING ==>
      l.stagingSlot.Some? && base + l.stagingSlot.value < |gpu| && gpu[base + l.stagingSlot.value] == page
  }

  /** Contents survive a move between CPU and staging as long as normal pages stay as they are and
      every staged block's page holds its contents. */
  lemma StageIntact(cfg: Config, s: State, s': State)
    requires AllIntact(cfg, s) && Placed(cfg, s) && SameCopies(s.core.table, s'.core.table)
    requires s'.core.cpu == s.core.cpu && s'.tables == s.tables && s'.logical == s.logical
    requires |s'.core.gpu| == |s.core.gpu|
    requires forall x :: 0 <= x < |s.core.gpu| && x < cfg.base ==> s'.core.gpu[x] == s.core.gpu[x]
    requires forall x :: 0 <= x < |s'.core.gpu| ==> PageShape(cfg.d, s'.core.gpu[x])
    requires forall r :: r in s'.core.table.blocks && r in s.logical ==>
      StagedPage(s'.core.gpu, cfg.base, s'.core.table.blocks[r], s.logical[r])
    ensures AllIntact(cfg, s')
  {
    hide Unpack, PageShape;
    forall r | r in s'.core.table.blocks ensures Intact(cfg, s'.core, s'.tables, s'.logical, r) {
      assert r in s.core.table.blocks.Keys;
      assert Intact(cfg, s.core, s.tables, s.logical, r);
      assert StagedPage(s'.core.gpu, cfg.base, s'.core.table.blocks[r], s.logical[r]);
    }
  }

  lemma StagingPagesAbove(gpu: seq<Page>, gpu': seq<Page>, base: nat, slots: seq<nat>)
    requires OnlyPages(gpu, gpu', StagingPages(base, slots))
    ensures forall x :: 0 <= x < |gpu| && x < base ==> gpu'[x] == gpu[x]
    ensures forall y :: 0 <= y && base + y < |gpu| && y !in slots ==> gpu'[base + y] == gpu[base + y]
  {
    var pages := StagingPages(base, slots);
    forall y | 0 <= y && base + y < |gpu| && y !in slots ensures base + y !in pages {
      forall i | 0 <= i < |pages| ensures pages[i] != base + y {
        assert slots[i] in slots;
      }
    }
  }

  /** A staged block that was neither evicted nor fetched keeps a slot the batch did not touch. */
  lemma SurvivorPage(cfg: Config, s: State, plan: Plan, slots: seq<nat>, gpu': seq<Page>, r: BlockRef)
    requires Settled(s.core.pool, s.core.table, cfg.stagingSlots) && r in s.logical
    requires plan.fromFree <= |s.core.pool.free| && plan.evict <= |plan.ranking|
    requires SlotsMove(s.core.pool, plan, slots, cfg.stagingSlots)
    requires OnlyPages(s.core.gpu, gpu', StagingPages(cfg.base, slots))
    requires Intact(cfg, s.core, s.tables, s.logical, r) && r !in plan.ranking[..plan.evict]
    ensures StagedPage(gpu', cfg.base, s.core.table.blocks[r], s.logical[r])
  {
    hide Unpack, PageShape, Partition;
    StagingPagesAbove(s.core.gpu, gpu', cfg.base, slots);
    if s.core.table.blocks[r].residency == STAGING {
      assert Resides(s.core.table, r, STAGING);
      assert r in s.core.pool.slot;
    }
  }

  /** After a failed copy: evicted blocks are on their CPU copies, survivors' pages are untouched. */
  lemma RolledBackIntact(cfg: Config, s: State, plan: Plan, s': State)
    requires Inv(cfg, s) && SameCopies(s.core.table, s'.core.table)
    requires RolledBack(cfg.base, s.core.pool, s.core.table, plan, s.core.gpu, s'.core.pool, s'.core.table, s'.core.gpu)
    requires s'.core.cpu == s.core.cpu && s'.tables == s.tables && s'.logical == s.logical
    requires forall x :: 0 <= x < |s'.core.gpu| ==> PageShape(cfg.d, s'.core.gpu[x])
    ensures AllIntact(cfg, s')
  {
    hide FailedPool, EvictedTable, PlannedSlots, PageShape, SameCopies, Placed, Filled, ScoredExactly, EventsSafe,
         Counted, Tracked, TableOk, CopiesPartition, GpuHoldsNoCopy, Settled, Intact, PlanFits, EvictMoves;
    var c := s.core;
    var slots := PlannedSlots(c.pool, c.table, plan);
    SettledParts(c.pool, c.table, cfg.stagingSlots);
    PlanFitsBounds(c.pool, c.table, plan);
    PlanRanking(c.pool, c.table, plan);
    PlannedSlotsMove(c.pool, c.table, plan, cfg.stagingSlots);
    EvictedMoves(c.pool, c.table, plan.ranking, plan.evict);
    StagingPagesAbove(c.gpu, s'.core.gpu, cfg.base, slots);
    hide SlotsMove;
    forall r | r in s'.core.table.blocks && r in s.logical
      ensures StagedPage(s'.core.gpu, cfg.base, s'.core.table.blocks[r], s.logical[r])
    {
      EvictMovesAt(c.table, plan.ranking[..plan.evict], s'.core.table, r);
      if r !in plan.ranking[..plan.evict] {
        SurvivorPage(cfg, s, plan, slots, s'.core.gpu, r);
      }
    }
    StageIntact(cfg, s, s');
  }

  lemma PlanRanking(p: Pool, t: Table, plan: Plan)
    requires PlanFits(p, t, plan)
    ensures RankingOf(p, t, plan.ranking)
  {
  }

  lemma EvictMovesAt(t: Table, out: seq<BlockRef>, t': Table, r: BlockRef)
    requires EvictMoves(t, out, t') && r in t'.blocks
    ensures r in t.blocks && (r in out ==> t'.blocks[r].residency == CPU) && (r !in out ==> t'.blocks[r] == t.blocks[r])
  {
    assert r in t'.blocks.Keys;
  }

  lemma FetchMovesAt(t: Table, out: seq<BlockRef>, taken: seq<BlockRef>, slots: seq<nat>, t': Table, r: BlockRef)
    requires FetchMoves(t, out, taken, slots, t') && r in t'.blocks
    ensures r in t.blocks
    ensures r in out ==> t'.blocks[r].residency == CPU
    ensures r !in out && r !in taken ==> t'.blocks[r] == t.blocks[r]
  {
    assert r in t'.blocks.Keys;
  }

  /** After a served fetch: each taken block's staging page holds what its CPU copy held. */
  lemma ServedIntact(cfg: Config, s: State, plan: Plan, s': State)
    requires Inv(cfg, s) && SameCopies(s.core.table, s'.core.table)
    requires Served(cfg.d, cfg.base, s.core.pool, s.core.table, plan, s.core.gpu, s.core.cpu,
                    s'.core.pool, s'.core.table, s'.core.gpu)
    requires s'.core.cpu == s.core.cpu && s'.tables == s.tables && s'.logical == s.logical
    requires forall x :: 0 <= x < |s'.core.gpu| ==> PageShape(cfg.d, s'.core.gpu[x])
    ensures AllIntact(cfg, s')
  {
    hide FetchedPool, FetchedTable, PlannedSlots, PageShape, SameCopies, Placed, Filled, ScoredExactly, EventsSafe,
         Counted, Tracked, TableOk, CopiesPartition, GpuHoldsNoCopy, Settled, Intact, PlanFits, FetchMoves,
         FetchedPages, CanFetch, Distinct;
    var c := s.core;
    var slots := PlannedSlots(c.pool, c.table, plan);
    SettledParts(c.pool, c.table, cfg.stagingSlots);
    PlanFitsBounds(c.pool, c.table, plan);
    PlannedSlotsMove(c.pool, c.table, plan, cfg.stagingSlots);
    FetchedMoves(c.pool, c.table, plan);
    FetchedPageFacts(cfg.d, c.gpu, c.cpu, cfg.base, c.table, plan.taken, slots);
    StagingPagesAbove(c.gpu, s'.core.gpu, cfg.base, slots);
    hide SlotsMove;
    forall r | r in s'.core.table.blocks && r in s.logical
      ensures StagedPage(s'.core.gpu, cfg.base, s'.core.table.blocks[r], s.logical[r])
    {
      FetchMovesAt(c.table, plan.ranking[..plan.evict], plan.taken, slots, s'.core.table, r);
      if r in plan.taken {
        var i :| 0 <= i < |plan.taken| && plan.taken[i] == r;
        TakenPage(cfg, s, plan, slots, s', i);
      } else if r !in plan.ranking[..plan.evict] {
        SurvivorPage(cfg, s, plan, slots, s'.core.gpu, r);
      }
    }
    StageIntact(cfg, s, s');
  }

  lemma TakenPage(cfg: Config, s: State, plan: Plan, slots: seq<nat>, s': State, i: nat)
    requires i < |plan.taken| && |slots| == |plan.taken| && plan.taken[i] in s.logical
    requires PlanFits(s.core.pool, s.core.table, plan)
    requires Intact(cfg, s.core, s.tables, s.logical, plan.taken[i])
    requires FetchMoves(s.core.table, plan.ranking[..plan.evict], plan.taken, slots, s'.core.table)
    requires CanFetch(s.core.gpu, s.core.cpu, cfg.base, s.core.table, plan.taken, slots)
    requires |s'.core.gpu| == |s.core.gpu|
    requires s'.core.gpu[cfg.base + slots[i]] ==
      Unpack(cfg.d, s.core.cpu[s.core.table.blocks[plan.taken[i]].cpuSlot.value])
    ensures plan.taken[i] in s'.core.table.blocks
    ensures StagedPage(s'.core.gpu, cfg.base, s'.core.table.blocks[plan.taken[i]], s.logical[plan.taken[i]])
  {
    hide Unpack, PageShape, Distinct, RankingOf;
    var r := plan.taken[i];
    assert Resides(s.core.table, r, CPU);
    assert s'.core.table.blocks[r] == OnStaging(s.core.table.blocks[r], slots[i]);
  }

  lemma StageKeepsInv(cfg: Config, s: State, refs: seq<BlockRef>, copied: bool, s': State)
    requires Inv(cfg, s) && Stage(cfg, s, refs, copied, s')
    ensures Inv(cfg, s')
  {
    hide EnsurePost, PageShape, Placed, Filled, ScoredExactly, EventsSafe, Counted, Tracked, TableOk, CopiesPartition,
         GpuHoldsNoCopy, Settled, AllIntact, SameCopies, SameFill;
    var c, c', key := s.core, s'.core, KeyOf(s.core.scores);
    var res :| EnsurePost(key, cfg.d, cfg.base, c.pool, c.table, c.gpu, c.cpu, refs, copied, res, c'.pool, c'.table,
                          c'.gpu);
    EnsureTable(key, cfg.d, cfg.base, c.pool, c.table, c.gpu, c.cpu, refs, copied, res, c'.pool, c'.table, c'.gpu);
    SameCopiesKeeps(c.table, c'.table, c.cpuFree, cfg.cpuSlots);
    EnsureKeepsSettled(key, cfg.d, cfg.base, c.pool, c.table, c.gpu, c.cpu, refs, copied, res, c'.pool, c'.table,
                       c'.gpu, cfg.stagingSlots);
    EnsureSameSize(key, cfg.d, cfg.base, c.pool, c.table, c.gpu, c.cpu, refs, copied, res, c'.pool, c'.table, c'.gpu);
    StagePostIntact(cfg, s, refs, copied, res, s');
    MovesKeep(cfg, s, s');
  }

  lemma EnsureSameSize(
      key: BlockRef -> Score, d: Dims, base: nat, p: Pool, t: Table, gpu: seq<Page>, cpu: seq<Slab>,
      refs: seq<BlockRef>, copied: bool,
      res: Result<(map<BlockRef, nat>, seq<BlockRef>)>, p': Pool, t': Table, gpu': seq<Page>)
    requires EnsurePost(key, d, base, p, t, gpu, cpu, refs, copied, res, p', t', gpu')
    ensures |gpu'| == |gpu|
  {
    hide ToFetch, Hits, Touched, Dedup, Ranked, FetchedPool, FailedPool, PlanFits, FetchedTable, EvictedTable,
         OccupiedBy, PlannedSlots, CanFetch;
  }

  lemma StagePostIntact(cfg: Config, s: State, refs: seq<BlockRef>, copied: bool,
                        res: Result<(map<BlockRef, nat>, seq<BlockRef>)>, s': State)
    requires Inv(cfg, s) && SameCopies(s.core.table, s'.core.table)
    requires EnsurePost(KeyOf(s.core.scores), cfg.d, cfg.base, s.core.pool, s.core.table, s.core.gpu, s.core.cpu,
                        refs, copied, res, s'.core.pool, s'.core.table, s'.core.gpu)
    requires s'.core.cpu == s.core.cpu && s'.tables == s.tables && s'.logical == s.logical
    requires forall x :: 0 <= x < |s'.core.gpu| ==> PageShape(cfg.d, s'.core.gpu[x])
    ensures AllIntact(cfg, s')
  {
    hide ToFetch, Hits, Touched, Dedup, Ranked, Served, RolledBack, PageShape, Placed, Filled, ScoredExactly,
         EventsSafe, Counted, Tracked, CoreInv, PlanFits, SameCopies, OccupiedBy;
    if (forall r :: r in refs ==> r in s.core.table.blocks) && ToFetch(s.core.table.blocks, refs) != [] {
      var plan := PlanFor(KeyOf(s.core.scores), s.core.table.blocks, s.core.pool, refs);
      if copied {
        ServedIntact(cfg, s, plan, s');
      } else {
        RolledBackIntact(cfg, s, plan, s');
      }
    } else {
      SameContents(cfg, s, s');
    }
  }

  lemma SameContents(cfg: Config, s: State, s': State)
    requires AllIntact(cfg, s) && s'.core.table == s.core.table && s'.core.gpu == s.core.gpu
    requires s'.core.cpu == s.core.cpu
    requires s'.tables == s.tables && s'.logical == s.logical
    ensures AllIntact(cfg, s')
  {
    hide PageShape, Unpack;
    forall r | r in s'.core.table.blocks ensures Intact(cfg, s'.core, s'.tables, s'.logical, r) {
      assert Intact(cfg, s.core, s.tables, s.logical, r);
    }
  }

  /** Releasing a staged block: its copy is its location again. */
  ghost predicate Release(s: State, r: BlockRef, s': State) {
    s' == s.(core := ReleasedCore(s.core, r))
  }

  lemma ReleaseKeepsCore(cfg: Config, s: State, r: BlockRef, s': State)
    requires CoreInv(cfg, s) && AllIntact(cfg, s)
    requires s'.core == ReleasedCore(s.core, r) && s'.tables == s.tables && s'.logical == s.logical
    ensures CoreInv(cfg, s') && AllIntact(cfg, s') && SameCopies(s.core.table, s'.core.table)
  {
    hide TableOk, CopiesPartition, Settled, AllIntact, GpuHoldsNoCopy, ReleasedPool, ReleasedTable, SameCopies;
    TableLocations(s.core.table);
    ReleaseKeepsSettled(s.core.pool, s.core.table, r, cfg.stagingSlots);
    if Resides(s.core.table, r, STAGING) {
      var slot := s.core.table.blocks[r].cpuSlot.value;
      MarkedCpuFacts(s.core.table, r, slot);
      SameCopiesKeeps(s.core.table, s'.core.table, s.core.cpuFree, cfg.cpuSlots);
      ReleasedIntact(cfg, s, r, s');
    } else {
      SameContents(cfg, s, s');
      NoCopiesMoved(s.core.table);
    }
  }

  lemma NoCopiesMoved(t: Table)
    ensures SameCopies(t, t)
  {
  }

  lemma MarkedCpuFacts(t: Table, r: BlockRef, slot: nat)
    requires TableOk(t) && Resides(t, r, STAGING) && t.blocks[r].cpuSlot == Some(slot)
    ensures TableOk(MarkedCpu(t, r, slot)) && SameCopies(t, MarkedCpu(t, r, slot))
  {
    PutKeepsTableOk(t, r, Location(CPU, t.blocks[r].gpu, Some(slot), None, t.blocks[r].complete));
    assert t.blocks.Keys == MarkedCpu(t, r, slot).blocks.Keys;
  }

  lemma ReleasedIntact(cfg: Config, s: State, r: BlockRef, s': State)
    requires AllIntact(cfg, s) && Resides(s.core.table, r, STAGING) && s.core.table.blocks[r].cpuSlot.Some?
    requires s'.core.table == MarkedCpu(s.core.table, r, s.core.table.blocks[r].cpuSlot.value)
    requires s'.core.gpu == s.core.gpu && s'.core.cpu == s.core.cpu && s'.tables == s.tables && s'.logical == s.logical
    ensures AllIntact(cfg, s')
  {
    hide PageShape, Unpack;
    forall k | k in s'.core.table.blocks ensures Intact(cfg, s'.core, s'.tables, s'.logical, k) {
      assert Intact(cfg, s.core, s.tables, s.logical, k);
    }
  }

  lemma ReleaseKeepsInv(cfg: Config, s: State, r: BlockRef, s': State)
    requires Inv(cfg, s) && Release(s, r, s')
    ensures Inv(cfg, s')
  {
    hide CoreInv, AllIntact, Placed, Filled, ScoredExactly, EventsSafe, Counted, Tracked, SameCopies, SameFill,
         ReleasedPool, ReleasedTable;
    ReleaseKeepsCore(cfg, s, r, s');
    CopiesAndFill(cfg, s, s');
    MovesKeep(cfg, s, s');
  }

  lemma CopiesAndFill(cfg: Config, s: State, s': State)
    requires CoreInv(cfg, s) && SameCopies(s.core.table, s'.core.table)
    ensures SameFill(s.core.table, s'.core.table)
  {
    hide TableOk, CopiesPartition, Settled;
    SameCopiesKeeps(s.core.table, s'.core.table, s.core.cpuFree, cfg.cpuSlots);
  }
}
