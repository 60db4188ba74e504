/** Finishing a request gives back everything it held: slots, staging pages, scores, page references. */
module EngineFinish {
  import opened Blocks
  import opened Residencies
  import opened Layout
  import opened Offloading
  import opened Staging
  import opened StagingTheory
  import opened Engine
  import opened EngineStage

  /** Only the blocks of `gone` have been dropped from the table. */
  ghost predicate BlocksDropped(t: Table, gone: set<BlockRef>, t': Table) {
    && t'.blocks.Keys == t.blocks.Keys - gone
    && (forall r :: r in t'.blocks ==> r in t.blocks && t'.blocks[r] == t.blocks[r])
  }

  ghost predicate CleanedOf(c: Core, gone: set<BlockRef>, c': Core) {
    && BlocksDropped(c.table, gone, c'.table)
    && c'.scored == c.scored - gone && c'.scores == c.scores - gone
    && c'.reqBlocks == c.reqBlocks && c'.gpu == c.gpu && c'.cpu == c.cpu
  }

  lemma ReleaseDetaches(cfg: Config, s: State, r: BlockRef, s': State)
    requires CoreInv(cfg, s) && s'.core == ReleasedCore(s.core, r)
    ensures CoreInv(cfg, s') && !Resides(s'.core.table, r, STAGING)
    ensures s'.core.table.blocks.Keys == s.core.table.blocks.Keys
    ensures forall k :: k in s'.core.table.blocks && k != r ==> s'.core.table.blocks[k] == s.core.table.blocks[k]
  {
    hide CopiesPartition, Settled, GpuHoldsNoCopy, ReleasedPool, ReleasedTable, SameCopies, ToSet;
    TableLocations(s.core.table);
    ReleaseKeepsSettled(s.core.pool, s.core.table, r, cfg.stagingSlots);
    if Resides(s.core.table, r, STAGING) {
      var slot := s.core.table.blocks[r].cpuSlot.value;
      MarkedCpuFacts(s.core.table, r, slot);
      SameCopiesKeeps(s.core.table, s'.core.table, s.core.cpuFree, cfg.cpuSlots);
      assert s'.core.table.blocks.Keys == s.core.table.blocks.Keys;
    }
  }

  lemma FreeKeepsCopies(t: Table, free: seq<nat>, n: nat, r: BlockRef)
    requires CopiesPartition(t.blocks, free, n)
    ensures CopiesPartition(Removed(t, r).blocks, free + SlotList(t.blocks, r), n)
  {
    var t', free' := Removed(t, r), free + SlotList(t.blocks, r);
    forall x | 0 <= x < n && x !in free' ensures exists k :: k in t'.blocks && t'.blocks[k].cpuSlot == Some(x) {
      var k :| k in t.blocks && t.blocks[k].cpuSlot == Some(x);
      assert k in t'.blocks;
    }
  }

  lemma FreeKeepsCore(cfg: Config, s: State, r: BlockRef, s': State)
    requires CoreInv(cfg, s) && !Resides(s.core.table, r, STAGING) && s'.core == FreedCore(s.core, r)
    ensures CoreInv(cfg, s') && BlocksDropped(s.core.table, {r}, s'.core.table)
  {
    hide CopiesPartition, TableOk, Without;
    RemoveKeepsTableOk(s.core.table, r);
    FreeKeepsCopies(s.core.table, s.core.cpuFree, cfg.cpuSlots, r);
    SettledParts(s.core.pool, s.core.table, cfg.stagingSlots);
    hide Partition;
    assert Mirrors(s'.core.pool, s'.core.table);
  }

  /** The cleanup loop after n of the request's blocks. */
  lemma {:induction false} CleanedFacts(cfg: Config, s: State, refs: seq<BlockRef>, n: nat, s': State)
    requires CoreInv(cfg, s) && n <= |refs| && s'.core == CleanedN(s.core, refs, n)
    ensures CoreInv(cfg, s') && CleanedOf(s.core, ToSet(refs[..n]), s'.core)
  {
    hide CoreInv, ReleasedPool, ReleasedTable, Removed, SlotList;
    if n == 0 {
      SameCore(cfg, s, s');
    } else {
      var s1 := s.(core := CleanedN(s.core, refs, n - 1));
      CleanedFacts(cfg, s, refs, n - 1, s1);
      var r := refs[n - 1];
      var s2 := s.(core := ReleasedCore(s1.core, r));
      ReleaseDetaches(cfg, s1, r, s2);
      FreeKeepsCore(cfg, s2, r, s');
      assert ToSet(refs[..n]) == ToSet(refs[..n - 1]) + {r};
    }
  }

  lemma CleanedRequest(cfg: Config, s: State, q: string, s': State)
    requires Inv(cfg, s) && s'.core == CleanedCore(s.core, q)
    ensures CoreInv(cfg, s')
    ensures CleanedOf(s.core.(reqBlocks := s.core.reqBlocks - {q}), BlocksOf(s.core.table.blocks, q), s'.core)
  {
    hide CoreInv, Placed, Filled, ScoredExactly, EventsSafe, Counted, AllIntact, Mirrored, CleanedN, CleanedOf;
    var refs := if q in s.core.reqBlocks then s.core.reqBlocks[q] else [];
    var s0 := s.(core := s.core.(reqBlocks := s.core.reqBlocks - {q}));
    SameCore(cfg, s, s0);
    CleanedFacts(cfg, s0, refs, |refs|, s');
    assert refs[..|refs|] == refs;
    assert ToSet(refs) == BlocksOf(s.core.table.blocks, q) by {
      forall r | r in BlocksOf(s.core.table.blocks, q) ensures r in refs {
        assert refs == RefsOf(q, |refs|);
        assert refs[r.idx] == BlockRef(q, r.idx) == r;
      }
    }
  }

  lemma SameCore(cfg: Config, s: State, s0: State)
    requires CoreInv(cfg, s) && s0.core == s.core.(reqBlocks := s0.core.reqBlocks)
    ensures CoreInv(cfg, s0)
  {
  }

  lemma HoldersWithout(tables: map<string, seq<nat>>, q: string, p: nat)
    ensures |Holders(tables, p)| == |Holders(tables - {q}, p)| + |set r | r in Holders(tables, p) && r.req == q|
  {
    var all, rest := Holders(tables, p), Holders(tables - {q}, p);
    var mine := set r | r in all && r.req == q;
    assert all == rest + mine && rest !! mine;
  }

  lemma FinishedCounts(cfg: Config, s: State, q: string, s': State)
    requires Counted(cfg, s) && Finish(cfg, s, q, s')
    ensures Counted(cfg, s')
  {
    hide CleanedCore, Holders;
    forall p | 0 <= p < |s'.refCnt| && p != cfg.nullPage
      ensures s'.refCnt[p] == |Holders(s'.tables, p)| + (if p >= cfg.base then 1 else 0)
    {
      HoldersWithout(s.tables, q, p);
    }
  }

  lemma FinishedMembers(c: Core, q: string, c': Core)
    requires Members(c) && CleanedOf(c.(reqBlocks := c.reqBlocks - {q}), BlocksOf(c.table.blocks, q), c')
    ensures Members(c')
  {
  }

  lemma FinishedListed(c: Core, tables: map<string, seq<nat>>, q: string, c': Core)
    requires Listed(c, tables) && c'.reqBlocks == c.reqBlocks - {q}
    ensures Listed(c', tables - {q})
  {
    hide RefsOf, IsWarmup;
  }

  lemma FinishedTracked(cfg: Config, s: State, q: string, s': State)
    requires Tracked(s) && Finish(cfg, s, q, s')
    requires CleanedOf(s.core.(reqBlocks := s.core.reqBlocks - {q}), BlocksOf(s.core.table.blocks, q), s'.core)
    ensures Tracked(s')
  {
    hide CleanedCore, Holders, Members, Listed;
    FinishedMembers(s.core, q, s'.core);
    FinishedListed(s.core, s.tables, q, s'.core);
    assert s'.logical.Keys == s'.core.table.blocks.Keys;
  }

  lemma FinishedFilled(cfg: Config, s: State, q: string, s': State)
    requires Filled(cfg, s) && ScoredExactly(s.core) && Finish(cfg, s, q, s')
    requires CleanedOf(s.core.(reqBlocks := s.core.reqBlocks - {q}), BlocksOf(s.core.table.blocks, q), s'.core)
    ensures Filled(cfg, s') && ScoredExactly(s'.core)
  {
    hide CleanedCore, Holders, Full;
  }

  lemma FinishedPlaced(cfg: Config, s: State, q: string, s': State)
    requires Placed(cfg, s) && Finish(cfg, s, q, s')
    requires CleanedOf(s.core.(reqBlocks := s.core.reqBlocks - {q}), BlocksOf(s.core.table.blocks, q), s'.core)
    ensures Placed(cfg, s')
  {
    hide CleanedCore, Holders;
    forall r | HasEntry(s'.tables, r) ensures HasEntry(s.tables, r) && EntryOf(s'.tables, r) == EntryOf(s.tables, r) {
    }
  }

  lemma FinishedIntact(cfg: Config, s: State, q: string, s': State)
    requires AllIntact(cfg, s) && Finish(cfg, s, q, s')
    requires CleanedOf(s.core.(reqBlocks := s.core.reqBlocks - {q}), BlocksOf(s.core.table.blocks, q), s'.core)
    ensures AllIntact(cfg, s')
  {
    hide CleanedCore, Holders, Unpack, PageShape;
    forall r | r in s'.core.table.blocks ensures Intact(cfg, s'.core, s'.tables, s'.logical, r) {
      assert Intact(cfg, s.core, s.tables, s.logical, r);
    }
  }

  lemma FinishedEvents(cfg: Config, s: State, q: string, s': State)
    requires EventsSafe(cfg, s) && Finish(cfg, s, q, s')
    requires CleanedOf(s.core.(reqBlocks := s.core.reqBlocks - {q}), BlocksOf(s.core.table.blocks, q), s'.core)
    ensures EventsSafe(cfg, s')
  {
    hide CleanedCore, Holders;
    forall e | EntrySafe(cfg, s, e) ensures EntrySafe(cfg, s', e) {
    }
  }

  lemma FinishKeepsInv(cfg: Config, s: State, q: string, s': State)
    requires Inv(cfg, s) && Finish(cfg, s, q, s')
    ensures Inv(cfg, s')
  {
    hide CoreInv, Placed, Filled, ScoredExactly, EventsSafe, Counted, AllIntact, Tracked, CleanedCore;
    CleanedRequest(cfg, s, q, s');
    FinishedCounts(cfg, s, q, s');
    FinishedTracked(cfg, s, q, s');
    FinishedFilled(cfg, s, q, s');
    FinishedPlaced(cfg, s, q, s');
    FinishedIntact(cfg, s, q, s');
    FinishedEvents(cfg, s, q, s');
  }

  // ------------------------------------------------------------------ no leaks

  /** Once no request is tracked, every CPU slot and every staging slot is free again, and the table,
      the recency order and the scorer's state are empty. */
  lemma NothingLeaks(cfg: Config, s: State)
    requires Inv(cfg, s) && s.core.reqBlocks == map[]
    ensures s.core.table.blocks == map[] && s.core.table.order == []
    ensures s.core.scored == {} && s.core.scores == map[]
    ensures s.core.pool.order == [] && s.core.pool.slot == map[]
    ensures |s.core.cpuFree| == cfg.cpuSlots && (forall x :: x in s.core.cpuFree <==> 0 <= x < cfg.cpuSlots)
    ensures |s.core.pool.free| == cfg.stagingSlots && (forall x :: x in s.core.pool.free <==> 0 <= x < cfg.stagingSlots)
  {
    hide Placed, Filled, EventsSafe, Counted, AllIntact, Listed, Mirrored;
    var c := s.core;
    assert c.table.blocks.Keys == {};
    DistinctCardinality(c.table.order);
    assert c.pool.slot.Keys == {};
    DistinctCardinality(c.pool.order);
    assert c.scores.Keys == {};
    FullFreeList(c.cpuFree, cfg.cpuSlots);
    FullFreeList(c.pool.free, cfg.stagingSlots);
  }

  /** No block on the GPU sits on a page that could be handed out again. */
  ghost predicate PagesHeld(cfg: Config, s: State) {
    forall r :: Resides(s.core.table, r, GPU) ==>
      && s.core.table.blocks[r].gpu.Some? && s.core.table.blocks[r].gpu.value < |s.refCnt|
      && s.core.table.blocks[r].gpu.value < cfg.base && s.refCnt[s.core.table.blocks[r].gpu.value] > 0
  }

  /** In every reachable state a block on the GPU keeps its page. */
  lemma GpuPagesAreHeld(cfg: Config, s: State)
    requires ConfigOk(cfg) && Inv(cfg, s)
    ensures PagesHeld(cfg, s)
  {
    hide CoreInv, Filled, EventsSafe, AllIntact, Tracked, ScoredExactly;
    forall r | Resides(s.core.table, r, GPU)
      ensures s.core.table.blocks[r].gpu.Some? && s.core.table.blocks[r].gpu.value < |s.refCnt|
      ensures s.core.table.blocks[r].gpu.value < cfg.base && s.refCnt[s.core.table.blocks[r].gpu.value] > 0
    {
      assert r in Holders(s.tables, EntryOf(s.tables, r));
    }
  }
}
