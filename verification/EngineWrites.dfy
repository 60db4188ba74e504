/** Writes to pages and slots: by the model into blocks being filled, by anyone into what is free. */
module EngineWrites {
  import opened Blocks
  import opened Residencies
  import opened Layout
  import opened Staging
  import opened Engine
  import opened EngineTables

  /** Invariants that do not read page contents survive any change of contents. */
  lemma ContentsOnly(cfg: Config, s: State, s': State)
    requires Inv(cfg, s)
    requires s' == s.(core := s.core.(gpu := s'.core.gpu, cpu := s'.core.cpu), logical := s'.logical)
    requires |s'.core.gpu| == |s.core.gpu| && |s'.core.cpu| == |s.core.cpu| && s'.logical.Keys == s.logical.Keys
    ensures Sized(cfg, s') && CoreInv(cfg, s') && Filled(cfg, s') && ScoredExactly(s'.core)
    ensures Counted(cfg, s') && Tracked(s') && Placed(cfg, s') && EventsSafe(cfg, s')
  {
    hide TableOk, CopiesPartition, Settled, GpuHoldsNoCopy, AllIntact, Holders, EventsSafe, CoreInv, Filled,
         ScoredExactly;
    CoreUnchanged(cfg, s, s');
    EventsUnchanged(cfg, s, s');
  }

  lemma EventsUnchanged(cfg: Config, s: State, s': State)
    requires EventsSafe(cfg, s)
    requires s'.acc == s.acc && s'.pending == s.pending && s'.nextEvent == s.nextEvent
    requires s'.tables == s.tables && s'.core.table == s.core.table
    ensures EventsSafe(cfg, s')
  {
    forall e | e in s.acc ensures EntrySafe(cfg, s', e) {
      assert EntrySafe(cfg, s, e);
    }
    forall k, e | k in s.pending && e in s.pending[k] ensures EntrySafe(cfg, s', e) {
      assert EntrySafe(cfg, s, e);
    }
  }

  /** A page that no other block reads through its table entry may be rewritten. */
  lemma PageRewritten(cfg: Config, s: State, p: nat, page: Page, s': State)
    requires ConfigOk(cfg) && AllIntact(cfg, s) && CoreInv(cfg, s) && PageShape(cfg.d, page)
    requires p < cfg.base && p < |s.core.gpu| && s'.core == s.core.(gpu := s.core.gpu[p := page])
    requires s'.tables == s.tables
    requires forall r :: r in s.core.table.blocks ==>
      if HasEntry(s.tables, r) && EntryOf(s.tables, r) == p && p != cfg.nullPage
      then r in s'.logical && s'.logical[r] == page && s.core.table.blocks[r].residency == GPU
      else r in s.logical && r in s'.logical && s'.logical[r] == s.logical[r]
    ensures AllIntact(cfg, s')
  {
    hide CoreInv, Unpack, PageShape;
    forall r | r in s'.core.table.blocks ensures Intact(cfg, s'.core, s'.tables, s'.logical, r) {
      assert Intact(cfg, s.core, s.tables, s.logical, r);
    }
  }

  /** A page whose blocks are all on it may be written: each of them sees the write, and no copy is left
      behind. */
  lemma WriteKeepsInv(cfg: Config, s: State, r: BlockRef, page: Page, s': State)
    requires ConfigOk(cfg) && Inv(cfg, s) && Write(cfg, s, r, page, s')
    requires HasEntry(s.tables, r) ==> AllAtHome(s, EntryOf(s.tables, r))
    ensures Inv(cfg, s')
  {
    hide CoreInv, ScoredExactly, AllIntact, EventsSafe, Counted, Tracked;
    assert s'.logical.Keys == s.logical.Keys;
    ContentsOnly(cfg, s, s');
    var p := EntryOf(s.tables, r);
    FillingPage(cfg, s, r);
    forall k | k in s.core.table.blocks
      ensures if HasEntry(s.tables, k) && EntryOf(s.tables, k) == p && p != cfg.nullPage
        then k in s'.logical && s'.logical[k] == page && s.core.table.blocks[k].residency == GPU
        else k in s.logical && k in s'.logical && s'.logical[k] == s.logical[k]
    {
      TrackedIsLogical(s, k);
    }
    PageRewritten(cfg, s, p, page, s');
  }

  /** A block being filled is on its own page. */
  lemma FillingPage(cfg: Config, s: State, r: BlockRef)
    requires Filled(cfg, s) && Placed(cfg, s) && r in s.core.table.blocks && r.req in s.computed
    requires !Full(cfg, r.idx, s.computed[r.req])
    ensures s.core.table.blocks[r].residency == GPU && HasEntry(s.tables, r) && !s.core.table.blocks[r].complete
    ensures EntryOf(s.tables, r) != cfg.nullPage && EntryOf(s.tables, r) < cfg.base
    ensures s.core.table.blocks[r].gpu == Some(EntryOf(s.tables, r))
  {
  }

  lemma TrackedIsLogical(s: State, r: BlockRef)
    requires Tracked(s) && r in s.core.table.blocks
    ensures r in s.logical
  {
    assert r in s.core.table.blocks.Keys;
  }

  lemma ScribblePageKeepsInv(cfg: Config, s: State, p: nat, page: Page, s': State)
    requires ConfigOk(cfg) && Inv(cfg, s) && ScribblePage(cfg, s, p, page, s')
    ensures Inv(cfg, s')
  {
    hide CoreInv, ScoredExactly, AllIntact, EventsSafe, Counted, Tracked, Filled, Placed;
    ContentsOnly(cfg, s, s');
    forall k | k in s.core.table.blocks
      ensures k in s.logical
      ensures p != cfg.nullPage ==> !(HasEntry(s.tables, k) && EntryOf(s.tables, k) == p)
    {
      TrackedIsLogical(s, k);
      if p != cfg.nullPage { UnreferencedPage(cfg, s, p, k); }
    }
    if p != cfg.nullPage { UnreferencedPage(cfg, s, p, BlockRef("", 0)); }
    PageRewritten(cfg, s, p, page, s');
  }

  lemma ScribbleStagingKeepsInv(cfg: Config, s: State, slot: nat, page: Page, s': State)
    requires ConfigOk(cfg) && Inv(cfg, s) && ScribbleStaging(cfg, s, slot, page, s')
    ensures Inv(cfg, s')
  {
    hide CoreInv, ScoredExactly, EventsSafe, Counted, Tracked, Filled, Unpack, PageShape;
    ContentsOnly(cfg, s, s');
    forall r | r in s.core.table.blocks ensures Intact(cfg, s'.core, s'.tables, s'.logical, r) {
      assert Intact(cfg, s.core, s.tables, s.logical, r);
      StagedSlotNotFree(cfg, s, r);
    }
  }

  lemma StagedSlotNotFree(cfg: Config, s: State, r: BlockRef)
    requires CoreInv(cfg, s)
    ensures Resides(s.core.table, r, STAGING) ==>
      s.core.table.blocks[r].stagingSlot.Some? && s.core.table.blocks[r].stagingSlot.value !in s.core.pool.free
    ensures r in s.core.table.blocks && s.core.table.blocks[r].cpuSlot.Some? ==>
      s.core.table.blocks[r].cpuSlot.value !in s.core.cpuFree
  {
    if Resides(s.core.table, r, STAGING) {
      assert r in s.core.pool.slot;
    }
  }

  lemma ScribbleCpuKeepsInv(cfg: Config, s: State, slot: nat, slab: Slab, s': State)
    requires ConfigOk(cfg) && Inv(cfg, s) && ScribbleCpu(s, slot, slab, s')
    ensures Inv(cfg, s')
  {
    hide CoreInv, ScoredExactly, EventsSafe, Counted, Tracked, Filled, Unpack, PageShape, Placed;
    ContentsOnly(cfg, s, s');
    forall r | r in s.core.table.blocks ensures Intact(cfg, s'.core, s'.tables, s'.logical, r) {
      assert Intact(cfg, s.core, s.tables, s.logical, r);
      StagedSlotNotFree(cfg, s, r);
    }
  }
}
