/** What keeps pages and block tables in order, on its own: a smaller invariant that every later step
    keeps, even after steps that break the engine's full one. */
module EnginePages {
  import opened Blocks
  import opened Residencies
  import opened Layout
  import opened Scoring
  import opened Offloading
  import opened Staging
  import opened StagingTheory
  import opened Engine
  import opened EngineTables
  import opened EngineSync
  import opened EngineOffload
  import opened EngineStage
  import opened EngineFinish
  import opened EngineRuns

  /** The block-table entry of every block on the GPU is the block's own page. */
  ghost predicate Owned(cfg: Config, s: State) {
    forall r :: Resides(s.core.table, r, GPU) ==>
      && s.core.table.blocks[r].gpu.Some?
      && s.core.table.blocks[r].gpu.value != cfg.nullPage && s.core.table.blocks[r].gpu.value < cfg.base
      && HasEntry(s.tables, r) && EntryOf(s.tables, r) == s.core.table.blocks[r].gpu.value
  }

  ghost predicate EntriesBelow(cfg: Config, tables: map<string, seq<nat>>) {
    forall r :: HasEntry(tables, r) ==> EntryOf(tables, r) < cfg.base
  }

  /** Requests list their own blocks, and every block on the GPU is on its request's list. */
  ghost predicate GpuListed(c: Core) {
    && (forall q :: q in c.reqBlocks ==> c.reqBlocks[q] == RefsOf(q, |c.reqBlocks[q]|))
    && (forall r :: Resides(c.table, r, GPU) ==> r.req in c.reqBlocks && r.idx < |c.reqBlocks[r.req]|)
    && (forall r :: r in c.table.blocks ==> !IsWarmup(r.req))
  }

  predicate HasCopy(mirror: map<string, seq<nat>>, r: BlockRef) {
    r.req in mirror && r.idx < |mirror[r.req]|
  }

  /** The connector's copy covers tracked blocks only, and is right about those on the GPU. */
  ghost predicate GpuMirrored(s: State) {
    forall r :: HasCopy(s.mirror, r) ==>
      && r in s.core.table.blocks
      && (Resides(s.core.table, r, GPU) ==> HasEntry(s.tables, r) && s.mirror[r.req][r.idx] == EntryOf(s.tables, r))
  }

  /** A sync may bind blocks that are not tracked yet or are on the GPU. */
  ghost predicate MayBind(s: State, r: BlockRef) {
    r !in s.core.table.blocks || Resides(s.core.table, r, GPU)
  }

  /** A null entry belongs to a tracked block that has left the GPU. */
  ghost predicate NullsAreOffloaded(cfg: Config, s: State) {
    forall r :: HasEntry(s.tables, r) && EntryOf(s.tables, r) == cfg.nullPage ==> !MayBind(s, r)
  }

  ghost predicate PageInv(cfg: Config, s: State) {
    && |s.refCnt| == cfg.numPages
    && Owned(cfg, s) && EntriesBelow(cfg, s.tables) && NullsAreOffloaded(cfg, s) && Counted(cfg, s)
    && GpuListed(s.core) && GpuMirrored(s) && EventsSafe(cfg, s)
  }

  lemma InvIsPageInv(cfg: Config, s: State)
    requires Inv(cfg, s)
    ensures PageInv(cfg, s)
  {
    hide CoreInv, Filled, ScoredExactly, AllIntact, EventsSafe, Counted, GpuMirrored, Mirrored, Members, Listed;
    TrackedIsMirrored(s);
    TrackedIsListed(s);
  }

  lemma TrackedIsMirrored(s: State)
    requires Tracked(s)
    ensures GpuMirrored(s)
  {
    hide Listed;
    forall r | HasCopy(s.mirror, r)
      ensures r in s.core.table.blocks && HasEntry(s.tables, r) && s.mirror[r.req][r.idx] == EntryOf(s.tables, r)
    {
      assert r.req in s.core.reqBlocks;
    }
  }

  lemma TrackedIsListed(s: State)
    requires Tracked(s)
    ensures GpuListed(s.core)
  {
    hide Mirrored;
  }

  lemma PageInvHeld(cfg: Config, s: State)
    requires ConfigOk(cfg) && PageInv(cfg, s)
    ensures PagesHeld(cfg, s)
  {
    hide EventsSafe, GpuListed, GpuMirrored;
    forall r | Resides(s.core.table, r, GPU)
      ensures s.core.table.blocks[r].gpu.Some? && s.core.table.blocks[r].gpu.value < |s.refCnt|
      ensures s.core.table.blocks[r].gpu.value < cfg.base && s.refCnt[s.core.table.blocks[r].gpu.value] > 0
    {
      assert r in Holders(s.tables, EntryOf(s.tables, r));
    }
  }

  // ------------------------------------------------------------------ binding

  lemma BindKeeps(cfg: Config, s: State, q: string, p: nat, s': State)
    requires PageInv(cfg, s) && p < cfg.base && p < |s.refCnt| && p != cfg.nullPage
    requires (cfg.trueFree ==> NoStaleHit(s, q, p))
    requires s' == s.(tables := Extended(s.tables, q, p), refCnt := s.refCnt[p := s.refCnt[p] + 1])
    ensures PageInv(cfg, s')
  {
    hide EventsSafe, Counted, GpuListed, Extended, NoStaleHit;
    ExtendedEntries(s.tables, q, p);
    ExtendedKeepsEvents(cfg, s, q, p, s');
    ExtendedCounts(cfg, s, q, p, s');
  }

  // ------------------------------------------------------------------ syncing

  /** A list that names, for every block it may bind, the page in the block table. */
  ghost predicate GoodList(s: State, q: string, ids: seq<nat>) {
    && q in s.tables && |s.tables[q]| <= |ids|
    && (forall i :: (&& 0 <= i < |ids|
                     && (BlockRef(q, i) !in s.core.table.blocks || Resides(s.core.table, BlockRef(q, i), GPU))) ==>
          i < |s.tables[q]| && ids[i] == s.tables[q][i])
  }

  lemma SyncedOwned(cfg: Config, s: State, q: string, ids: seq<nat>, computed: nat, s': State, r: BlockRef)
    requires Owned(cfg, s) && EntriesBelow(cfg, s.tables) && GoodList(s, q, ids)
    requires NullsAreOffloaded(cfg, s)
    requires s'.core.table == SyncedTable(cfg, s.core.table, q, ids, computed) && s'.tables == s.tables
    requires Resides(s'.core.table, r, GPU)
    ensures s'.core.table.blocks[r].gpu.Some? && HasEntry(s.tables, r)
    ensures s'.core.table.blocks[r].gpu.value == EntryOf(s.tables, r) < cfg.base && EntryOf(s.tables, r) != cfg.nullPage
  {
    hide SyncedTable, Full;
    SyncedAt(cfg, s.core.table, q, ids, computed, r);
    if r.req == q && r.idx < |ids| {
      assert BlockRef(q, r.idx) == r;
      assert HasEntry(s.tables, r) && EntryOf(s.tables, r) == ids[r.idx];
      assert MayBind(s, r);
    }
  }

  lemma SyncedKeeps(cfg: Config, s: State, q: string, ids: seq<nat>, computed: nat, s': State)
    requires PageInv(cfg, s) && GoodList(s, q, ids) && !IsWarmup(q)
    requires SyncedCore(cfg, s.core, q, ids, computed, s'.core)
    requires s' == s.(core := s'.core, logical := s'.logical, mirror := s.mirror[q := ids], computed := s'.computed)
    ensures PageInv(cfg, s')
  {
    hide EventsSafe, Counted, SyncedTable, NewlyScored, Full;
    CountsUnchanged(cfg, s, s');
    forall r | Resides(s'.core.table, r, GPU)
      ensures s'.core.table.blocks[r].gpu.Some? && HasEntry(s.tables, r)
      ensures s'.core.table.blocks[r].gpu.value == EntryOf(s.tables, r) < cfg.base
      ensures EntryOf(s.tables, r) != cfg.nullPage
    {
      SyncedOwned(cfg, s, q, ids, computed, s', r);
    }
    SyncedKeepsTracked(cfg, s, q, ids, computed, s');
    SyncedKeepsEvents(cfg, s, s');
  }

  /** Blocks off the GPU stay where they are; the blocks of the list are tracked. */
  ghost predicate SyncTracks(s: State, q: string, n: nat, s': State) {
    && (forall r :: r in s'.core.table.blocks <==> r in s.core.table.blocks || (r.req == q && r.idx < n))
    && (forall r :: r in s'.core.table.blocks ==> (Resides(s'.core.table, r, GPU) <==> MayBind(s, r)))
  }

  lemma SyncedTracks(cfg: Config, s: State, q: string, ids: seq<nat>, computed: nat, s': State)
    requires SyncedCore(cfg, s.core, q, ids, computed, s'.core)
    ensures SyncTracks(s, q, |ids|, s')
    ensures s'.core.reqBlocks == s.core.reqBlocks[q := RefsOf(q, |ids|)]
  {
    hide SyncedTable, NewlyScored, Full, Rescored;
    forall r ensures r in s'.core.table.blocks <==> r in s.core.table.blocks || (r.req == q && r.idx < |ids|)
      ensures r in s'.core.table.blocks ==> (Resides(s'.core.table, r, GPU) <==> MayBind(s, r))
    {
      SyncedAt(cfg, s.core.table, q, ids, computed, r);
    }
  }

  lemma TracksListed(s: State, q: string, n: nat, s': State)
    requires GpuListed(s.core) && !IsWarmup(q) && SyncTracks(s, q, n, s')
    requires forall r :: Resides(s.core.table, r, GPU) && r.req == q ==> r.idx < n
    requires s'.core.reqBlocks == s.core.reqBlocks[q := RefsOf(q, n)]
    ensures GpuListed(s'.core)
  {
    hide IsWarmup;
  }

  lemma TracksMirrored(s: State, q: string, ids: seq<nat>, s': State)
    requires GpuMirrored(s) && GoodList(s, q, ids) && SyncTracks(s, q, |ids|, s')
    requires s'.tables == s.tables && s'.mirror == s.mirror[q := ids]
    ensures GpuMirrored(s')
  {
    forall r | HasCopy(s'.mirror, r)
      ensures r in s'.core.table.blocks
      ensures Resides(s'.core.table, r, GPU) ==>
        HasEntry(s.tables, r) && s'.mirror[r.req][r.idx] == EntryOf(s.tables, r)
    {
      if r.req == q { assert BlockRef(q, r.idx) == r; } else { assert HasCopy(s.mirror, r); }
    }
  }

  lemma TracksOffGpu(cfg: Config, s: State, q: string, n: nat, s': State)
    requires NullsAreOffloaded(cfg, s) && SyncTracks(s, q, n, s') && s'.tables == s.tables
    ensures NullsAreOffloaded(cfg, s')
    ensures forall r :: r in s.core.table.blocks && s.core.table.blocks[r].residency != GPU ==>
      r in s'.core.table.blocks && s'.core.table.blocks[r].residency != GPU
  {
  }

  lemma SyncedKeepsTracked(cfg: Config, s: State, q: string, ids: seq<nat>, computed: nat, s': State)
    requires Owned(cfg, s) && GpuListed(s.core) && GpuMirrored(s) && NullsAreOffloaded(cfg, s) && GoodList(s, q, ids)
    requires !IsWarmup(q)
    requires SyncedCore(cfg, s.core, q, ids, computed, s'.core) && s'.tables == s.tables
    requires s'.mirror == s.mirror[q := ids]
    ensures GpuListed(s'.core) && GpuMirrored(s') && NullsAreOffloaded(cfg, s')
    ensures forall r :: r in s.core.table.blocks && s.core.table.blocks[r].residency != GPU ==>
      r in s'.core.table.blocks && s'.core.table.blocks[r].residency != GPU
  {
    SyncedTracks(cfg, s, q, ids, computed, s');
    GpuBlocksInList(cfg, s, q, ids);
    hide SyncedCore, SyncTracks, Owned, GpuListed, GpuMirrored, NullsAreOffloaded, GoodList, IsWarmup;
    TracksListed(s, q, |ids|, s');
    TracksMirrored(s, q, ids, s');
    TracksOffGpu(cfg, s, q, |ids|, s');
  }

  lemma GpuBlocksInList(cfg: Config, s: State, q: string, ids: seq<nat>)
    requires Owned(cfg, s) && GoodList(s, q, ids)
    ensures forall r :: Resides(s.core.table, r, GPU) && r.req == q ==> r.idx < |ids|
  {
  }

  lemma SyncedKeepsEvents(cfg: Config, s: State, s': State)
    requires EventsSafe(cfg, s)
    requires s'.tables == s.tables && s'.acc == s.acc && s'.pending == s.pending && s'.nextEvent == s.nextEvent
    requires forall r :: r in s.core.table.blocks && s.core.table.blocks[r].residency != GPU ==>
      r in s'.core.table.blocks && s'.core.table.blocks[r].residency != GPU
    ensures EventsSafe(cfg, s')
  {
    forall e | EntrySafe(cfg, s, e) ensures EntrySafe(cfg, s', e) {
    }
  }

  lemma KnownListIsGood(cfg: Config, s: State, q: string)
    requires GpuMirrored(s) && q in s.tables
    ensures var known := Known(s.mirror, q);
      GoodList(s, q, known + NewPages(s.tables, q, |known|))
  {
    var known := Known(s.mirror, q);
    var ids := known + NewPages(s.tables, q, |known|);
    forall i | 0 <= i < |ids| && MayBind(s, BlockRef(q, i)) ensures i < |s.tables[q]| && ids[i] == s.tables[q][i] {
      if i < |known| { assert HasCopy(s.mirror, BlockRef(q, i)); }
    }
  }

  // ------------------------------------------------------------------ moves

  /** Blocks may leave the GPU, but none comes back, appears or goes. */
  ghost predicate OnlyLeaves(t: Table, t': Table) {
    && t'.blocks.Keys == t.blocks.Keys
    && (forall r :: Resides(t', r, GPU) ==> Resides(t, r, GPU) && t'.blocks[r].gpu == t.blocks[r].gpu)
  }

  lemma MovesKeepPages(cfg: Config, s: State, s': State)
    requires PageInv(cfg, s) && OnlyLeaves(s.core.table, s'.core.table) && s'.core.reqBlocks == s.core.reqBlocks
    requires s' == s.(core := s'.core, logical := s'.logical)
    ensures PageInv(cfg, s')
  {
    hide Counted, Holders;
    CountsUnchanged(cfg, s, s');
    hide EventsSafe;
    forall r ensures r in s'.core.table.blocks <==> r in s.core.table.blocks {
      assert r in s'.core.table.blocks.Keys <==> r in s.core.table.blocks.Keys;
    }
    SyncedKeepsEvents(cfg, s, s');
  }

  lemma OffloadOnlyLeaves(d: Dims, gpu: seq<Page>, before: Store, chosen: seq<BlockRef>)
    requires CanOffload(before, gpu, chosen)
    ensures OnlyLeaves(before.table, Offloaded(d, gpu, before, chosen).table)
    ensures forall i :: 0 <= i < |chosen| ==> Resides(Offloaded(d, gpu, before, chosen).table, chosen[i], CPU)
  {
    OffloadedMoves(d, gpu, before, chosen);
    hide Offloaded;
    var t, t' := before.table, Offloaded(d, gpu, before, chosen).table;
    forall i | 0 <= i < |chosen| ensures Resides(t', chosen[i], CPU) {
      assert chosen[i] in t'.blocks.Keys;
    }
    forall r | r in chosen ensures Resides(t', r, CPU) {
    }
    forall r | Resides(t', r, GPU) ensures Resides(t, r, GPU) && t'.blocks[r].gpu == t.blocks[r].gpu {
      assert r in t'.blocks.Keys;
    }
  }

  lemma TriggerKeepsPages(cfg: Config, s: State, fraction: real, copied: bool, s': State)
    requires PageInv(cfg, s) && Trigger(cfg, s, fraction, copied, s')
    ensures PageInv(cfg, s')
  {
    hide PageInv, Candidates, FractionChoice, Offloaded, CanOffload, EntriesFor, OnlyLeaves, NothingOffloaded;
    var c, c' := s.core, s'.core;
    var choice := FractionChoice(c.table.blocks, c'.scores, Candidates(cfg, s), fraction,
                                 c.scored + ToSet(Candidates(cfg, s)));
    if choice.Ok? && 0 < |choice.value| <= |c.cpuFree| && copied {
      LeavingKeepsPages(cfg, s, choice.value, s');
    } else {
      SameTable(StoreOf(c), StoreOf(c'));
      TableStands(c.table);
      MovesKeepPages(cfg, s, s');
    }
  }

  lemma SameTable(before: Store, after: Store)
    requires NothingOffloaded(before, after)
    ensures after.table == before.table
  {
  }

  lemma LeavingKeepsPages(cfg: Config, s: State, chosen: seq<BlockRef>, s': State)
    requires PageInv(cfg, s) && CanOffload(StoreOf(s.core), s.core.gpu, chosen)
    requires StoreOf(s'.core) == Offloaded(cfg.d, s.core.gpu, StoreOf(s.core), chosen)
    requires s'.core.reqBlocks == s.core.reqBlocks && s'.logical == s.logical
    requires s' == s.(core := s'.core, acc := s.acc + EntriesFor(s.core.table, chosen))
    ensures PageInv(cfg, s')
  {
    hide PageInv, Offloaded, CanOffload, EntriesFor, OnlyLeaves;
    OffloadOnlyLeaves(cfg.d, s.core.gpu, StoreOf(s.core), chosen);
    assert s'.core.table == StoreOf(s'.core).table;
    MovesKeepPages(cfg, s, s'.(acc := s.acc));
    RecordKeepsPages(cfg, s, chosen, s');
  }

  lemma TableStands(t: Table)
    ensures OnlyLeaves(t, t)
  {
  }

  lemma RecordKeepsPages(cfg: Config, s: State, chosen: seq<BlockRef>, s': State)
    requires PageInv(cfg, s) && PageInv(cfg, s'.(acc := s.acc)) && s'.tables == s.tables
    requires CanOffload(StoreOf(s.core), s.core.gpu, chosen) && s'.acc == s.acc + EntriesFor(s.core.table, chosen)
    requires forall i :: 0 <= i < |chosen| ==> Resides(s'.core.table, chosen[i], CPU)
    ensures PageInv(cfg, s')
  {
    hide Counted, Holders, EntriesBelow, GpuMirrored, NullsAreOffloaded;
    CountsUnchanged(cfg, s'.(acc := s.acc), s');
    assert EventsSafe(cfg, s'.(acc := s.acc));
    var es := EntriesFor(s.core.table, chosen);
    AccOnlyPages(cfg, s'.(acc := s.acc), s');
    forall e | e in s'.acc ensures EntrySafe(cfg, s', e) {
      if e in s.acc {
        assert EntrySafe(cfg, s'.(acc := s.acc), e);
      } else {
        var i :| 0 <= i < |es| && es[i] == e;
        assert Resides(s.core.table, chosen[i], GPU) && Resides(s'.core.table, chosen[i], CPU);
      }
    }
    forall k, e | k in s'.pending && e in s'.pending[k] ensures EntrySafe(cfg, s', e) {
      assert EntrySafe(cfg, s'.(acc := s.acc), e);
    }
  }

  lemma AccOnlyPages(cfg: Config, s: State, s': State)
    requires GpuMirrored(s) && NullsAreOffloaded(cfg, s) && s' == s.(acc := s'.acc)
    ensures GpuMirrored(s') && NullsAreOffloaded(cfg, s')
  {
  }

  lemma StageKeepsPages(cfg: Config, s: State, refs: seq<BlockRef>, copied: bool, s': State)
    requires PageInv(cfg, s) && Stage(cfg, s, refs, copied, s')
    ensures PageInv(cfg, s')
  {
    hide PageInv, EnsurePost, PageShape, OnlyLeaves, SameCopies;
    var c, c', key := s.core, s'.core, KeyOf(s.core.scores);
    var res :| EnsurePost(key, cfg.d, cfg.base, c.pool, c.table, c.gpu, c.cpu, refs, copied, res, c'.pool, c'.table,
                          c'.gpu);
    EnsureSameCopies(key, cfg.d, cfg.base, c.pool, c.table, c.gpu, c.cpu, refs, copied, res, c'.pool, c'.table, c'.gpu);
    SameCopiesOnlyLeaves(c.table, c'.table);
    MovesKeepPages(cfg, s, s');
  }

  lemma SameCopiesOnlyLeaves(t: Table, t': Table)
    requires SameCopies(t, t')
    ensures OnlyLeaves(t, t')
  {
    forall r | r in t'.blocks ensures r in t.blocks {
      assert r in t'.blocks.Keys;
    }
  }

  lemma ReleaseKeepsPages(cfg: Config, s: State, r: BlockRef, s': State)
    requires PageInv(cfg, s) && Release(s, r, s')
    ensures PageInv(cfg, s')
  {
    hide PageInv;
    assert OnlyLeaves(s.core.table, s'.core.table) by {
      var t, t' := s.core.table, s'.core.table;
      assert t'.blocks.Keys == t.blocks.Keys;
    }
    MovesKeepPages(cfg, s, s');
  }

  // ------------------------------------------------------------------ completion

  lemma SurgeryKeepsPages(cfg: Config, s: State, e: Entry)
    requires PageInv(cfg, s) && cfg.trueFree && ConfigOk(cfg) && EntrySafe(cfg, s, e)
    ensures PageInv(cfg, Surgery(cfg, s, e))
  {
    hide EventsSafe, Counted, GpuListed, Holders;
    SurgeryCounts(cfg, s, e);
    SurgeryEvents(cfg, s, e);
    var s' := Surgery(cfg, s, e);
    if s' != s {
      ReboundEntries(s.tables, e.ref, cfg.nullPage);
      hide Counted, EventsSafe;
      forall r | HasCopy(s'.mirror, r)
        ensures HasCopy(s.mirror, r) && (r != e.ref ==> s'.mirror[r.req][r.idx] == s.mirror[r.req][r.idx])
      {
        assert r.req == e.ref.req && r.idx == e.ref.idx ==> r == e.ref;
      }
    }
  }

  lemma {:induction false} SurgeriesKeepPages(cfg: Config, s: State, es: seq<Entry>, n: nat)
    requires PageInv(cfg, s) && cfg.trueFree && ConfigOk(cfg) && n <= |es|
    requires forall e :: e in es ==> EntrySafe(cfg, s, e)
    ensures PageInv(cfg, SurgeryN(cfg, s, es, n))
    ensures forall e :: e in es ==> EntrySafe(cfg, SurgeryN(cfg, s, es, n), e)
  {
    hide PageInv, EntrySafe, Surgery;
    if n > 0 {
      SurgeriesKeepPages(cfg, s, es, n - 1);
      var s1 := SurgeryN(cfg, s, es, n - 1);
      assert es[n - 1] in es;
      SurgeryKeepsPages(cfg, s1, es[n - 1]);
      forall e | e in es ensures EntrySafe(cfg, Surgery(cfg, s1, es[n - 1]), e) {
        SurgeryEntrySafe(cfg, s1, es[n - 1], e);
      }
    }
  }

  /** Surgery only ever writes the null page, and only over an entry that an event names exactly. */
  lemma {:induction false} SurgeryNEntries(cfg: Config, s: State, es: seq<Entry>, n: nat, r: BlockRef)
    requires n <= |es|
    ensures HasEntry(SurgeryN(cfg, s, es, n).tables, r) <==> HasEntry(s.tables, r)
    ensures HasEntry(s.tables, r) && EntryOf(SurgeryN(cfg, s, es, n).tables, r) != EntryOf(s.tables, r) ==>
      EntryOf(SurgeryN(cfg, s, es, n).tables, r) == cfg.nullPage && Entry(r, EntryOf(s.tables, r)) in es
  {
    if n > 0 {
      SurgeryNEntries(cfg, s, es, n - 1, r);
      var s1 := SurgeryN(cfg, s, es, n - 1);
      if HasEntry(s1.tables, es[n - 1].ref) {
        ReboundEntries(s1.tables, es[n - 1].ref, cfg.nullPage);
      }
    }
  }

  /** Counts and entries are in order, whatever the blocks' residency. */
  ghost predicate TablesOk(cfg: Config, s: State) {
    |s.refCnt| == cfg.numPages && Counted(cfg, s) && EntriesBelow(cfg, s.tables)
  }

  lemma InvTablesOk(cfg: Config, s: State)
    requires Inv(cfg, s)
    ensures TablesOk(cfg, s)
  {
    hide CoreInv, Filled, ScoredExactly, AllIntact, EventsSafe, Counted, Tracked;
  }

  lemma HeldPageCounts(cfg: Config, s: State, r: BlockRef)
    requires ConfigOk(cfg) && TablesOk(cfg, s) && HasEntry(s.tables, r) && EntryOf(s.tables, r) != cfg.nullPage
    ensures EntryOf(s.tables, r) < |s.refCnt| && s.refCnt[EntryOf(s.tables, r)] > 0
  {
    assert r in Holders(s.tables, EntryOf(s.tables, r));
  }

  lemma {:induction false} SurgeriesKeepTables(cfg: Config, s: State, es: seq<Entry>, n: nat)
    requires ConfigOk(cfg) && TablesOk(cfg, s) && n <= |es| && forall e :: e in es ==> e.page != cfg.nullPage
    ensures TablesOk(cfg, SurgeryN(cfg, s, es, n))
  {
    hide Counted, Holders;
    if n > 0 {
      SurgeriesKeepTables(cfg, s, es, n - 1);
      var s1, e := SurgeryN(cfg, s, es, n - 1), es[n - 1];
      assert e in es;
      SurgeryCounts(cfg, s1, e);
      if HasEntry(s1.tables, e.ref) { ReboundEntries(s1.tables, e.ref, cfg.nullPage); }
    }
  }

  /** With true freeing, no entry of a completed event is left pointing at its page. */
  lemma {:induction false} SurgeryNIsThorough(cfg: Config, s: State, es: seq<Entry>, n: nat, i: nat)
    requires ConfigOk(cfg) && TablesOk(cfg, s) && i < n <= |es| && forall e :: e in es ==> e.page != cfg.nullPage
    ensures HasEntry(SurgeryN(cfg, s, es, n).tables, es[i].ref) ==>
      EntryOf(SurgeryN(cfg, s, es, n).tables, es[i].ref) != es[i].page
    decreases n
  {
    hide TablesOk;
    var s1, e := SurgeryN(cfg, s, es, n - 1), es[n - 1];
    SurgeriesKeepTables(cfg, s, es, n - 1);
    if HasEntry(s1.tables, e.ref) {
      ReboundEntries(s1.tables, e.ref, cfg.nullPage);
    }
    assert es[i] in es && e in es;
    if i < n - 1 {
      SurgeryNIsThorough(cfg, s, es, n - 1, i);
    } else if HasEntry(s1.tables, e.ref) && EntryOf(s1.tables, e.ref) == e.page {
      HeldPageCounts(cfg, s1, e.ref);
    }
  }

  lemma EventsOnlyPages(cfg: Config, s: State, s': State)
    requires PageInv(cfg, s) && s' == s.(acc := s'.acc, pending := s'.pending, nextEvent := s'.nextEvent)
    requires forall k :: k in s'.pending ==> k < s'.nextEvent
    requires forall e :: Recorded(s', e) ==> Recorded(s, e)
    ensures PageInv(cfg, s')
  {
    hide Counted, Holders, EntriesBelow;
    CountsUnchanged(cfg, s, s');
    forall e | Recorded(s', e) ensures EntrySafe(cfg, s', e) {
      assert Recorded(s, e);
      assert EntrySafe(cfg, s, e);
    }
    forall e | e in s'.acc ensures EntrySafe(cfg, s', e) {
      assert Recorded(s', e);
    }
    forall k, e | k in s'.pending && e in s'.pending[k] ensures EntrySafe(cfg, s', e) {
      assert Recorded(s', e);
    }
  }

  lemma CompleteKeepsPages(cfg: Config, s: State, k: nat, s': State)
    requires ConfigOk(cfg) && PageInv(cfg, s) && Complete(cfg, s, k, s')
    ensures PageInv(cfg, s')
  {
    var s1 := s.(pending := s.pending - {k});
    assert forall e :: e in s.pending[k] ==> EntrySafe(cfg, s1, e) by {
      forall e | e in s.pending[k] ensures EntrySafe(cfg, s1, e) {
        assert EntrySafe(cfg, s, e);
      }
    }
    assert EventsSafe(cfg, s);
    hide PageInv, EntrySafe, SurgeryN;
    EventsOnlyPages(cfg, s, s1);
    if cfg.trueFree {
      SurgeriesKeepPages(cfg, s1, s.pending[k], |s.pending[k]|);
    }
  }

  lemma FlushKeepsPages(cfg: Config, s: State, s': State)
    requires PageInv(cfg, s) && Flush(s, s')
    ensures PageInv(cfg, s')
  {
    assert EventsSafe(cfg, s);
    forall e | Recorded(s', e) ensures Recorded(s, e) {
    }
    hide PageInv, EventsSafe;
    EventsOnlyPages(cfg, s, s');
  }

  // ------------------------------------------------------------------ finishing

  /** Cleanup drops the listed blocks from the table and leaves all others alone. */
  lemma {:induction false} CleanedTable(c: Core, refs: seq<BlockRef>, n: nat)
    requires n <= |refs|
    ensures BlocksDropped(c.table, ToSet(refs[..n]), CleanedN(c, refs, n).table)
    ensures CleanedN(c, refs, n).reqBlocks == c.reqBlocks
  {
    hide BlocksDropped, FreedCore, ReleasedCore;
    if n == 0 {
      DroppedNone(c.table);
      assert ToSet(refs[..0]) == {};
    } else {
      CleanedTable(c, refs, n - 1);
      var c1, r := CleanedN(c, refs, n - 1), refs[n - 1];
      CleanedOne(c1, r);
      DroppedMore(c.table, ToSet(refs[..n - 1]), c1.table, r, FreedCore(ReleasedCore(c1, r), r).table);
      assert refs[..n] == refs[..n - 1] + [r];
      assert ToSet(refs[..n]) == ToSet(refs[..n - 1]) + {r};
    }
  }

  lemma DroppedNone(t: Table)
    ensures BlocksDropped(t, {}, t)
  {
  }

  lemma CleanedOne(c: Core, r: BlockRef)
    ensures var c' := FreedCore(ReleasedCore(c, r), r);
      c'.table.blocks == c.table.blocks - {r} && c'.reqBlocks == c.reqBlocks
  {
  }

  lemma DroppedMore(t: Table, gone: set<BlockRef>, t1: Table, r: BlockRef, t2: Table)
    requires BlocksDropped(t, gone, t1) && t2.blocks == t1.blocks - {r}
    ensures BlocksDropped(t, gone + {r}, t2)
  {
  }

  /** Which blocks a finish drops: all of the request's blocks on the GPU, none of another request. */
  lemma FinishedTable(c: Core, q: string)
    requires GpuListed(c)
    ensures var c' := CleanedCore(c, q);
      && c'.reqBlocks == c.reqBlocks - {q}
      && (forall r :: r in c'.table.blocks ==> r in c.table.blocks && c'.table.blocks[r] == c.table.blocks[r])
      && (forall r :: r in c.table.blocks && r.req != q ==> r in c'.table.blocks)
      && (forall r :: Resides(c'.table, r, GPU) ==> r.req != q)
  {
    var refs := if q in c.reqBlocks then c.reqBlocks[q] else [];
    CleanedTable(c.(reqBlocks := c.reqBlocks - {q}), refs, |refs|);
    assert refs[..|refs|] == refs;
    hide CleanedN;
    var c' := CleanedCore(c, q);
    forall r | r in c'.table.blocks ensures r in c.table.blocks && c'.table.blocks[r] == c.table.blocks[r] {
    }
    forall r | r in c.table.blocks && r.req != q ensures r in c'.table.blocks {
      assert r !in ToSet(refs);
      assert r in c'.table.blocks.Keys;
    }
    forall r | Resides(c.table, r, GPU) && r.req == q ensures r in ToSet(refs) {
      assert refs[r.idx] == r;
    }
    forall r | Resides(c'.table, r, GPU) ensures r.req != q {
      assert r in c'.table.blocks.Keys;
    }
  }

  lemma FinishKeepsPages(cfg: Config, s: State, q: string, s': State)
    requires PageInv(cfg, s) && Finish(cfg, s, q, s')
    ensures PageInv(cfg, s')
  {
    hide Counted, Holders, CleanedCore, EventsSafe;
    FinishedCounts(cfg, s, q, s');
    FinishedTable(s.core, q);
    forall r | HasEntry(s'.tables, r)
      ensures HasEntry(s.tables, r) && EntryOf(s'.tables, r) == EntryOf(s.tables, r) && r.req != q
    {
    }
    FinishKeepsEvents(cfg, s, s');
  }

  lemma FinishKeepsEvents(cfg: Config, s: State, s': State)
    requires EventsSafe(cfg, s) && s'.acc == s.acc && s'.pending == s.pending && s'.nextEvent == s.nextEvent
    requires forall r :: HasEntry(s'.tables, r) ==>
      && HasEntry(s.tables, r) && EntryOf(s'.tables, r) == EntryOf(s.tables, r)
      && (r in s.core.table.blocks ==> r in s'.core.table.blocks && s'.core.table.blocks[r] == s.core.table.blocks[r])
    ensures EventsSafe(cfg, s')
  {
    forall e | EntrySafe(cfg, s, e) ensures EntrySafe(cfg, s', e) {
    }
  }

  // ------------------------------------------------------------------ continuations

  /** A preempted request is scheduled again: the connector takes its new page list for the whole table. */
  ghost predicate Resume(cfg: Config, s: State, q: string, computed: nat, s': State) {
    && q in s.tables && !IsWarmup(q)
    && SyncedCore(cfg, s.core, q, s.tables[q], computed, s'.core)
    && s' == s.(core := s'.core, logical := s'.logical, mirror := s.mirror[q := s.tables[q]],
                computed := s.computed[q := computed])
  }

  datatype Later = Does(action: Action) | Resumes(req: string, computed: nat)

  ghost predicate LaterStep(cfg: Config, s: State, l: Later, s': State) {
    match l
    case Does(a) => Step(cfg, s, a, s')
    case Resumes(q, computed) => Resume(cfg, s, q, computed, s')
  }

  /** Any way of going on from s. */
  ghost predicate From(cfg: Config, s: State, states: seq<State>, ls: seq<Later>) {
    && |states| == |ls| + 1 && states[0] == s
    && (forall i :: 0 <= i < |ls| ==> LaterStep(cfg, states[i], ls[i], states[i + 1]))
  }

  /** However the engine goes on, no block on the GPU ever sits on a page that could be handed out. */
  ghost predicate AlwaysHeld(cfg: Config, s: State) {
    forall states, ls :: From(cfg, s, states, ls) ==> PagesHeld(cfg, states[|ls|])
  }

  /** However the engine goes on, the table entry of every block on the GPU is its own page. */
  ghost predicate AlwaysOwned(cfg: Config, s: State) {
    forall states, ls :: From(cfg, s, states, ls) ==> Owned(cfg, states[|ls|])
  }

  lemma LaterKeepsPages(cfg: Config, s: State, l: Later, s': State)
    requires ConfigOk(cfg) && PageInv(cfg, s) && LaterStep(cfg, s, l, s')
    ensures PageInv(cfg, s')
  {
    hide PageInv, NoStaleHit, Trigger, Stage, Release, Finish, Complete, Flush, SyncedCore, Extended, PageShape, Full;
    match l
    case Resumes(q, computed) =>
      SyncedKeeps(cfg, s, q, s.tables[q], computed, s');
    case Does(a) => ActKeepsPages(cfg, s, a, s');
  }

  lemma ActKeepsPages(cfg: Config, s: State, a: Action, s': State)
    requires ConfigOk(cfg) && PageInv(cfg, s) && Step(cfg, s, a, s')
    ensures PageInv(cfg, s')
  {
    hide PageInv, NoStaleHit, Trigger, Stage, Release, Finish, Complete, Flush, SyncedCore, Extended, PageShape, Full,
         NewPages, OnlyLeaves;
    match a
    case Allocate(q, p) =>
      FreePageIsNormal(cfg, s, p);
      BindKeeps(cfg, s, q, p, s');
    case ShareHit(q, p) => BindKeeps(cfg, s, q, p, s');
    case SyncRequest(q, computed) => SyncKeepsPages(cfg, s, q, computed, s');
    case Offload(fraction, copied) => TriggerKeepsPages(cfg, s, fraction, copied, s');
    case FlushStores => FlushKeepsPages(cfg, s, s');
    case CompleteStore(k) => CompleteKeepsPages(cfg, s, k, s');
    case StageBlocks(refs, copied) => StageKeepsPages(cfg, s, refs, copied, s');
    case ReleaseBlock(r) => ReleaseKeepsPages(cfg, s, r, s');
    case FinishRequest(q) => FinishKeepsPages(cfg, s, q, s');
    case _ =>
      TableStands(s.core.table);
      MovesKeepPages(cfg, s, s');
  }

  lemma FreePageIsNormal(cfg: Config, s: State, p: nat)
    requires PageInv(cfg, s) && p < |s.refCnt| && p != cfg.nullPage && s.refCnt[p] == 0
    ensures p < cfg.base
  {
    hide Holders, EventsSafe, GpuListed, GpuMirrored, Owned, NullsAreOffloaded;
  }

  lemma SyncKeepsPages(cfg: Config, s: State, q: string, computed: nat, s': State)
    requires PageInv(cfg, s) && Sync(cfg, s, q, computed, s')
    ensures PageInv(cfg, s')
  {
    var known := Known(s.mirror, q);
    assert GpuMirrored(s);
    hide PageInv, GpuMirrored, SyncedCore, Full, NewPages, GoodList;
    KnownListIsGood(cfg, s, q);
    SyncedKeeps(cfg, s, q, known + NewPages(s.tables, q, |known|), computed, s');
  }

  lemma {:induction false} PageInvForever(cfg: Config, s: State, states: seq<State>, ls: seq<Later>, i: nat)
    requires ConfigOk(cfg) && PageInv(cfg, s) && From(cfg, s, states, ls) && i < |states|
    ensures PageInv(cfg, states[i])
  {
    hide PageInv, LaterStep;
    if i > 0 {
      PageInvForever(cfg, s, states, ls, i - 1);
      LaterKeepsPages(cfg, states[i - 1], ls[i - 1], states[i]);
    }
  }

  /** The smaller invariant is all it takes. */
  lemma PageInvIsForever(cfg: Config, s: State)
    requires ConfigOk(cfg) && PageInv(cfg, s)
    ensures AlwaysHeld(cfg, s) && AlwaysOwned(cfg, s)
  {
    forall states, ls | From(cfg, s, states, ls) ensures PagesHeld(cfg, states[|ls|]) && Owned(cfg, states[|ls|]) {
      PageInvForever(cfg, s, states, ls, |ls|);
      PageInvHeld(cfg, states[|ls|]);
    }
  }
}
