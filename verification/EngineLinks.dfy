/** What the classes' contracts say, as steps of the engine. */
module EngineLinks {
  import opened Blocks
  import opened Layout
  import opened Scoring
  import opened Offloading
  import opened Staging
  import opened Selection
  import opened Engine
  import opened EngineSync
  import opened EngineFinish
  import opened EngineEnabled
  import opened Allocation
  import opened Orchestration

  /** In every state of a run, tables, lists and pools are what the methods ask for. */
  lemma InvIsReady(cfg: Config, s: State)
    requires ConfigOk(cfg) && Inv(cfg, s)
    ensures PagesWithin(s.core.table, cfg.numPages) && SlotsWithin(s.core.cpuFree, cfg.cpuSlots)
    ensures CopiesWithin(s.core.table, cfg.cpuSlots) && Settled(s.core.pool, s.core.table, cfg.stagingSlots)
    ensures forall r :: r in s.core.table.blocks ==> !IsWarmup(r.req)
    ensures forall q :: q in s.core.reqBlocks ==> s.core.reqBlocks[q] == RefsOf(q, |s.core.reqBlocks[q]|)
    ensures forall q, i :: q in s.tables && 0 <= i < |s.tables[q]| ==> s.tables[q][i] < cfg.base
  {
    hide AllIntact, EventsSafe, Counted, Filled, ScoredExactly, IsWarmup;
    forall q, i | q in s.tables && 0 <= i < |s.tables[q]| ensures s.tables[q][i] < cfg.base {
      assert HasEntry(s.tables, BlockRef(q, i)) && EntryOf(s.tables, BlockRef(q, i)) == s.tables[q][i];
    }
  }

  // ------------------------------------------------------------------ sync

  ghost function SyncedState(s: State, q: string, tokens: nat, c': Core): (s': State)
    requires q in s.tables
  {
    s.(core := c', logical := BoundLogical(s.logical, s.core.gpu, q, s.tables[q]),
       mirror := s.mirror[q := s.tables[q]], computed := s.computed[q := tokens])
  }

  /** Syncing the block table itself is a sync of the engine. */
  lemma SyncedIsSync(cfg: Config, s: State, q: string, tokens: nat, c': Core)
    requires ConfigOk(cfg) && Inv(cfg, s) && q in s.tables && !IsWarmup(q)
    requires (q in s.computed ==> s.computed[q] <= tokens)
    requires SyncedCore(cfg, s.core, q, s.tables[q], tokens, c')
    ensures Sync(cfg, s, q, tokens, SyncedState(s, q, tokens, c'))
  {
    hide SyncedTable, NewlyScored, NewPages, Full, BoundLogical, CoreInv, Filled, ScoredExactly, AllIntact, EventsSafe,
         Counted, IsWarmup, Placed, Tracked;
    SyncSeesTheTable(s, q);
    EntriesAreGpuPages(cfg, s, q);
    BoundLogicalFacts(s.logical, s.core.gpu, q, s.tables[q]);
  }

  // ------------------------------------------------------------------ staging

  /** A fetch that leaves well-shaped pages is a staging step. */
  lemma FetchedIsStage(cfg: Config, s: State, refs: seq<BlockRef>, copied: bool,
                       out: Result<(map<BlockRef, nat>, seq<BlockRef>)>, c': Core)
    requires FetchEffect(cfg.d, cfg.base, refs, copied, out, s.core, c')
    requires forall p :: 0 <= p < |c'.gpu| ==> PageShape(cfg.d, c'.gpu[p])
    ensures Stage(cfg, s, refs, copied, s.(core := c'))
  {
    hide EnsurePost, PageShape;
  }

  /** A promotion is nothing at all or a staging step. */
  lemma PromotedIsStage(cfg: Config, s: State, q: string, limit: int, copied: bool, picked: seq<BlockRef>,
                        out: Result<(map<BlockRef, nat>, seq<BlockRef>)>, res: Result<map<BlockRef, nat>>, c': Core)
    requires PromoteEffect(cfg.d, cfg.base, q, limit, copied, picked, out, s.core, res, c')
    requires forall p :: 0 <= p < |c'.gpu| ==> PageShape(cfg.d, c'.gpu[p])
    ensures c' == s.core || Stage(cfg, s, picked, copied, s.(core := c'))
  {
    hide PageShape, FetchEffect, GoLast, IsColdListing;
    if c' != s.core {
      FetchedIsStage(cfg, s, picked, copied, out, c');
    }
  }

  /** So is a lag prefetch. */
  lemma PrefetchedIsStage(cfg: Config, s: State, seen: nat, reqs: seq<string>, idx: Tensor<int>, len: Tensor<int>,
                          copied: bool, needed: seq<Touch>, out: Result<(map<BlockRef, nat>, seq<BlockRef>)>,
                          res: Result<map<BlockRef, nat>>, c': Core)
    requires Shaped(idx) && Shaped(len) && 0 < cfg.pageSize
    requires PrefetchEffect(cfg.d, cfg.base, cfg.pageSize, seen, reqs, idx, len, copied, needed, out, s.core, res, c')
    requires forall p :: 0 <= p < |c'.gpu| ==> PageShape(cfg.d, c'.gpu[p])
    ensures c' == s.core ||
      Stage(cfg, s, Filter(OnCpuOnly(s.core.table.blocks), RefsIn(needed)), copied, s.(core := c'))
  {
    hide PageShape, FetchEffect, NeededUpTo, Filter;
    if c' != s.core {
      FetchedIsStage(cfg, s, Filter(OnCpuOnly(s.core.table.blocks), RefsIn(needed)), copied, out, c');
    }
  }

  lemma SizedCounts(cfg: Config, s: State)
    requires ConfigOk(cfg) && Inv(cfg, s)
    ensures |s.refCnt| == cfg.numPages >= cfg.base
  {
  }

  // ------------------------------------------------------------------ finish

  /** The first n entries of a row that point at a page. */
  ghost function RowEntries(q: string, row: seq<nat>, p: nat, n: nat): (s: set<BlockRef>)
    requires n <= |row|
  {
    set i | 0 <= i < n && row[i] == p :: BlockRef(q, i)
  }

  lemma {:induction false} RowEntriesCount(q: string, row: seq<nat>, p: nat, n: nat)
    requires n <= |row|
    ensures |RowEntries(q, row, p, n)| == multiset(row[..n])[p]
  {
    if n > 0 {
      RowEntriesCount(q, row, p, n - 1);
      assert row[..n] == row[..n - 1] + [row[n - 1]];
      var before := RowEntries(q, row, p, n - 1);
      if row[n - 1] == p {
        assert BlockRef(q, n - 1) !in before;
        assert RowEntries(q, row, p, n) == before + {BlockRef(q, n - 1)};
      } else {
        assert RowEntries(q, row, p, n) == before;
      }
    }
  }

  /** A request holds a page as often as its row names it. */
  lemma RequestHolds(tables: map<string, seq<nat>>, q: string, p: nat)
    requires q in tables
    ensures |set r | r in Holders(tables, p) && r.req == q| == multiset(tables[q])[p]
  {
    var row := tables[q];
    RowEntriesCount(q, row, p, |row|);
    assert row[..|row|] == row;
    var mine := set r | r in Holders(tables, p) && r.req == q;
    forall r ensures r in mine <==> r in RowEntries(q, row, p, |row|) {
      if r in mine {
        assert r == BlockRef(q, r.idx) && row[r.idx] == p;
      }
    }
    assert mine == RowEntries(q, row, p, |row|);
  }

  lemma {:induction false} DroppedAt(refCnt: seq<nat>, pages: seq<nat>, p: nat)
    requires p < |refCnt| && multiset(pages)[p] <= refCnt[p]
    ensures Dropped(refCnt, pages)[p] == refCnt[p] - multiset(pages)[p]
  {
    if pages != [] {
      var rest := pages[..|pages| - 1];
      assert pages == rest + [pages[|pages| - 1]];
      DroppedAt(refCnt, rest, p);
    }
  }

  ghost function FinishedState(s: State, q: string, counts: seq<nat>): (s': State) {
    s.(core := CleanedCore(s.core, q), tables := s.tables - {q}, mirror := s.mirror - {q}, computed := s.computed - {q},
       refCnt := counts, logical := s.logical - (set r | r in s.logical && r.req == q))
  }

  /** Cleaning up and giving back the row's pages, in any order, is the end of a request. */
  lemma FreedIsFinish(cfg: Config, s: State, q: string, pages: seq<nat>)
    requires Inv(cfg, s) && q in s.tables && multiset(pages) == multiset(s.tables[q])
    ensures Finish(cfg, s, q, FinishedState(s, q, Dropped(s.refCnt, pages)))
  {
    hide CleanedCore, Holders, CoreInv, Filled, ScoredExactly, AllIntact, EventsSafe, Placed, Tracked;
    forall p | 0 <= p < |s.refCnt| && p != cfg.nullPage
      ensures Dropped(s.refCnt, pages)[p] == s.refCnt[p] - |set r | r in Holders(s.tables, p) && r.req == q|
    {
      HoldersWithout(s.tables, q, p);
      RequestHolds(s.tables, q, p);
      DroppedAt(s.refCnt, pages, p);
    }
  }
}
