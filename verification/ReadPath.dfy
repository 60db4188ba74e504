/** From a selection to what attention reads: the lag prefetch and the index rewrite put together. */
module ReadPath {
  import opened Blocks
  import opened Ranking
  import opened Residencies
  import opened Layout
  import opened Scoring
  import opened Staging
  import opened StagingTheory
  import opened Selection
  import opened Patching
  import opened PatchedView
  import opened PatchLoop
  import opened Engine
  import opened EngineLinks
  import opened Orchestration
  import opened Scheduling

  // ------------------------------------------------------------------ the prefetch

  /** The blocks a selection asks for. */
  ghost predicate Selected(reqs: seq<string>, idx: Tensor<int>, len: Tensor<int>, page: nat, r: BlockRef)
    requires Shaped(idx) && Shaped(len) && |reqs| == idx.d0 && page > 0
  {
    Touch(r.req, r.idx) in NeededUpTo(reqs, idx, page, FirstHeadEnd(len, idx.d2))
  }

  function TrackedIn(blocks: map<BlockRef, Location>): (keep: BlockRef -> bool) {
    r => r in blocks
  }

  lemma {:induction false} FilterTwice(blocks: map<BlockRef, Location>, refs: seq<BlockRef>)
    ensures Filter(OnCpuOnly(blocks), Filter(TrackedIn(blocks), refs)) == Filter(OnCpuOnly(blocks), refs)
  {
    if refs != [] {
      var rest, r := refs[..|refs| - 1], refs[|refs| - 1];
      FilterTwice(blocks, rest);
      var kept := Filter(TrackedIn(blocks), rest);
      if r in blocks {
        assert (kept + [r])[..|kept|] == kept;
      }
    }
  }

  lemma TrackedSelection(blocks: map<BlockRef, Location>, needed: seq<Touch>)
    requires Distinct(needed)
    ensures var tracked := Filter(TrackedIn(blocks), RefsIn(needed));
      && Distinct(tracked) && (forall r :: r in tracked <==> r in blocks && Touch(r.req, r.idx) in needed)
      && Filter(OnCpuOnly(blocks), tracked) == Filter(OnCpuOnly(blocks), RefsIn(needed))
  {
    RefsInElements(needed);
    FilterElements(TrackedIn(blocks), RefsIn(needed));
    FilterTwice(blocks, RefsIn(needed));
  }

  /** Every selected block that is tracked is readable on the GPU. */
  ghost predicate SelectionReadable(reqs: seq<string>, idx: Tensor<int>, len: Tensor<int>, page: nat, t: Table,
                                    t': Table)
    requires Shaped(idx) && Shaped(len) && |reqs| == idx.d0 && page > 0
  {
    forall r :: Selected(reqs, idx, len, page, r) && r in t.blocks ==>
      r in t'.blocks && t'.blocks[r].residency != CPU
  }

  /** The selection's n CPU-resident blocks fit into staging, and no selected block that is staged already is
      among the coldest occupants they evict. */
  ghost predicate SelectionFits(cfg: Config, c: Core, reqs: seq<string>, idx: Tensor<int>, len: Tensor<int>, n: nat)
    requires Shaped(idx) && Shaped(len) && |reqs| == idx.d0 && cfg.pageSize > 0
  {
    var k, ranked := Evictions(n, |c.pool.free|, cfg.stagingSlots), Ranked(KeyOf(c.scores), c.pool.order);
    && n <= cfg.stagingSlots && k <= |ranked|
    && (forall r :: Selected(reqs, idx, len, cfg.pageSize, r) && Resides(c.table, r, STAGING) ==> r !in ranked[..k])
  }

  /** A prefetch that is not skipped, on a well-formed selection, whose copies land: afterwards every selected
      block the engine tracks is readable on the GPU, if and only if the selection's CPU-resident blocks fit
      into staging and no selected block staged before is among the coldest occupants they evict. */
  lemma PrefetchReadableIff(
      cfg: Config, s: State, seen: nat, reqs: seq<string>, idx: Tensor<int>, len: Tensor<int>, needed: seq<Touch>,
      out: Result<(map<BlockRef, nat>, seq<BlockRef>)>, res: Result<map<BlockRef, nat>>, s': State)
    requires ConfigOk(cfg) && Inv(cfg, s) && Shaped(idx) && Shaped(len) && 0 < cfg.pageSize
    requires s.core.table.version != seen && len.d0 == idx.d0 == |reqs| && len.d1 == idx.d1 && len.d2 == 1
    requires PrefetchEffect(cfg.d, cfg.base, cfg.pageSize, seen, reqs, idx, len, true, needed, out, s.core, res,
                            s'.core)
    requires forall p :: 0 <= p < |s'.core.gpu| ==> PageShape(cfg.d, s'.core.gpu[p])
    requires s' == s.(core := s'.core)
    ensures SelectionReadable(reqs, idx, len, cfg.pageSize, s.core.table, s'.core.table) <==>
      SelectionFits(cfg, s.core, reqs, idx, len, |Filter(OnCpuOnly(s.core.table.blocks), RefsIn(needed))|)
  {
    hide Inv, Stage, Filter, Ranked, RefsIn, NeededUpTo, Shaped, FetchEffect, PageShape, Distinct;
    var tracked := Filter(TrackedIn(s.core.table.blocks), RefsIn(needed));
    TrackedSelection(s.core.table.blocks, needed);
    FetchedIsStage(cfg, s, Filter(OnCpuOnly(s.core.table.blocks), RefsIn(needed)), true, out, s'.core);
    SelectionReadableIff(cfg, s, tracked, s');
    forall r ensures r in tracked <==> Selected(reqs, idx, len, cfg.pageSize, r) && r in s.core.table.blocks {
    }
  }

  // ------------------------------------------------------------------ the rewrite

  /** Position i of row b, through the rewritten array: the block's contents if it is on the GPU or staged, and
      the null page if it is on the CPU only. */
  ghost predicate ReadsBlock(cfg: Config, s: State, reqs: seq<string>, indptr: seq<nat>, out: seq<nat>, b: nat, i: nat)
    requires |reqs| < |indptr| && InRow(indptr, |reqs|, b, i)
  {
    var r := BlockRef(reqs[b], i);
    && r in s.core.table.blocks && r in s.logical && indptr[b] + i < |out|
    && (s.core.table.blocks[r].residency == CPU ==> out[indptr[b] + i] == cfg.nullPage)
    && (s.core.table.blocks[r].residency != CPU ==>
          out[indptr[b] + i] < |s.core.gpu| && s.core.gpu[out[indptr[b] + i]] == s.logical[r])
  }

  ghost predicate ReadsBlocks(cfg: Config, s: State, reqs: seq<string>, indptr: seq<nat>, out: seq<nat>)
    requires |reqs| < |indptr|
  {
    forall b: nat, i: nat :: InRow(indptr, |reqs|, b, i) && RowMatches(s.core.table.blocks, reqs, indptr, b) ==>
      ReadsBlock(cfg, s, reqs, indptr, out, b, i)
  }

  /** A call of the rewrite in a state of the engine succeeds, and every position of every row that matches the
      tracked blocks then reads its block. */
  lemma PatchCallReads(
      cfg: Config, s: State, orig: seq<nat>, indptr: seq<nat>, reqs: seq<string>, page: nat, sparse: Option<Sparse>,
      staged: map<BlockRef, nat>, needed: seq<Touch>, done: nat, ws: seq<Write>, ok: bool, out: seq<nat>)
    requires Inv(cfg, s) && RowsOk(indptr, |reqs|, |orig|) && Distinct(reqs) && RunnerIndices(s, reqs, indptr, orig)
    requires SparseOk(sparse) && page > 0 && (staged == map[] || !SparseMisfit(sparse, |reqs|))
    requires Discovered(sparse, reqs, page, staged, needed)
    requires PatchOutcome(orig, indptr, reqs, s.core.table.blocks, cfg.base, Some(cfg.nullPage), staged, needed, done,
                          ws, ok, out)
    requires forall r :: r in staged && r in s.core.table.blocks ==> s.core.table.blocks[r].residency != GPU
    ensures ok && ReadsBlocks(cfg, s, reqs, indptr, out)
  {
    assert |reqs| < |indptr|;
    hide Inv, RowsOk, PatchOutcome, Discovered, Rewritten, NoGaps, RunnerIndices, RowMatches, SparseOk, Fetched,
         SparseMisfit, ReadsBlock;
    var blocks := s.core.table.blocks;
    EngineHasNoGaps(cfg, s, reqs);
    PatchRewrites(orig, indptr, reqs, blocks, page, cfg.base, Some(cfg.nullPage), sparse, staged, needed, done, ws, ok,
                  out);
    var used := if staged == map[] then None else sparse;
    var fetched := FetchedSet(used, reqs, page, staged);
    forall b: nat, i: nat | InRow(indptr, |reqs|, b, i) && RowMatches(blocks, reqs, indptr, b)
      ensures ReadsBlock(cfg, s, reqs, indptr, out, b, i)
    {
      PositionReads(cfg, s, orig, indptr, reqs, fetched, staged, out, b, i);
    }
  }

  lemma FetchedSet(sparse: Option<Sparse>, reqs: seq<string>, page: nat, staged: map<BlockRef, nat>)
    returns (s: set<BlockRef>)
    requires SparseOk(sparse) && page > 0 && !SparseMisfit(sparse, |reqs|)
    ensures s == Fetched(sparse, reqs, page, staged) && forall r :: r in s ==> r in staged
  {
    s := Fetched(sparse, reqs, page, staged);
  }

  lemma PositionReads(cfg: Config, s: State, orig: seq<nat>, indptr: seq<nat>, reqs: seq<string>,
                      fetched: set<BlockRef>, staged: map<BlockRef, nat>, out: seq<nat>, b: nat, i: nat)
    requires Inv(cfg, s) && RowsOk(indptr, |reqs|, |orig|) && (forall r :: r in fetched ==> r in staged)
    requires Rewritten(orig, indptr, reqs, s.core.table.blocks, cfg.base, Some(cfg.nullPage), fetched, staged, out)
    requires RunnerIndices(s, reqs, indptr, orig)
    requires forall r :: r in staged && r in s.core.table.blocks ==> s.core.table.blocks[r].residency != GPU
    requires InRow(indptr, |reqs|, b, i) && RowMatches(s.core.table.blocks, reqs, indptr, b)
    ensures ReadsBlock(cfg, s, reqs, indptr, out, b, i)
  {
    hide Inv, Rewritten, RunnerIndices, RowMatches, RowsOk;
    assert NamesNoGpuBlock(s.core.table.blocks, fetched);
    PatchedReadsLogical(cfg, s, orig, indptr, reqs, fetched, staged, out, b, i);
  }

  // ------------------------------------------------------------------ both

  /** A fetch reports slots only for blocks it was asked for. */
  lemma MapNamesRefs(key: BlockRef -> Score, d: Dims, base: nat, p: Pool, t: Table, gpu: seq<Page>, cpu: seq<Slab>,
                     refs: seq<BlockRef>, copied: bool, res: Result<(map<BlockRef, nat>,
                                                                     seq<BlockRef>)>, p': Pool, t': Table,
                     gpu': seq<Page>)
    requires EnsurePost(key, d, base, p, t, gpu, cpu, refs, copied, res, p', t', gpu') && res.Ok?
    ensures forall r :: r in res.value.0 ==> r in refs
  {
    hide Ranked, CanFetch, FetchedPages, FetchedPool, FetchedTable, PlannedSlots, OccupiedBy, Dedup, Filter, Touched;
    DedupElements(refs);
    FilterElements(OnCpuOnly(t.blocks), Dedup(refs));
    if (forall r :: r in refs ==> r in t.blocks) && ToFetch(t.blocks, refs) != [] {
      var plan := PlanFor(key, t.blocks, p, refs);
      assert forall r :: r in plan.taken ==> r in ToFetch(t.blocks, refs);
      WithSlotsKeys(Hits(t.blocks, refs), plan.taken, PlannedSlots(p, t, plan), |plan.taken|);
      assert plan.taken[..|plan.taken|] == plan.taken;
    }
  }

  lemma {:induction false} WithSlotsKeys(slot: map<BlockRef, nat>, refs: seq<BlockRef>, slots: seq<nat>, n: nat)
    requires n <= |refs| == |slots|
    ensures forall r :: r in OccupiedBy(slot, refs, slots, n) ==> r in slot || r in refs[..n]
  {
    if n > 0 {
      WithSlotsKeys(slot, refs, slots, n - 1);
      assert refs[..n] == refs[..n - 1] + [refs[n - 1]];
    }
  }

  /** After a prefetch, the staging map it returns names no block on the GPU, the blocks on the GPU are the ones
      that were, and the map is empty unless the selection fits the batch. */
  lemma PrefetchFacts(
      d: Dims, base: nat, page: nat, seen: nat, reqs: seq<string>, idx: Tensor<int>, len: Tensor<int>, copied: bool,
      needed: seq<Touch>, out: Result<(map<BlockRef, nat>,
                                       seq<BlockRef>)>, c: Core, res: Result<map<BlockRef, nat>>, c': Core)
    requires Shaped(idx) && Shaped(len) && 0 < page
    requires PrefetchEffect(d, base, page, seen, reqs, idx, len, copied, needed, out, c, res, c')
    ensures forall r :: Resides(c'.table, r, GPU) <==> Resides(c.table, r, GPU)
    ensures res.Ok? ==> forall r :: r in res.value ==> !Resides(c'.table, r, GPU)
    ensures res.Ok? && res.value != map[] ==> !SparseMisfit(Some(Sparse(idx, len)), |reqs|)
  {
    hide EnsurePost, NeededUpTo, Filter, RefsIn, Shaped, Distinct;
    if c.table.version != seen && len.d0 == idx.d0 && len.d1 == idx.d1 && len.d2 == 1 && |reqs| == idx.d0 {
      var cold := Filter(OnCpuOnly(c.table.blocks), RefsIn(needed));
      FilterElements(OnCpuOnly(c.table.blocks), RefsIn(needed));
      EnsureSameCopies(KeyOf(c.scores), d, base, c.pool, c.table, c.gpu, c.cpu, cold, copied, out, c'.pool, c'.table,
                       c'.gpu);
      SameGpuBlocks(c.table, c'.table);
      if out.Ok? {
        MapNamesRefs(KeyOf(c.scores), d, base, c.pool, c.table, c.gpu, c.cpu, cold, copied, out, c'.pool, c'.table,
                     c'.gpu);
      }
    }
  }

  lemma SameGpuBlocks(t: Table, t': Table)
    requires SameCopies(t, t')
    ensures forall r :: Resides(t', r, GPU) <==> Resides(t, r, GPU)
  {
    forall r ensures r in t'.blocks <==> r in t.blocks {
      assert r in t'.blocks.Keys <==> r in t.blocks.Keys;
    }
  }

  lemma RunnerStays(s: State, s': State, reqs: seq<string>, indptr: seq<nat>, orig: seq<nat>)
    requires RowsOk(indptr, |reqs|, |orig|) && RunnerIndices(s, reqs, indptr, orig) && s'.tables == s.tables
    requires forall r :: Resides(s'.core.table, r, GPU) <==> Resides(s.core.table, r, GPU)
    ensures RunnerIndices(s', reqs, indptr, orig)
  {
  }

  /** What a build with true freeing does with a selection: prefetch it, then rewrite the index array in place.
      Unless the prefetch raises, every position of every matching row then reads its block. */
  method PrefetchAndPatch(x: OffloadScheduler, indices: array<nat>, indptr: seq<nat>, reqs: seq<string>, sparse: Sparse,
                          reach: nat, ghost computed: map<string, nat>, ghost logical: map<BlockRef, Page>)
    returns (res: Result<()>)
    requires x.Running(computed, logical) && SparseOk(Some(sparse)) && 0 < x.cfg.pageSize
    requires Distinct(reqs) && RowsOk(indptr, |reqs|, indices.Length)
    requires RunnerIndices(x.View(computed, logical), reqs, indptr, indices[..])
    modifies x.orchestrator`lagSeenCpuVersion, x.orchestrator.staging, x.orchestrator.residency,
             x.orchestrator.manager.memory`gpu, indices
    ensures x.Running(computed, logical)
    ensures res.Ok? ==> ReadsBlocks(x.cfg, x.View(computed, logical), reqs, indptr, indices[..])
    ensures res.Err? ==> indices[..] == old(indices[..])
  {
    hide Inv, Agree, RowsOk, RunnerIndices, ReadsBlocks, PrefetchEffect, Stage, PatchOutcome, Discovered, Distinct,
         SparseMisfit, NeededUpTo;
    ghost var s, orig, seen := x.View(computed, logical), indices[..], x.orchestrator.lagSeenCpuVersion;
    var staged, touched, out := x.PrefetchStep(reqs, sparse.idx, sparse.len, reach, computed, logical);
    ghost var s' := x.View(computed, logical);
    PrefetchFacts(x.cfg.d, x.cfg.base, x.cfg.pageSize, seen, reqs, sparse.idx, sparse.len, x.cfg.d.layers <= reach,
                  touched, out, s.core, staged, s'.core);
    assert indices[..] == orig;
    if staged.Err? { return Err(staged.error); }
    RunnerStays(s, s', reqs, indptr, orig);
    RowsCovered(indptr, |reqs|, indices.Length);
    var patched, needed, done, ws, work := PatchPagedKvIndices(
      indices, indptr, reqs, Some(sparse), x.cfg.pageSize, x.cfg.base, x.orchestrator.residency, staged.value,
      Some(x.cfg.nullPage), true);
    assert x.View(computed, logical) == s';
    PatchCallReads(x.cfg, s', orig, indptr, reqs, x.cfg.pageSize, Some(sparse), staged.value, needed, done, ws,
                   patched.Ok?, indices[..]);
    res := Ok(());
  }

  lemma RowsCovered(indptr: seq<nat>, rows: nat, size: nat)
    requires RowsOk(indptr, rows, size)
    ensures rows < |indptr|
  {
  }
}
