/** Reading through the rewritten page indices is reading the logical blocks. */
module PatchedView {
  import opened Blocks
  import opened Ranking
  import opened Residencies
  import opened Layout
  import opened Scoring
  import opened Moves
  import opened Staging
  import opened StagingTheory
  import opened Engine
  import opened EngineOffload
  import opened EngineRuns
  import opened EngineTheorems
  import opened Patching

  ghost predicate AllRowsMatch(blocks: map<BlockRef, Location>, reqs: seq<string>, indptr: seq<nat>)
    requires |reqs| < |indptr|
  {
    forall b :: 0 <= b < |reqs| ==> RowMatches(blocks, reqs, indptr, b)
  }

  ghost predicate NamesNoGpuBlock(blocks: map<BlockRef, Location>, fetched: set<BlockRef>) {
    forall r :: r in fetched && r in blocks ==> blocks[r].residency != GPU
  }

  /** Where rows match the tracked blocks and a null page is given, a block off the GPU is always
      decided by its residency. */
  lemma ResidencyDecides(blocks: map<BlockRef, Location>, reqs: seq<string>, indptr: seq<nat>, b: nat, i: nat,
                         base: nat, nullId: Option<nat>)
    requires |reqs| < |indptr| && InRow(indptr, |reqs|, b, i) && RowMatches(blocks, reqs, indptr, b)
    requires nullId.Some? && forall r :: r in blocks ==> LocationOk(blocks[r])
    ensures var r := BlockRef(reqs[b], i);
      r in blocks && (Remedy(blocks, r, base, nullId).None? <==> blocks[r].residency == GPU)
  {
  }

  /** The result does not depend on the staging map, so long as the map names no GPU-resident block. */
  lemma StagingMapIsIrrelevant(
      orig: seq<nat>, indptr: seq<nat>, reqs: seq<string>, blocks: map<BlockRef, Location>, base: nat,
      nullId: Option<nat>,
      f1: set<BlockRef>, m1: map<BlockRef, nat>, out1: seq<nat>, f2: set<BlockRef>, m2: map<BlockRef, nat>,
      out2: seq<nat>)
    requires RowsOk(indptr, |reqs|, |orig|) && AllRowsMatch(blocks, reqs, indptr) && nullId.Some?
    requires (forall r :: r in f1 ==> r in m1) && (forall r :: r in f2 ==> r in m2)
    requires forall r :: r in blocks ==> LocationOk(blocks[r])
    requires NamesNoGpuBlock(blocks, f1) && NamesNoGpuBlock(blocks, f2)
    requires Rewritten(orig, indptr, reqs, blocks, base, nullId, f1, m1, out1)
    requires Rewritten(orig, indptr, reqs, blocks, base, nullId, f2, m2, out2)
    ensures out1 == out2
  {
    hide LocationOk, EntryAfter, NamesNoGpuBlock, AllRowsMatch, RowsOk;
    forall p | 0 <= p < |orig| ensures out1[p] == out2[p] {
      if !OutsideRows(indptr, |reqs|, p) {
        var b: nat, i: nat :| InRow(indptr, |reqs|, b, i) && indptr[b] + i == p;
        SameEntry(orig, indptr, reqs, blocks, base, nullId, f1, m1, f2, m2, b, i);
      }
    }
  }

  lemma SameEntry(
      orig: seq<nat>, indptr: seq<nat>, reqs: seq<string>, blocks: map<BlockRef, Location>, base: nat,
      nullId: Option<nat>, f1: set<BlockRef>, m1: map<BlockRef, nat>, f2: set<BlockRef>, m2: map<BlockRef, nat>,
      b: nat, i: nat)
    requires RowsOk(indptr, |reqs|, |orig|) && AllRowsMatch(blocks, reqs, indptr) && nullId.Some?
    requires (forall r :: r in f1 ==> r in m1) && (forall r :: r in f2 ==> r in m2)
    requires forall r :: r in blocks ==> LocationOk(blocks[r])
    requires NamesNoGpuBlock(blocks, f1) && NamesNoGpuBlock(blocks, f2) && InRow(indptr, |reqs|, b, i)
    ensures EntryAfter(orig, indptr, reqs, blocks, base, nullId, f1, m1, b, i)
         == EntryAfter(orig, indptr, reqs, blocks, base, nullId, f2, m2, b, i)
  {
    hide LocationOk, RowMatches, Remedy;
    ResidencyDecides(blocks, reqs, indptr, b, i, base, nullId);
  }

  // ------------------------------------------------------------------ against the engine

  /** Sync keeps every request's blocks contiguous from 0, so the rewrite's writes stay in their rows. */
  lemma BlocksAreContiguous(cfg: Config, s: State, q: string)
    requires Inv(cfg, s)
    ensures Contiguous(s.core.table.blocks, q, if q in s.core.reqBlocks then |s.core.reqBlocks[q]| else 0)
  {
    hide CoreInv, Filled, ScoredExactly, AllIntact, EventsSafe, Counted, Placed, Listed, Mirrored;
  }

  /** The index array the runner hands over: GPU-resident blocks at their own pages. */
  ghost predicate RunnerIndices(s: State, reqs: seq<string>, indptr: seq<nat>, orig: seq<nat>)
    requires RowsOk(indptr, |reqs|, |orig|)
  {
    forall b: nat, i: nat ::
      (&& InRow(indptr, |reqs|, b, i) && indptr[b] + i < |orig|
       && HasEntry(s.tables, BlockRef(reqs[b], i)) && Resides(s.core.table, BlockRef(reqs[b], i), GPU)) ==>
        orig[indptr[b] + i] == EntryOf(s.tables, BlockRef(reqs[b], i))
  }

  /** The patched view refines the logical view: position i of a matching row reads block i's contents
      if the block is on the GPU or staged, and the null page if it is on the CPU only. */
  lemma PatchedReadsLogical(
      cfg: Config, s: State, orig: seq<nat>, indptr: seq<nat>, reqs: seq<string>,
      fetched: set<BlockRef>, staged: map<BlockRef, nat>, out: seq<nat>, b: nat, i: nat)
    requires Inv(cfg, s) && RowsOk(indptr, |reqs|, |orig|) && (forall r :: r in fetched ==> r in staged)
    requires Rewritten(orig, indptr, reqs, s.core.table.blocks, cfg.base, Some(cfg.nullPage), fetched, staged, out)
    requires RunnerIndices(s, reqs, indptr, orig) && NamesNoGpuBlock(s.core.table.blocks, fetched)
    requires InRow(indptr, |reqs|, b, i) && RowMatches(s.core.table.blocks, reqs, indptr, b)
    ensures var r := BlockRef(reqs[b], i);
      && r in s.core.table.blocks && r in s.logical && indptr[b] + i < |out|
      && (s.core.table.blocks[r].residency == CPU ==> out[indptr[b] + i] == cfg.nullPage)
      && (s.core.table.blocks[r].residency != CPU ==>
            out[indptr[b] + i] < |s.core.gpu| && s.core.gpu[out[indptr[b] + i]] == s.logical[r])
  {
    hide Inv, Rewritten, RunnerIndices, NamesNoGpuBlock, RowMatches, RowsOk, Unpack;
    var r, blocks := BlockRef(reqs[b], i), s.core.table.blocks;
    InvParts(cfg, s);
    TableLocations(s.core.table);
    EntryByResidency(orig, indptr, reqs, blocks, cfg.base, cfg.nullPage, fetched, staged, out, b, i);
    HoldsLogical(cfg, s, r);
    if blocks[r].residency == GPU {
      GpuEntryHolds(cfg, s, r);
      RunnerEntry(s, reqs, indptr, orig, b, i);
    }
  }

  lemma RunnerEntry(s: State, reqs: seq<string>, indptr: seq<nat>, orig: seq<nat>, b: nat, i: nat)
    requires RowsOk(indptr, |reqs|, |orig|) && RunnerIndices(s, reqs, indptr, orig) && InRow(indptr, |reqs|, b, i)
    requires HasEntry(s.tables, BlockRef(reqs[b], i)) && Resides(s.core.table, BlockRef(reqs[b], i), GPU)
    ensures indptr[b] + i < |orig| && orig[indptr[b] + i] == EntryOf(s.tables, BlockRef(reqs[b], i))
  {
    assert indptr[b + 1] <= |orig|;
  }

  /** What a matching row's positions hold, by residency. */
  lemma EntryByResidency(
      orig: seq<nat>, indptr: seq<nat>, reqs: seq<string>, blocks: map<BlockRef, Location>, base: nat, nullPage: nat,
      fetched: set<BlockRef>, staged: map<BlockRef, nat>, out: seq<nat>, b: nat, i: nat)
    requires RowsOk(indptr, |reqs|, |orig|) && (forall r :: r in fetched ==> r in staged)
    requires Rewritten(orig, indptr, reqs, blocks, base, Some(nullPage), fetched, staged, out)
    requires NamesNoGpuBlock(blocks, fetched) && forall r :: r in blocks ==> LocationOk(blocks[r])
    requires InRow(indptr, |reqs|, b, i) && RowMatches(blocks, reqs, indptr, b)
    ensures var r := BlockRef(reqs[b], i);
      && r in blocks && indptr[b] + i < |out| == |orig|
      && out[indptr[b] + i] == match blocks[r].residency
         case GPU => orig[indptr[b] + i]
         case CPU => nullPage
         case STAGING => if blocks[r].stagingSlot.Some? then base + blocks[r].stagingSlot.value else 0
  {
    ResidencyDecides(blocks, reqs, indptr, b, i, base, Some(nullPage));
    assert out[indptr[b] + i] == EntryAfter(orig, indptr, reqs, blocks, base, Some(nullPage), fetched, staged, b, i);
    hide Rewritten, Contiguous;
  }

  lemma GpuEntryHolds(cfg: Config, s: State, r: BlockRef)
    requires Inv(cfg, s) && Resides(s.core.table, r, GPU)
    ensures HasEntry(s.tables, r) && r in s.logical
    ensures EntryOf(s.tables, r) < |s.core.gpu| && s.core.gpu[EntryOf(s.tables, r)] == s.logical[r]
  {
    hide CoreInv, Filled, ScoredExactly, EventsSafe, Counted, Tracked, PageShape, Unpack;
    assert Intact(cfg, s.core, s.tables, s.logical, r);
  }

  /** In shadow mode no null page is given and none is needed: every position of every matching row
      reads its block's contents, wherever the block's copies are. */
  lemma ShadowPatchedReadsEverything(
      cfg: Config, states: seq<State>, acts: seq<Action>, k: nat, orig: seq<nat>, indptr: seq<nat>, reqs: seq<string>,
      out: seq<nat>, b: nat, i: nat)
    requires Run(cfg, states, acts) && k < |states| && !cfg.trueFree && RowsOk(indptr, |reqs|, |orig|)
    requires Rewritten(orig, indptr, reqs, states[k].core.table.blocks, cfg.base, None, {}, map[], out)
    requires InRow(indptr, |reqs|, b, i) && RowMatches(states[k].core.table.blocks, reqs, indptr, b)
    requires HasEntry(states[k].tables, BlockRef(reqs[b], i)) && indptr[b] + i < |orig|
      && orig[indptr[b] + i] == EntryOf(states[k].tables, BlockRef(reqs[b], i))
    ensures var s, r := states[k], BlockRef(reqs[b], i);
      && r in s.logical && indptr[b] + i < |out| && out[indptr[b] + i] < |s.core.gpu|
      && s.core.gpu[out[indptr[b] + i]] == s.logical[r]
  {
    hide Step, Init, Inv;
    var s, r := states[k], BlockRef(reqs[b], i);
    assert r in s.core.table.blocks;
    ShadowReadsOwnPages(cfg, states, acts, k, r);
    RunKeepsInv(cfg, states, acts, k);
    HoldsLogical(cfg, s, r);
    assert out[indptr[b] + i] == EntryAfter(orig, indptr, reqs, s.core.table.blocks, cfg.base, None, {}, map[], b, i);
    hide Rewritten, Contiguous, Unpack;
  }

  // ------------------------------------------------------------------ fetch, then read

  /** How many earlier occupants a fetch of n cold blocks evicts. */
  function Evictions(n: nat, free: nat, slots: nat): (k: nat) {
    var m := Min(n, slots);
    m - Min(m, free)
  }

  lemma ReadableAfterMoves(t: Table, needed: seq<BlockRef>, cold: seq<BlockRef>, m: nat, victims: seq<BlockRef>,
                           slots: seq<nat>, t': Table)
    requires m <= |cold| && Distinct(cold) && FetchMoves(t, victims, cold[..m], slots, t')
    requires (forall r :: r in needed ==> r in t.blocks)
    requires (forall r :: r in cold <==> r in needed && Resides(t, r, CPU))
    requires forall r :: r in victims ==> Resides(t, r, STAGING)
    ensures (forall r :: r in needed ==> r in t'.blocks && t'.blocks[r].residency != CPU)
      <==> (m == |cold| && forall r :: r in needed && Resides(t, r, STAGING) ==> r !in victims)
  {
    forall r | r in cold[..m] ensures r in t'.blocks && t'.blocks[r].residency == STAGING {
      var i :| 0 <= i < m && cold[..m][i] == r;
      assert t'.blocks[cold[..m][i]] == OnStaging(t.blocks[cold[..m][i]], slots[i]);
    }
    assert forall r :: r in t'.blocks.Keys <==> r in t.blocks.Keys;
    if m < |cold| {
      var r := cold[m];
      assert r in cold && r !in cold[..m];
      assert t'.blocks[r].residency == CPU;
    } else {
      assert cold[..m] == cold;
    }
  }

  /** A selection is fetched by asking for its CPU-resident blocks. Afterwards every selected block is
      readable on the GPU if and only if those blocks fit into staging and none of the selected blocks
      that were staged before is among the coldest occupants the fetch evicts. */
  lemma SelectionReadableIff(cfg: Config, s: State, needed: seq<BlockRef>, s': State)
    requires ConfigOk(cfg) && Inv(cfg, s) && Distinct(needed) && (forall r :: r in needed ==> r in s.core.table.blocks)
    requires Stage(cfg, s, Filter(OnCpuOnly(s.core.table.blocks), needed), true, s')
    ensures var cold := Filter(OnCpuOnly(s.core.table.blocks), needed);
      var k := Evictions(|cold|, |s.core.pool.free|, cfg.stagingSlots);
      && k <= |Ranked(KeyOf(s.core.scores), s.core.pool.order)|
      && ((forall r :: r in needed ==> r in s'.core.table.blocks && s'.core.table.blocks[r].residency != CPU)
          <==> (|cold| <= cfg.stagingSlots
                && forall r :: r in needed && Resides(s.core.table, r, STAGING) ==>
                     r !in Ranked(KeyOf(s.core.scores), s.core.pool.order)[..k]))
  {
    hide Inv, EnsurePost, Filter, Ranked, FetchMoves, AreColdest, Distinct, PageShape;
    var t, p, key := s.core.table, s.core.pool, KeyOf(s.core.scores);
    var cold := Filter(OnCpuOnly(t.blocks), needed);
    FilterElements(OnCpuOnly(t.blocks), needed);
    SettledOf(cfg, s);
    var res :| EnsurePost(key, cfg.d, cfg.base, p, t, s.core.gpu, s.core.cpu, cold, true, res,
                          s'.core.pool, s'.core.table, s'.core.gpu);
    RankedElements(key, p.order);
    if cold == [] {
      NothingToFetch(key, cfg.d, cfg.base, p, t, s.core.gpu, s.core.cpu, res, s'.core.pool, s'.core.table, s'.core.gpu);
      forall r | r in needed ensures t.blocks[r].residency != CPU {
        assert r !in cold;
      }
    } else {
      FetchOutcome(key, cfg.d, cfg.base, p, t, s.core.gpu, s.core.cpu, cold, res,
                   s'.core.pool, s'.core.table, s'.core.gpu, cfg.stagingSlots);
      var m := Min(|cold|, cfg.stagingSlots);
      var k := Evictions(|cold|, |p.free|, cfg.stagingSlots);
      var victims := Ranked(key, p.order)[..k];
      var slots: seq<nat> :| |slots| == m && FetchMoves(t, victims, cold[..m], slots, s'.core.table);
      OccupantsAreStaged(cfg, s, victims);
      ReadableAfterMoves(t, needed, cold, m, victims, slots, s'.core.table);
    }
  }

  lemma NothingToFetch(key: BlockRef -> Score, d: Dims, base: nat, p: Pool, t: Table, gpu: seq<Page>, cpu: seq<Slab>,
                       res: Result<(map<BlockRef, nat>, seq<BlockRef>)>, p': Pool, t': Table, gpu': seq<Page>)
    requires EnsurePost(key, d, base, p, t, gpu, cpu, [], true, res, p', t', gpu')
    ensures t' == t
  {
    hide Served, Ranked;
    assert Dedup<BlockRef>([]) == [];
    FilterEmpty(OnCpuOnly(t.blocks));
  }

  lemma SettledOf(cfg: Config, s: State)
    requires Inv(cfg, s)
    ensures Settled(s.core.pool, s.core.table, cfg.stagingSlots)
  {
    hide Filled, ScoredExactly, AllIntact, EventsSafe, Counted, Placed, Tracked, Settled;
  }

  lemma OccupantsAreStaged(cfg: Config, s: State, victims: seq<BlockRef>)
    requires Inv(cfg, s) && forall r :: r in victims ==> r in s.core.pool.order
    ensures forall r :: r in victims ==> Resides(s.core.table, r, STAGING)
  {
    hide Filled, ScoredExactly, AllIntact, EventsSafe, Counted, Placed, Tracked;
    forall r | r in victims ensures Resides(s.core.table, r, STAGING) {
      assert r in ToSet(s.core.pool.order);
    }
  }
}
