/** The orchestrator: it drives the shared table, the staging pool and the offload manager. */
module Orchestration {
  import opened Blocks
  import opened Ranking
  import opened Residencies
  import opened Layout
  import opened Memory
  import opened Scores
  import opened Scoring
  import opened Moves
  import opened Offloading
  import opened Staging
  import opened StagingPools
  import opened Selection
  import opened Engine
  import opened EngineSync

  lemma PutSame(t: Table, r: BlockRef)
    requires r in t.blocks
    ensures Put(t, r, t.blocks[r]) == t
  {
    assert t.blocks[r := t.blocks[r]] == t.blocks;
  }

  lemma {:induction false} ScoredKeys(
      scores: map<BlockRef, real>, decay: real, m: Measure, d: Dims, gpu: seq<Page>, refs: seq<BlockRef>,
      gids: seq<nat>, n: nat)
    requires n <= |refs| == |gids| && (forall i :: 0 <= i < |gids| ==> gids[i] < |gpu| && Measurable(d, gpu[gids[i]]))
    requires forall i :: 0 <= i < |refs| ==> !IsWarmup(refs[i].req)
    ensures ScoredOneByOne(scores, decay, m, d, gpu, refs, gids, n).Keys == scores.Keys + ToSet(refs[..n])
  {
    hide PageScore, Measurable, ScoredOneByOne;
    if n == 0 {
      NothingScored(scores, decay, m, d, gpu, refs, gids);
    } else {
      ScoredKeys(scores, decay, m, d, gpu, refs, gids, n - 1);
      ScoredOneMore(scores, decay, m, d, gpu, refs, gids, n - 1);
      assert refs[..n] == refs[..n - 1] + [refs[n - 1]];
    }
  }

  lemma {:induction false} ScoredOther(
      scores: map<BlockRef, real>, decay: real, m: Measure, d: Dims, gpu: seq<Page>, refs: seq<BlockRef>,
      gids: seq<nat>, n: nat, r: BlockRef)
    requires n <= |refs| == |gids| && (forall i :: 0 <= i < |gids| ==> gids[i] < |gpu| && Measurable(d, gpu[gids[i]]))
    requires r !in refs[..n]
    ensures var s := ScoredOneByOne(scores, decay, m, d, gpu, refs, gids, n);
      (r in s <==> r in scores) && (r in scores ==> s[r] == scores[r])
  {
    hide PageScore, Measurable, ScoredOneByOne, IsWarmup;
    if n == 0 {
      NothingScored(scores, decay, m, d, gpu, refs, gids);
    } else {
      assert refs[..n] == refs[..n - 1] + [refs[n - 1]];
      ScoredOther(scores, decay, m, d, gpu, refs, gids, n - 1, r);
      ScoredOneMore(scores, decay, m, d, gpu, refs, gids, n - 1);
    }
  }

  lemma {:induction false} ScoredOwn(
      scores: map<BlockRef, real>, decay: real, m: Measure, d: Dims, gpu: seq<Page>, refs: seq<BlockRef>,
      gids: seq<nat>, n: nat, i: nat)
    requires i < n <= |refs| == |gids| && Distinct(refs) && !IsWarmup(refs[i].req)
    requires forall i :: 0 <= i < |gids| ==> gids[i] < |gpu| && Measurable(d, gpu[gids[i]])
    ensures var s, r := ScoredOneByOne(scores, decay, m, d, gpu, refs, gids, n), refs[i];
      r in s && s[r] == Observed(scores, decay, r, PageScore(m, d, gpu[gids[i]]))[r]
  {
    hide PageScore, Measurable, ScoredOneByOne, IsWarmup;
    ScoredOneMore(scores, decay, m, d, gpu, refs, gids, n - 1);
    if i == n - 1 {
      NextIsNew(refs, i);
      ScoredOther(scores, decay, m, d, gpu, refs, gids, n - 1, refs[i]);
    } else {
      ScoredOwn(scores, decay, m, d, gpu, refs, gids, n - 1, i);
      assert refs[i] != refs[n - 1];
    }
  }

  /** Scoring a list without repeats, one block after the other: each ends up scored by its own page. */
  lemma OneByOneIsRescored(cfg: Config, t: Table, gpu: seq<Page>, was: map<BlockRef, real>, refs: seq<BlockRef>,
                           gids: seq<nat>)
    requires |refs| == |gids| && Distinct(refs) && (forall i :: 0 <= i < |refs| ==> !IsWarmup(refs[i].req))
    requires forall i :: 0 <= i < |gids| ==> gids[i] < |gpu| && Measurable(cfg.d, gpu[gids[i]])
    requires forall i :: 0 <= i < |refs| ==> refs[i] in t.blocks && t.blocks[refs[i]].gpu == Some(gids[i])
    ensures Rescored(cfg, t, gpu, was, ToSet(refs),
                     ScoredOneByOne(was, cfg.decay, cfg.meter, cfg.d, gpu, refs, gids, |refs|))
  {
    hide PageScore, Measurable, ScoredOneByOne, IsWarmup, Distinct;
    var n, scores := |refs|, ScoredOneByOne(was, cfg.decay, cfg.meter, cfg.d, gpu, refs, gids, |refs|);
    ScoredKeys(was, cfg.decay, cfg.meter, cfg.d, gpu, refs, gids, n);
    assert refs[..n] == refs;
    forall r | r in was && r !in ToSet(refs) ensures scores[r] == was[r] {
      ScoredOther(was, cfg.decay, cfg.meter, cfg.d, gpu, refs, gids, n, r);
    }
    forall r | r in ToSet(refs) ensures ScoredByPage(cfg, t, gpu, was, r, scores[r]) {
      var i :| 0 <= i < n && refs[i] == r;
      ScoredOwn(was, cfg.decay, cfg.meter, cfg.d, gpu, refs, gids, n, i);
    }
  }

  /** What a scoring pass over `refs` picks: blocks that need a score, with their pages. */
  ghost predicate Picked(blocks: map<BlockRef, Location>, scored: set<BlockRef>, refs: seq<BlockRef>,
                         picked: seq<BlockRef>, gids: seq<nat>) {
    && |picked| == |gids| && Distinct(picked)
    && (forall r :: r in picked <==> r in refs && NeedsScore(blocks, scored, r))
    && (forall i :: 0 <= i < |picked| ==> picked[i] in blocks && blocks[picked[i]].gpu == Some(gids[i]))
  }

  lemma {:induction false} PutNPages(t: Table, refs: seq<BlockRef>, locs: seq<Location>, n: nat, numPages: nat)
    requires n <= |refs| == |locs| && PagesWithin(t, numPages)
    requires forall i :: 0 <= i < n ==> locs[i].gpu.Some? && locs[i].gpu.value < numPages
    ensures PagesWithin(PutN(t, refs, locs, n), numPages)
  {
    hide PagesWithin;
    if n > 0 {
      PutNPages(t, refs, locs, n - 1, numPages);
      PutPages(PutN(t, refs, locs, n - 1), refs[n - 1], locs[n - 1], numPages);
    }
  }

  lemma PutPages(t: Table, r: BlockRef, l: Location, numPages: nat)
    requires PagesWithin(t, numPages) && l.gpu.Some? && l.gpu.value < numPages
    ensures PagesWithin(Put(t, r, l), numPages)
  {
  }

  lemma SyncedPages(cfg: Config, t: Table, q: string, ids: seq<nat>, computed: nat, numPages: nat)
    requires PagesWithin(t, numPages) && forall i :: 0 <= i < |ids| ==> ids[i] < numPages
    ensures PagesWithin(SyncedTable(cfg, t, q, ids, computed), numPages)
  {
    PutNPages(t, RefsOf(q, |ids|), SyncLocations(cfg, t.blocks, q, ids, computed), |ids|, numPages);
  }

  lemma IsSyncedCore(cfg: Config, c: Core, q: string, ids: seq<nat>, computed: nat, c': Core)
    requires c' == c.(table := c'.table, scores := c'.scores, scored := c'.scored, reqBlocks := c'.reqBlocks)
    requires c'.table == SyncedTable(cfg, c.table, q, ids, computed)
    requires c'.scored == c.scored + NewlyScored(c'.table.blocks, c.scored, q, |ids|)
    requires c'.scores.Keys == c.scores.Keys + NewlyScored(c'.table.blocks, c.scored, q, |ids|)
    requires Rescored(cfg, c'.table, c.gpu, c.scores, NewlyScored(c'.table.blocks, c.scored, q, |ids|), c'.scores)
    requires c'.reqBlocks == c.reqBlocks[q := RefsOf(q, |ids|)]
    ensures SyncedCore(cfg, c, q, ids, computed, c')
  {
    hide SyncedTable, NewlyScored, Rescored;
  }

  /** A sync leaves staging and the CPU copies alone, whatever list it is given. */
  lemma SyncedKeepsStaging(cfg: Config, p: Pool, t: Table, q: string, ids: seq<nat>, computed: nat, numSlots: nat,
                           cpuSlots: nat)
    requires Settled(p, t, numSlots) && CopiesWithin(t, cpuSlots)
    ensures Settled(p, SyncedTable(cfg, t, q, ids, computed), numSlots)
    ensures CopiesWithin(SyncedTable(cfg, t, q, ids, computed), cpuSlots)
  {
    hide Partition, Full;
    var t' := SyncedTable(cfg, t, q, ids, computed);
    forall r
      ensures Resides(t', r, STAGING) <==> Resides(t, r, STAGING)
      ensures Resides(t, r, STAGING) ==> t'.blocks[r].stagingSlot == t.blocks[r].stagingSlot
      ensures r in t'.blocks && t'.blocks[r].cpuSlot.Some? ==>
        r in t.blocks && t.blocks[r].cpuSlot == t'.blocks[r].cpuSlot
    {
      SyncedAt(cfg, t, q, ids, computed, r);
      hide SyncedTable;
    }
  }

  /** Two passes over the two parts of a list pick what one pass over the whole would. */
  lemma PickedParts(blocks: map<BlockRef, Location>, scored: set<BlockRef>, refs: seq<BlockRef>, cut: nat,
                    p1: seq<BlockRef>, g1: seq<nat>, p2: seq<BlockRef>, g2: seq<nat>)
    requires cut <= |refs| && Distinct(refs)
    requires Picked(blocks, scored, refs[cut..], p1, g1)
    requires Picked(blocks, scored + ToSet(p1), refs[..cut], p2, g2)
    ensures Picked(blocks, scored, refs, p1 + p2, g1 + g2)
  {
    ConcatDistinct(p1, p2);
    assert refs == refs[..cut] + refs[cut..];
    forall r | r in refs[..cut] ensures r !in refs[cut..] {
      var i :| 0 <= i < cut && refs[i] == r;
      forall j | 0 <= j < |refs[cut..]| ensures refs[cut..][j] != r {
        assert refs[cut..][j] == refs[cut + j];
      }
    }
  }

  /** A descending pick of at most `limit` blocks: nothing left behind scores higher than a picked one.
      Ties may go either way. */
  ghost predicate Hottest(key: BlockRef -> Score, refs: seq<BlockRef>, limit: nat, picked: seq<BlockRef>) {
    && Distinct(picked) && |picked| == Min(|refs|, limit)
    && (forall r :: r in picked ==> r in refs)
    && (forall i, j :: 0 <= i < j < |picked| ==> !Less(key(picked[i]), key(picked[j])))
    && (forall r, k :: r in picked && k in refs && k !in picked ==> !Less(key(r), key(k)))
  }

  function LastReversed<T>(s: seq<T>, m: nat): (r: seq<T>)
    requires m <= |s|
    ensures |r| == m && forall i :: 0 <= i < m ==> r[i] == s[|s| - 1 - i]
  {
    seq(m, i requires 0 <= i < m => s[|s| - 1 - i])
  }

  lemma HottestGoLast(scores: map<BlockRef, real>, refs: seq<BlockRef>, limit: nat, picked: seq<BlockRef>)
    requires Hottest(KeyOf(scores), refs, limit, picked)
    ensures GoLast(scores, refs, limit, picked)
  {
    hide Distinct;
    forall a, b ensures !Less(KeyOf(scores)(a), KeyOf(scores)(b)) ==> ScoresAtLeast(scores, a, b) {
    }
    hide Less, KeyOf, ScoresAtLeast;
  }

  lemma ReversedRankingIsHottest(key: BlockRef -> Score, refs: seq<BlockRef>, limit: nat)
    requires Distinct(refs)
    ensures Hottest(key, refs, limit, LastReversed(Ranked(key, refs), Min(|refs|, limit)))
  {
    var all := Ranked(key, refs);
    assert |all| == |refs|;
    RankedInEvictionOrder(key, refs);
    RankedElements(key, refs);
    hide Ranked;
    NeverHotterLater(key, refs, all);
    hide InEvictionOrder;
    TailIsHottest(key, refs, all, limit);
  }

  lemma NeverHotterLater(key: BlockRef -> Score, refs: seq<BlockRef>, all: seq<BlockRef>)
    requires InEvictionOrder(key, refs, all)
    ensures forall i, j :: 0 <= i < j < |all| ==> !Less(key(all[j]), key(all[i]))
  {
    forall i, j | 0 <= i < j < |all| ensures !Less(key(all[j]), key(all[i])) {
      assert Colder(key, refs, all[i], all[j]);
      hide InEvictionOrder, Precedes;
    }
  }

  lemma TailIsHottest(key: BlockRef -> Score, refs: seq<BlockRef>, all: seq<BlockRef>, limit: nat)
    requires |all| == |refs| && Distinct(all) && (forall r :: r in all <==> r in refs)
    requires forall i, j :: 0 <= i < j < |all| ==> !Less(key(all[j]), key(all[i]))
    ensures Hottest(key, refs, limit, LastReversed(all, Min(|refs|, limit)))
  {
    hide Less;
    var m := Min(|refs|, limit);
    var picked := LastReversed(all, m);
    forall r | r in picked ensures r in refs {
      var i :| 0 <= i < m && picked[i] == r;
      assert all[|all| - 1 - i] in all;
    }
    forall j | |all| - m <= j < |all| ensures all[j] in picked {
      assert picked[|all| - 1 - j] == all[j];
    }
    forall r, k | r in picked && k in refs && k !in picked ensures !Less(key(r), key(k)) {
      var i :| 0 <= i < m && picked[i] == r;
      assert k in all;
      var j :| 0 <= j < |all| && all[j] == k;
    }
  }

  predicate Graduate(cfg: Config, blocks: map<BlockRef, Location>, r: BlockRef, computed: nat) {
    r in blocks && Full(cfg, r.idx, computed) && !blocks[r].complete
  }

  /** The blocks of a list that prefill completion has to score. */
  ghost function Graduates(cfg: Config, blocks: map<BlockRef, Location>, scored: set<BlockRef>, refs: seq<BlockRef>,
                           computed: nat)
    : (s: set<BlockRef>)
  {
    set r | r in refs && Graduate(cfg, blocks, r, computed) && blocks[r].residency == GPU && r !in scored
  }

  /** Exactly the full blocks of the list have become complete. */
  ghost predicate Graduated(cfg: Config, t: Table, refs: seq<BlockRef>, computed: nat, t': Table) {
    && t'.order == t.order && t'.version == t.version && t'.blocks.Keys == t.blocks.Keys
    && (forall r :: r in t.blocks ==>
          t'.blocks[r] == if r in refs && Full(cfg, r.idx, computed) then t.blocks[r].(complete := true)
            else t.blocks[r])
  }

  lemma NobodyGraduates(cfg: Config, t: Table, scored: set<BlockRef>, computed: nat)
    ensures Graduated(cfg, t, [], computed, t) && Graduates(cfg, t.blocks, scored, [], computed) == {}
    ensures ToSet<BlockRef>([]) == {}
  {
  }

  lemma GraduateOne(cfg: Config, t: Table, scored: set<BlockRef>, refs: seq<BlockRef>, i: nat, computed: nat, t1: Table)
    requires i < |refs| && refs[..i + 1] == refs[..i] + [refs[i]] && refs[i] !in refs[..i]
    requires Graduated(cfg, t, refs[..i], computed, t1)
    ensures refs[i] in t1.blocks <==> refs[i] in t.blocks
    ensures refs[i] in t.blocks ==> t1.blocks[refs[i]] == t.blocks[refs[i]]
    ensures Graduate(cfg, t1.blocks, refs[i], computed) <==> Graduate(cfg, t.blocks, refs[i], computed)
    ensures refs[i] !in Graduates(cfg, t.blocks, scored, refs[..i], computed)
    ensures Graduate(cfg, t.blocks, refs[i], computed) ==>
      Graduated(cfg, t, refs[..i + 1], computed, Put(t1, refs[i], t1.blocks[refs[i]].(complete := true)))
    ensures !Graduate(cfg, t.blocks, refs[i], computed) ==> Graduated(cfg, t, refs[..i + 1], computed, t1)
    ensures Graduates(cfg, t.blocks, scored, refs[..i + 1], computed) ==
      Graduates(cfg, t.blocks, scored, refs[..i], computed) +
      (if Graduate(cfg, t.blocks, refs[i], computed) && t.blocks[refs[i]].residency == GPU
          && refs[i] !in scored then {refs[i]} else {})
  {
    hide Full;
    assert refs[i] in t1.blocks.Keys <==> refs[i] in t.blocks.Keys;
    assert refs[i] in t1.blocks ==> t1.blocks[refs[i] := t1.blocks[refs[i]].(complete := true)].Keys == t1.blocks.Keys;
  }

  /** After a sync with the same token count there is nothing left for prefill completion to do. */
  lemma PrefillAfterSyncIsIdle(cfg: Config, s: State, q: string)
    requires Inv(cfg, s) && q in s.core.reqBlocks && q in s.computed
    ensures forall t' :: Graduated(cfg, s.core.table, s.core.reqBlocks[q], s.computed[q], t') ==> t' == s.core.table
    ensures Graduates(cfg, s.core.table.blocks, s.core.scored, s.core.reqBlocks[q], s.computed[q]) == {}
  {
    hide CoreInv, ScoredExactly, AllIntact, EventsSafe, Counted, Placed, Mirrored, Full;
    forall r | r in s.core.reqBlocks[q] && r in s.core.table.blocks
      ensures !Graduate(cfg, s.core.table.blocks, r, s.computed[q])
    {
      assert r.req == q;
    }
    forall t' | Graduated(cfg, s.core.table, s.core.reqBlocks[q], s.computed[q], t') ensures t' == s.core.table {
      assert t'.blocks == s.core.table.blocks;
    }
  }

  /** The same, also when the orchestrator has nothing listed for the request or is switched off. */
  lemma IdlePrefill(cfg: Config, s: State, q: string, refs: seq<BlockRef>, t': Table)
    requires Inv(cfg, s) && q in s.computed && (refs == [] || (q in s.core.reqBlocks && refs == s.core.reqBlocks[q]))
    requires Graduated(cfg, s.core.table, refs, s.computed[q], t')
    ensures t' == s.core.table && Graduates(cfg, s.core.table.blocks, s.core.scored, refs, s.computed[q]) == {}
  {
    hide Inv;
    if refs == [] {
      assert t'.blocks == s.core.table.blocks;
    } else {
      PrefillAfterSyncIsIdle(cfg, s, q);
    }
  }

  /** A fetch of `refs`, as the orchestrator's state sees it. */
  ghost predicate FetchEffect(d: Dims, base: nat, refs: seq<BlockRef>, copied: bool,
                              out: Result<(map<BlockRef, nat>, seq<BlockRef>)>, c: Core, c': Core) {
    && EnsurePost(KeyOf(c.scores), d, base, c.pool, c.table, c.gpu, c.cpu, refs, copied, out, c'.pool, c'.table, c'.gpu)
    && c' == c.(pool := c'.pool, table := c'.table, gpu := c'.gpu)
  }

  function StagedMap(out: Result<(map<BlockRef, nat>, seq<BlockRef>)>): (res: Result<map<BlockRef, nat>>) {
    if out.Ok? then Ok(out.value.0) else Err(out.error)
  }

  /** The lag prefetch: nothing while the version reads what it read last time; else a fetch of the
      selection's CPU-resident blocks. */
  ghost predicate PrefetchEffect(
      d: Dims, base: nat, page: nat, seen: nat, reqs: seq<string>, idx: Tensor<int>, len: Tensor<int>, copied: bool,
      needed: seq<Touch>, out: Result<(map<BlockRef, nat>, seq<BlockRef>)>,
      c: Core, res: Result<map<BlockRef, nat>>, c': Core)
    requires Shaped(idx) && Shaped(len) && 0 < page
  {
    if c.table.version == seen then res == Ok(map[]) && c' == c
    else if len.d0 != idx.d0 || len.d1 != idx.d1 || len.d2 != 1 || |reqs| != idx.d0 then
      res == Err(ValueError) && c' == c
    else
      && Distinct(needed)
      && (forall r :: r in needed <==> r in NeededUpTo(reqs, idx, page, FirstHeadEnd(len, idx.d2)))
      && FetchEffect(d, base, Filter(OnCpuOnly(c.table.blocks), RefsIn(needed)), copied, out, c, c')
      && res == StagedMap(out)
  }

  /** Promotion: a fetch of the request's highest-scored CPU-resident blocks, if there are any. */
  ghost predicate PromoteEffect(
      d: Dims, base: nat, q: string, limit: int, copied: bool, picked: seq<BlockRef>,
      out: Result<(map<BlockRef, nat>, seq<BlockRef>)>, c: Core, res: Result<map<BlockRef, nat>>, c': Core)
  {
    if limit <= 0 || (forall r :: r in c.table.blocks && r.req == q ==> c.table.blocks[r].residency != CPU)
    then res == Ok(map[]) && c' == c
    else
      && (exists cold :: IsColdListing(c.table.blocks, q, cold) && GoLast(c.scores, cold, limit, picked))
      && FetchEffect(d, base, picked, copied, out, c, c')
      && res == StagedMap(out)
  }

  class OffloadOrchestrator {
    const cfg: Config
    const manager: KVOffloadManager
    const staging: KVStagingPool
    const residency: ResidencyTable
    var requestBlocks: map<string, seq<BlockRef>>
    var scored: set<BlockRef>
    var lagSeenCpuVersion: nat
    var sparseMode: bool

    /** The shared objects are the same ones everywhere, and measure as configured. */
    ghost predicate Wired() {
      && manager.residency == residency && staging.residency == residency
      && staging.memory == manager.memory && staging.scorer == manager.scorer
      && manager.memory.d == cfg.d && manager.Meter() == cfg.meter && manager.scorer.decay == cfg.decay
    }

    ghost predicate Valid()
      reads this, residency, manager, manager.memory, manager.pool, staging
    {
      Wired() && manager.Valid() && staging.Valid()
    }

    ghost function View(): (c: Core)
      requires manager.memory.Valid()
      reads this, residency, manager, manager.scorer, manager.memory, manager.pool, staging
    {
      Core(residency.View(), staging.View(), manager.pool.free, manager.scorer.scores, scored, requestBlocks,
           manager.memory.GpuPages(), manager.memory.CpuSlots())
    }

    constructor (cfg: Config, manager: KVOffloadManager, staging: KVStagingPool, residency: ResidencyTable)
      ensures this.cfg == cfg && this.manager == manager && this.staging == staging && this.residency == residency
      ensures requestBlocks == map[] && scored == {} && lagSeenCpuVersion == 0 && sparseMode
    {
      this.cfg, this.manager, this.staging, this.residency := cfg, manager, staging, residency;
      requestBlocks, scored, lagSeenCpuVersion, sparseMode := map[], {}, 0, true;
    }

    /** Where a sync puts one block of the list. */
    method MarkBlock(ref: BlockRef, page: nat, complete: bool)
      requires residency.Valid()
      modifies residency
      ensures residency.Valid()
      ensures residency.View() == Put(old(residency.View()), ref,
                                      SyncLocation(old(residency.blocks), ref, page, complete))
    {
      hide Agree;
      if ref in residency.blocks { PutSame(residency.View(), ref); }
      if ref in residency.blocks && residency.blocks[ref].residency != GPU {
        if complete && !residency.blocks[ref].complete {
          var ok := residency.MarkComplete(ref);
        }
      } else if ref !in residency.blocks || residency.blocks[ref].gpu != Some(page) {
        residency.MarkGpu(ref, page, complete);
      } else if complete && !residency.blocks[ref].complete {
        var ok := residency.MarkComplete(ref);
      }
    }

    /** The marking loop of a sync: every block of the list takes the location SyncLocation gives it. */
    method MarkBlocks(q: string, ids: seq<nat>, computed: nat) returns (refs: seq<BlockRef>)
      requires residency.Valid()
      modifies residency
      ensures residency.Valid() && refs == RefsOf(q, |ids|)
      ensures residency.View() == SyncedTable(cfg, old(residency.View()), q, ids, computed)
    {
      hide Agree;
      ghost var t := residency.View();
      ghost var all, locs := RefsOf(q, |ids|), SyncLocations(cfg, t.blocks, q, ids, computed);
      refs := [];
      for i := 0 to |ids|
        invariant residency.Valid() && refs == all[..i]
        invariant residency.View() == PutN(t, all, locs, i)
      {
        var ref := BlockRef(q, i);
        assert ref == all[i];
        PutNKeeps(t, all, locs, i, ref);
        MarkBlock(ref, ids[i], (i + 1) * cfg.pageSize <= computed);
        refs := refs + [ref];
      }
    }

    /** One scoring pass over a list: what is complete, on the GPU and unscored is picked and marked. */
    method PickUnscored(refs: seq<BlockRef>) returns (picked: seq<BlockRef>, gids: seq<nat>)
      requires Distinct(refs) && PagesWithin(residency.View(), manager.memory.numPages)
      modifies this`scored
      ensures Picked(residency.blocks, old(scored), refs, picked, gids)
      ensures scored == old(scored) + ToSet(picked)
    {
      picked, gids := [], [];
      for i := 0 to |refs|
        invariant Picked(residency.blocks, old(scored), refs[..i], picked, gids)
        invariant scored == old(scored) + ToSet(picked)
      {
        var ref := refs[i];
        assert refs[..i + 1] == refs[..i] + [ref];
        assert ref !in refs[..i];
        if ref in residency.blocks && residency.blocks[ref].complete && ref !in scored {
          if residency.blocks[ref].residency == GPU {
            picked, gids := picked + [ref], gids + [residency.blocks[ref].gpu.value];
            scored := scored + {ref};
          }
        }
      }
      assert refs[..|refs|] == refs;
    }

    /** mark_complete on blocks that are complete already changes nothing. */
    method MarkAllComplete(refs: seq<BlockRef>)
      requires residency.Valid()
      requires forall r :: r in refs ==> r in residency.blocks && residency.blocks[r].complete
      modifies residency
      ensures residency.Valid() && residency.View() == old(residency.View())
    {
      hide Agree;
      for i := 0 to |refs|
        invariant residency.Valid() && residency.View() == old(residency.View())
      {
        assert refs[i] in refs;
        assert residency.blocks == residency.View().blocks;
        PutSame(residency.View(), refs[i]);
        var ok := residency.MarkComplete(refs[i]);
      }
    }

    /** Brings the table up to date with a request's full page list and scores what became complete. */
    method SyncRequestBlocks(q: string, ids: seq<nat>, computed: nat) returns (refs: seq<BlockRef>)
      requires Wired() && manager.Valid() && forall i :: 0 <= i < |ids| ==> ids[i] < manager.memory.numPages
      modifies this`requestBlocks, this`scored, residency, manager.scorer
      ensures manager.Valid() && (old(Valid()) ==> Valid())
      ensures IsWarmup(q) ==> refs == [] && View() == old(View())
      ensures (exists tail: string :: q == "_warmup_" + tail) ==> View() == old(View())
      ensures !IsWarmup(q) ==> refs == RefsOf(q, |ids|) && SyncedCore(cfg, old(View()), q, ids, computed, View())
    {
      hide Agree, SyncedTable, NewlyScored, PagesWithin, Settled, CopiesWithin, Rescored, IsWarmup, TensorsShaped,
           SlotsWithin, SyncedCore;
      WarmupNames(q);
      if IsWarmup(q) { return []; }
      ghost var c := View();
      if old(Valid()) {
        SyncedKeepsStaging(cfg, staging.View(), residency.View(), q, ids, computed, staging.numSlots,
                           manager.memory.numSlots);
      }
      var prev := if q in requestBlocks then |requestBlocks[q]| else 0;
      SyncedPages(cfg, residency.View(), q, ids, computed, manager.memory.numPages);
      refs := MarkBlocks(q, ids, computed);
      ScoreNew(q, refs, prev);
      requestBlocks := requestBlocks[q := refs];
      IsSyncedCore(cfg, c, q, ids, computed, View());
    }

    /** Scores the request's complete GPU blocks that have no score yet: the new tail first, then blocks
        tracked before that have just become complete. */
    method ScoreNew(q: string, refs: seq<BlockRef>, prev: nat)
      requires residency.Valid() && manager.memory.Valid() && PagesWithin(residency.View(), manager.memory.numPages)
      requires Wired() && !IsWarmup(q) && refs == RefsOf(q, |refs|)
      modifies this`scored, residency, manager.scorer
      ensures residency.Valid() && residency.View() == old(residency.View())
      ensures scored == old(scored) + NewlyScored(residency.blocks, old(scored), q, |refs|)
      ensures manager.scorer.scores.Keys ==
        old(manager.scorer.scores.Keys) + NewlyScored(residency.blocks, old(scored), q, |refs|)
      ensures Rescored(cfg, residency.View(), manager.memory.GpuPages(), old(manager.scorer.scores),
                       NewlyScored(residency.blocks, old(scored), q, |refs|), manager.scorer.scores)
    {
      hide Agree, Picked, Distinct, Rescored;
      ghost var t, was := residency.View(), scored;
      var cut := if prev <= |refs| then prev else |refs|;
      RefsDistinct(q, |refs|, cut);
      var p1, g1 := PickUnscored(refs[cut..]);
      var p2, g2 := PickUnscored(refs[..cut]);
      PickedParts(t.blocks, was, refs, cut, p1, g1, p2, g2);
      var picked, gids := p1 + p2, g1 + g2;
      PickedFacts(t, was, refs, picked, gids, q, |refs|, manager.memory.numPages);
      MarkAllComplete(picked);
      assert ToSet(picked) == ToSet(p1) + ToSet(p2);
      assert residency.blocks == residency.View().blocks;
      ScorePicked(picked, gids, t);
    }

    /** _cleanup_request: everything the request held in staging, on the CPU, in the table and in the
        scorer is dropped. */
    method CleanupRequest(q: string)
      requires Wired() && residency.Valid() && manager.memory.Valid()
      modifies this`requestBlocks, this`scored, residency, staging, manager.pool, manager.scorer
      ensures residency.Valid() && View() == CleanedCore(old(View()), q)
    {
      hide Agree, ReleasedPool, ReleasedTable, Removed, SlotList;
      var refs := if q in requestBlocks then requestBlocks[q] else [];
      requestBlocks := requestBlocks - {q};
      ghost var c := View();
      for i := 0 to |refs|
        invariant residency.Valid() && View() == CleanedN(c, refs, i)
      {
        staging.Release(refs[i]);
        manager.Free(refs[i]);
        scored := scored - {refs[i]};
      }
    }

    /** Marks the request's full blocks complete and scores those that just became so. */
    method OnPrefillComplete(q: string, computed: nat)
      requires Wired() && manager.Valid()
      requires q in requestBlocks ==> requestBlocks[q] == RefsOf(q, |requestBlocks[q]|)
      modifies this`scored, residency, manager.scorer
      ensures residency.Valid()
      ensures var refs := if !IsWarmup(q) && sparseMode && q in requestBlocks then requestBlocks[q] else [];
        && (Graduates(cfg, old(residency.blocks), old(scored), refs, computed) == {} ==>
              manager.scorer.scores == old(manager.scorer.scores))
        && Graduated(cfg, old(residency.View()), refs, computed, residency.View())
        && scored == old(scored) + Graduates(cfg, old(residency.blocks), old(scored), refs, computed)
        && manager.scorer.scores.Keys ==
             old(manager.scorer.scores.Keys) + Graduates(cfg, old(residency.blocks), old(scored), refs, computed)
        && Rescored(cfg, residency.View(), manager.memory.GpuPages(), old(manager.scorer.scores),
                    Graduates(cfg, old(residency.blocks), old(scored), refs, computed), manager.scorer.scores)
    {
      hide Agree;
      if IsWarmup(q) || !sparseMode || q !in requestBlocks {
        NobodyGraduates(cfg, residency.View(), scored, computed);
        return;
      }
      var picked, gids := GraduateAll(q, requestBlocks[q], computed);
      assert picked != [] ==> picked[0] in ToSet(picked);
      ScorePicked(picked, gids, residency.View());
    }

    method GraduateAll(q: string, refs: seq<BlockRef>, computed: nat) returns (picked: seq<BlockRef>, gids: seq<nat>)
      requires residency.Valid() && PagesWithin(residency.View(), manager.memory.numPages) && refs == RefsOf(q, |refs|)
      modifies this`scored, residency
      ensures residency.Valid() && Graduated(cfg, old(residency.View()), refs, computed, residency.View())
      ensures ToSet(picked) == Graduates(cfg, old(residency.blocks), old(scored), refs, computed)
      ensures scored == old(scored) + ToSet(picked) && |picked| == |gids|
      ensures forall k :: 0 <= k < |gids| ==> gids[k] < manager.memory.numPages
      ensures forall k :: 0 <= k < |picked| ==> picked[k].req == q
      ensures Distinct(picked) && PagesAre(residency.View(), picked, gids)
    {
      hide Agree, Distinct, Graduated, Graduates, Full, PagesAre;
      RefsDistinct(q, |refs|, 0);
      ghost var t, was := residency.View(), scored;
      picked, gids := [], [];
      NoPages(t);
      NobodyGraduates(cfg, t, was, computed);
      for i := 0 to |refs|
        invariant residency.Valid() && Graduated(cfg, t, refs[..i], computed, residency.View())
        invariant ToSet(picked) == Graduates(cfg, t.blocks, was, refs[..i], computed)
        invariant scored == was + ToSet(picked) && |picked| == |gids|
        invariant forall k :: 0 <= k < |gids| ==> gids[k] < manager.memory.numPages
        invariant forall k :: 0 <= k < |picked| ==> picked[k].req == q && picked[k] in refs[..i]
        invariant Distinct(picked) && PagesAre(residency.View(), picked, gids)
      {
        NextIsNew(refs, i);
        ghost var t1 := residency.View();
        GraduateOne(cfg, t, was, refs, i, computed, t1);
        var gid := GraduateRef(refs[i], computed);
        PagesStay(t1, residency.View(), refs[i], picked, gids);
        if gid.Some? {
          PagesOneMore(residency.View(), picked, gids, refs[i], gid.value);
          picked, gids := picked + [refs[i]], gids + [gid.value];
          assert ToSet(picked) == ToSet(picked[..|picked| - 1]) + {refs[i]};
        }
      }
      assert refs[..|refs|] == refs;
    }

    /** Marks one full block complete; says which page to score, if it was on the GPU and unscored. */
    method GraduateRef(r: BlockRef, computed: nat) returns (gid: Option<nat>)
      requires residency.Valid()
      modifies this`scored, residency
      ensures residency.Valid()
      ensures residency.View() ==
        if Graduate(cfg, old(residency.blocks), r, computed)
        then Put(old(residency.View()), r, old(residency.blocks)[r].(complete := true)) else old(residency.View())
      ensures gid ==
        if Graduate(cfg, old(residency.blocks), r, computed) && old(residency.blocks)[r].residency == GPU
           && r !in old(scored)
        then old(residency.blocks)[r].gpu else None
      ensures scored == if gid.Some? then old(scored) + {r} else old(scored)
    {
      hide Agree;
      gid := None;
      if r in residency.blocks {
        var l := residency.blocks[r];
        AgreeLocation(residency.View(), residency.numCpu, residency.byRequest, r);
        if (r.idx + 1) * cfg.pageSize <= computed && !l.complete {
          var ok := residency.MarkComplete(r);
          if l.residency == GPU && r !in scored {
            gid := l.gpu;
            scored := scored + {r};
          }
        }
      }
    }

    /** The lag prefetch: skipped while the CPU version stands still, else the CPU-resident blocks of the
        selection are fetched. */
    method PrepareStaging(reqs: seq<string>, idx: Tensor<int>, len: Tensor<int>, reach: nat)
      returns (res: Result<map<BlockRef, nat>>, ghost needed: seq<Touch>,
               ghost out: Result<(map<BlockRef, nat>, seq<BlockRef>)>)
      requires Valid() && Shaped(idx) && Shaped(len) && 0 < cfg.pageSize
      modifies this`lagSeenCpuVersion, staging, residency, manager.memory`gpu
      ensures Valid()
      ensures lagSeenCpuVersion == old(residency.cpuVersion)
      ensures PrefetchEffect(manager.memory.d, staging.base, cfg.pageSize, old(lagSeenCpuVersion), reqs, idx, len,
                             manager.memory.d.layers <= reach, needed, out, old(View()), res, View())
    {
      hide Agree, Settled, EnsurePost, NeededUpTo, CopiesWithin, PagesWithin, Distinct;
      needed, out := [], Err(ValueError);
      var version := residency.cpuVersion;
      if version == lagSeenCpuVersion { return Ok(map[]), needed, out; }
      lagSeenCpuVersion := version;
      var found := CollectNeededBlockRefs(reqs, idx, len, cfg.pageSize);
      if found.Err? { return Err(found.error), needed, out; }
      needed := found.value;
      var cold := Filter(OnCpuOnly(residency.blocks), RefsIn(found.value));
      var got := staging.EnsureResident(cold, reach);
      out := got;
      res := if got.Ok? then Ok(got.value.0) else Err(got.error);
    }

    /** Pre-stages the highest-scored CPU-resident blocks of a request. */
    method PromoteHotCpuBlocks(q: string, maxCount: int, reach: nat)
      returns (res: Result<map<BlockRef, nat>>, ghost picked: seq<BlockRef>,
               ghost out: Result<(map<BlockRef, nat>, seq<BlockRef>)>)
      requires Valid()
      modifies staging, residency, manager.memory`gpu
      ensures Valid()
      ensures PromoteEffect(manager.memory.d, staging.base, q, if sparseMode then maxCount else 0,
                            manager.memory.d.layers <= reach, picked, out, old(View()), res, View())
    {
      hide Agree, Settled, EnsurePost, CopiesWithin, PagesWithin, Distinct, Hottest, Ranked, GoLast, KeyOf;
      picked, out := [], Err(ValueError);
      if maxCount <= 0 || !sparseMode { return Ok(map[]), picked, out; }
      var all := residency.RefsForRequest(q);
      var cold := Filter(OnCpuOnly(residency.blocks), all);
      ColdListing(residency.blocks, q, all);
      if cold == [] { return Ok(map[]), picked, out; }
      var key := KeyOf(manager.scorer.scores);
      var pick := LastReversed(Ranked(key, cold), Min(|cold|, maxCount));
      ReversedRankingIsHottest(key, cold, maxCount);
      HottestGoLast(manager.scorer.scores, cold, maxCount, pick);
      picked := pick;
      var got := staging.EnsureResident(pick, reach);
      out := got;
      res := if got.Ok? then Ok(got.value.0) else Err(got.error);
    }

    method MarkScored(refs: seq<BlockRef>)
      modifies this`scored
      ensures scored == old(scored) + ToSet(refs)
    {
      for i := 0 to |refs|
        invariant scored == old(scored) + ToSet(refs[..i])
      {
        scored := scored + {refs[i]};
        assert refs[..i + 1] == refs[..i] + [refs[i]];
      }
      assert refs[..|refs|] == refs;
    }

    /** Scores the picked blocks, each by its own page. */
    method ScorePicked(picked: seq<BlockRef>, gids: seq<nat>, ghost t: Table)
      requires Wired() && manager.memory.Valid() && |picked| == |gids| && Distinct(picked) && PagesAre(t, picked, gids)
      requires forall i :: 0 <= i < |gids| ==> gids[i] < manager.memory.numPages
      requires forall i :: 0 <= i < |picked| ==> !IsWarmup(picked[i].req)
      modifies manager.scorer
      ensures manager.scorer.scores.Keys == old(manager.scorer.scores.Keys) + ToSet(picked)
      ensures Rescored(cfg, t, manager.memory.GpuPages(), old(manager.scorer.scores), ToSet(picked),
                       manager.scorer.scores)
      ensures picked == [] ==> manager.scorer.scores == old(manager.scorer.scores)
    {
      hide ScoredOneByOne, Measurable, Distinct, TensorsShaped, Columns;
      if |picked| > 0 {
        ghost var scores, pages := manager.scorer.scores, manager.memory.GpuPages();
        manager.ScoreBlocks(picked, gids);
        OneByOneIsRescored(cfg, t, pages, scores, picked, gids);
      }
    }
  }

  /** The request's CPU-resident blocks, without repeats. */
  ghost predicate IsColdListing(blocks: map<BlockRef, Location>, q: string, cold: seq<BlockRef>) {
    Distinct(cold) && forall r :: r in cold <==> r in blocks && r.req == q && blocks[r].residency == CPU
  }

  lemma ColdListing(blocks: map<BlockRef, Location>, q: string, all: seq<BlockRef>)
    requires IsRequestListing(blocks, q, all)
    ensures Distinct(Filter(OnCpuOnly(blocks), all)) && IsColdListing(blocks, q, Filter(OnCpuOnly(blocks), all))
    ensures Filter(OnCpuOnly(blocks), all) == [] <==>
      forall r :: r in blocks && r.req == q ==> blocks[r].residency != CPU
  {
    var cold := Filter(OnCpuOnly(blocks), all);
    FilterElements(OnCpuOnly(blocks), all);
    assert cold != [] ==> cold[0] in cold;
  }

  /** The pages the blocks' locations name. */
  ghost predicate PagesAre(t: Table, refs: seq<BlockRef>, gids: seq<nat>) {
    |refs| == |gids| && forall i :: 0 <= i < |refs| ==> refs[i] in t.blocks && t.blocks[refs[i]].gpu == Some(gids[i])
  }

  lemma NoPages(t: Table)
    ensures PagesAre(t, [], []) && Distinct<BlockRef>([])
  {
  }

  lemma PagesStay(t: Table, t': Table, r: BlockRef, refs: seq<BlockRef>, gids: seq<nat>)
    requires PagesAre(t, refs, gids)
    requires t' == t || (r in t.blocks && t' == Put(t, r, t.blocks[r].(complete := true)))
    ensures PagesAre(t', refs, gids)
  {
  }

  lemma PagesOneMore(t: Table, refs: seq<BlockRef>, gids: seq<nat>, r: BlockRef, gid: nat)
    requires PagesAre(t, refs, gids) && Distinct(refs) && r !in refs
    requires r in t.blocks && t.blocks[r].gpu == Some(gid)
    ensures PagesAre(t, refs + [r], gids + [gid]) && Distinct(refs + [r])
  {
  }

  lemma NextIsNew(refs: seq<BlockRef>, i: nat)
    requires i < |refs| && Distinct(refs)
    ensures refs[..i + 1] == refs[..i] + [refs[i]] && refs[i] !in refs[..i]
  {
  }

  lemma RefsDistinct(q: string, n: nat, cut: nat)
    requires cut <= n
    ensures Distinct(RefsOf(q, n)) && Distinct(RefsOf(q, n)[cut..]) && Distinct(RefsOf(q, n)[..cut])
  {
  }

  lemma PickedFacts(t: Table, scored: set<BlockRef>, refs: seq<BlockRef>, picked: seq<BlockRef>, gids: seq<nat>,
                    q: string, n: nat, numPages: nat)
    requires refs == RefsOf(q, n) && Picked(t.blocks, scored, refs, picked, gids) && PagesWithin(t, numPages)
    ensures ToSet(picked) == NewlyScored(t.blocks, scored, q, n) && |picked| == |gids|
    ensures Distinct(picked) && PagesAre(t, picked, gids)
    ensures forall i :: 0 <= i < |gids| ==> gids[i] < numPages
    ensures forall i :: 0 <= i < |picked| ==> picked[i].req == q
    ensures forall r :: r in picked ==> r in t.blocks && t.blocks[r].complete
  {
    forall i | 0 <= i < |picked| ensures picked[i].req == q && gids[i] < numPages {
      assert picked[i] in picked;
    }
  }
}
