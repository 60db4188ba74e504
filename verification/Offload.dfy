/** The offload manager: which complete GPU blocks leave, where their copies go, what is published. */
module Offloading {
  import opened Blocks
  import opened Ranking
  import opened Residencies
  import opened Layout
  import opened Memory
  import opened Scores
  import opened Scoring
  import opened Moves

  class CPUBlockPool {
    var free: seq<nat>

    constructor (numSlots: nat)
      requires numSlots > 0
      ensures |free| == numSlots && forall i :: 0 <= i < numSlots ==> free[i] == numSlots - 1 - i
    {
      free := seq(numSlots, i requires 0 <= i < numSlots => numSlots - 1 - i);
    }

    method Allocate() returns (res: Result<nat>)
      modifies this
      ensures old(free) == [] ==> res == Err(RuntimeError) && free == []
      ensures old(free) != [] ==> res == Ok(old(free)[|old(free)| - 1]) && free == old(free)[..|old(free)| - 1]
    {
      if free == [] {
        return Err(RuntimeError);
      }
      res := Ok(free[|free| - 1]);
      free := free[..|free| - 1];
    }

    method Free(slot: nat)
      modifies this
      ensures free == old(free) + [slot]
    {
      free := free + [slot];
    }
  }

  /** max(1, int(m * fraction + 0.5)) */
  function OffloadCount(m: nat, fraction: real): (n: int)
    requires 0.0 <= fraction < 1.0
  {
    var rounded := (m as real * fraction + 0.5).Floor;
    if rounded < 1 then 1 else rounded
  }

  /** n blocks are the fraction of m blocks: m * fraction to the nearest whole number, halves upwards, and one
      where that is none. */
  ghost predicate IsShare(n: int, m: nat, fraction: real) {
    if m as real * fraction >= 0.5 then m as real * fraction - 0.5 < n as real <= m as real * fraction + 0.5
    else n == 1
  }

  /** With anything to choose from, the count asks for at least one block and never for more than
      there are: the share nearest to the fraction. */
  lemma OffloadCountInRange(m: nat, fraction: real)
    requires 0.0 <= fraction < 1.0 && 0 < m
    ensures 1 <= OffloadCount(m, fraction) <= m
    ensures IsShare(OffloadCount(m, fraction), m, fraction)
    ensures OffloadCount(m, 0.0) == 1
  {
    assert m as real * fraction <= m as real;
    assert m as real * 0.0 == 0.0;
  }

  function Eligible(blocks: map<BlockRef, Location>, scored: set<BlockRef>): (keep: BlockRef -> bool) {
    r => r in scored && r in blocks && blocks[r].residency == GPU && blocks[r].complete
  }

  function PagesOf(t: Table, refs: seq<BlockRef>): (gids: seq<nat>)
    requires forall i :: 0 <= i < |refs| ==> refs[i] in t.blocks && t.blocks[refs[i]].gpu.Some?
    ensures |gids| == |refs|
    ensures forall i :: 0 <= i < |refs| ==> gids[i] == t.blocks[refs[i]].gpu.value
  {
    seq(|refs|, i requires 0 <= i < |refs| => t.blocks[refs[i]].gpu.value)
  }

  /** Pool slots handed back in order after a failed batch. */
  function GivenBack(free: seq<nat>, n: nat): (r: seq<nat>)
    requires n <= |free|
  {
    free[..|free| - n] + Popped(free, n)
  }

  lemma GivenBackSameSlots(free: seq<nat>, n: nat)
    requires n <= |free| && Distinct(free)
    ensures Distinct(GivenBack(free, n)) && |GivenBack(free, n)| == |free|
    ensures forall s :: s in GivenBack(free, n) <==> s in free
  {
    PoppedFacts(free, n);
  }

  ghost predicate SlotsWithin(free: seq<nat>, n: nat) {
    Distinct(free) && forall s :: s in free ==> s < n
  }

  /** Every complete GPU block names a page of the cache. */
  ghost predicate PagesWithin(t: Table, numPages: nat) {
    forall r :: r in t.blocks ==> t.blocks[r].gpu.Some? && t.blocks[r].gpu.value < numPages
  }

  predicate IsWarmup(req: string) {
    "_warmup_" <= req
  }

  /** A warm-up request is one whose name starts with the marker, whatever follows it. */
  lemma WarmupNames(req: string)
    ensures IsWarmup(req) <==> exists tail: string :: req == "_warmup_" + tail
  {
    if IsWarmup(req) {
      assert req == "_warmup_" + req[|"_warmup_"|..];
    }
  }

  /** score_block on each block in turn: a warm-up request is left out, every other block is observed with
      its page's score. */
  function ScoredOneByOne(
      scores: map<BlockRef, real>, decay: real, m: Measure, d: Dims, gpu: seq<Page>,
      refs: seq<BlockRef>, gids: seq<nat>, n: nat) : (s: map<BlockRef, real>)
    requires n <= |refs| == |gids|
    requires forall i :: 0 <= i < |gids| ==> gids[i] < |gpu| && Measurable(d, gpu[gids[i]])
  {
    if n == 0 then scores
    else
      var s := ScoredOneByOne(scores, decay, m, d, gpu, refs, gids, n - 1);
      if IsWarmup(refs[n - 1].req) then s else Observed(s, decay, refs[n - 1], PageScore(m, d, gpu[gids[n - 1]]))
  }

  /** The blocks of a batch that are not of warm-up requests, with their pages and scores. */
  ghost predicate Kept(m: Measure, d: Dims, gpu: seq<Page>, gids: seq<nat>, obs: seq<real>) {
    && |obs| == |gids|
    && (forall i :: 0 <= i < |gids| ==>
        gids[i] < |gpu| && Measurable(d, gpu[gids[i]]) && obs[i] == PageScore(m, d, gpu[gids[i]]))
  }

  lemma NothingObserved(scores: map<BlockRef, real>, decay: real, refs: seq<BlockRef>, obs: seq<real>)
    requires |refs| == |obs| == 0
    ensures ObservedN(scores, decay, refs, obs, 0) == scores
  {
  }

  lemma NoneKept(m: Measure, d: Dims, gpu: seq<Page>)
    ensures Kept(m, d, gpu, [], [])
  {
  }

  lemma KeptOneMore(m: Measure, d: Dims, gpu: seq<Page>, gids: seq<nat>, obs: seq<real>, p: nat)
    requires Kept(m, d, gpu, gids, obs) && p < |gpu| && Measurable(d, gpu[p])
    ensures Kept(m, d, gpu, gids + [p], obs + [PageScore(m, d, gpu[p])])
  {
    hide PageScore, Measurable;
  }

  lemma KeptPages(m: Measure, d: Dims, gpu: seq<Page>, gids: seq<nat>, obs: seq<real>)
    requires Kept(m, d, gpu, gids, obs)
    ensures |obs| == |gids| && forall i :: 0 <= i < |gids| ==> gids[i] < |gpu|
  {
    hide PageScore, Measurable;
  }

  lemma KeptSame(m: Measure, d: Dims, gpu: seq<Page>, gids: seq<nat>, obs: seq<real>, obs2: seq<real>)
    requires Kept(m, d, gpu, gids, obs) && Kept(m, d, gpu, gids, obs2)
    ensures obs == obs2
  {
    hide PageScore, Measurable;
  }

  lemma {:induction false} ObservedPrefix(
      scores: map<BlockRef, real>, decay: real, refs: seq<BlockRef>, obs: seq<real>,
      refs': seq<BlockRef>, obs': seq<real>, n: nat)
    requires n <= |refs| == |obs| && |refs'| == |obs'| && refs <= refs' && obs <= obs'
    ensures ObservedN(scores, decay, refs, obs, n) == ObservedN(scores, decay, refs', obs', n)
  {
    if n > 0 {
      ObservedPrefix(scores, decay, refs, obs, refs', obs', n - 1);
    }
  }

  lemma ObservedSnoc(scores: map<BlockRef, real>, decay: real, refs: seq<BlockRef>, obs: seq<real>, r: BlockRef,
                     x: real)
    requires |refs| == |obs|
    ensures ObservedN(scores, decay, refs + [r], obs + [x], |refs| + 1) ==
      Observed(ObservedN(scores, decay, refs, obs, |refs|), decay, r, x)
  {
    ObservedPrefix(scores, decay, refs, obs, refs + [r], obs + [x], |refs|);
  }

  lemma NothingScored(scores: map<BlockRef, real>, decay: real, m: Measure, d: Dims, gpu: seq<Page>,
                      refs: seq<BlockRef>, gids: seq<nat>)
    requires |refs| == |gids| && forall i :: 0 <= i < |gids| ==> gids[i] < |gpu| && Measurable(d, gpu[gids[i]])
    ensures ScoredOneByOne(scores, decay, m, d, gpu, refs, gids, 0) == scores == ObservedN(scores, decay, [], [], 0)
  {
  }

  lemma ScoredOneMore(scores: map<BlockRef, real>, decay: real, m: Measure, d: Dims, gpu: seq<Page>,
                      refs: seq<BlockRef>, gids: seq<nat>, n: nat)
    requires n < |refs| == |gids| && forall i :: 0 <= i < |gids| ==> gids[i] < |gpu| && Measurable(d, gpu[gids[i]])
    ensures ScoredOneByOne(scores, decay, m, d, gpu, refs, gids, n + 1) ==
      var s := ScoredOneByOne(scores, decay, m, d, gpu, refs, gids, n);
      if IsWarmup(refs[n].req) then s else Observed(s, decay, refs[n], PageScore(m, d, gpu[gids[n]]))
  {
    hide PageScore, PageShape;
  }

  /** The CPU slot a block holds, as a list of at most one entry. */
  function SlotList(blocks: map<BlockRef, Location>, r: BlockRef): (s: seq<nat>) {
    if r in blocks && blocks[r].cpuSlot.Some? then [blocks[r].cpuSlot.value] else []
  }

  /** The part of the engine an offload pass can change. */
  datatype Store = Store(table: Table, free: seq<nat>, cpu: seq<Slab>)

  /** Nothing published, no slot lost; only slots that are free may hold something else. */
  ghost predicate NothingOffloaded(before: Store, after: Store) {
    && after.table == before.table
    && Distinct(after.free) && (forall s :: s in after.free <==> s in before.free)
    && |after.cpu| == |before.cpu|
    && (forall s :: 0 <= s < |before.cpu| && s !in before.free ==> after.cpu[s] == before.cpu[s])
  }

  ghost predicate CanOffload(before: Store, gpu: seq<Page>, chosen: seq<BlockRef>) {
    && Distinct(chosen) && |chosen| <= |before.free|
    && SlotsWithin(before.free, |before.cpu|)
    && (forall i :: 0 <= i < |chosen| ==>
          && Resides(before.table, chosen[i], GPU)
          && before.table.blocks[chosen[i]].gpu.Some?
          && before.table.blocks[chosen[i]].gpu.value < |gpu|)
  }

  /** All chosen blocks move to the slots popped for them, with their page contents packed there. */
  function Offloaded(d: Dims, gpu: seq<Page>, before: Store, chosen: seq<BlockRef>): (after: Store)
    requires CanOffload(before, gpu, chosen)
  {
    var n := |chosen|;
    var slots := Popped(before.free, n);
    assert forall i :: 0 <= i < n ==> slots[i] in before.free;
    Store(PutN(before.table, chosen, CpuLocations(before.table, chosen, slots), n),
          before.free[..|before.free| - n],
          Scatter(before.cpu, slots, PackEach(d, gpu, PagesOf(before.table, chosen)), n))
  }

  lemma PagesMeasurable(d: Dims, gpu: seq<seq<Plane>>, width: nat, gids: seq<nat>)
    requires |gpu| == d.layers > 0 && 0 < d.heads && 0 < d.tokens
    requires forall l :: 0 <= l < |gpu| ==> |gpu[l]| == width && PlanesShaped(gpu[l], d)
    requires forall i :: 0 <= i < |gids| ==> gids[i] < width
    ensures forall i :: 0 <= i < |gids| ==> Measurable(d, Columns(gpu, width)[gids[i]])
  {
    hide PageShape, PlanesShaped;
    forall i | 0 <= i < |gids| ensures Measurable(d, Columns(gpu, width)[gids[i]]) {
      ColumnsShaped(d, gpu, width, gids[i]);
    }
  }

  lemma MeasuresShape(m: Measure, d: Dims, gpu: seq<seq<Plane>>, gids: seq<nat>, lo: nat, hi: nat, t: NormTensor)
    requires lo <= hi && Measures(m, d, gpu, gids, lo, hi, t)
    ensures NormShape(t, d.layers, |gids|, d.heads)
  {
  }

  /** The rows are the layer means of the first pages of the batch. */
  ghost predicate RowsAre(m: Measure, d: Dims, gpu: seq<Page>, gids: seq<nat>, k: seq<seq<real>>, v: seq<seq<real>>) {
    && |k| == |v| <= |gids|
    && (forall i :: 0 <= i < |k| ==>
          && gids[i] < |gpu| && Measurable(d, gpu[gids[i]])
          && k[i] == LayerMeans(m, d, gpu[gids[i]], 0, d.channels)
          && v[i] == LayerMeans(m, d, gpu[gids[i]], d.channels, 2 * d.channels))
  }

  lemma NoRows(m: Measure, d: Dims, gpu: seq<Page>, gids: seq<nat>)
    ensures RowsAre(m, d, gpu, gids, [], [])
  {
  }

  lemma RowsOneMore(m: Measure, d: Dims, gpu: seq<Page>, gids: seq<nat>, k: seq<seq<real>>, v: seq<seq<real>>)
    requires RowsAre(m, d, gpu, gids, k, v) && |k| < |gids| && gids[|k|] < |gpu| && Measurable(d, gpu[gids[|k|]])
    ensures RowsAre(m, d, gpu, gids, k + [LayerMeans(m, d, gpu[gids[|k|]], 0, d.channels)],
                    v + [LayerMeans(m, d, gpu[gids[|k|]], d.channels, 2 * d.channels)])
  {
    hide LayerMeans, Measurable;
  }

  lemma RowsScore(m: Measure, d: Dims, gpu: seq<Page>, gids: seq<nat>, k: seq<seq<real>>, v: seq<seq<real>>)
    requires RowsAre(m, d, gpu, gids, k, v) && |k| == |gids|
    ensures StatsOk(v, k)
    ensures Kept(m, d, gpu, gids, BlockScores(m.eps, m.reduction, v, k))
  {
    hide LayerMeans, AllNonNegative, PageShape;
    forall i | 0 <= i < |v| ensures |v[i]| == |k[i]| && v[i] != [] && AllNonNegative(k[i]) {
      LayerMeansNonNegative(m, d, gpu[gids[i]], 0, d.channels);
      LayerMeansLength(m, d, gpu[gids[i]], 0, d.channels);
      LayerMeansLength(m, d, gpu[gids[i]], d.channels, 2 * d.channels);
    }
  }

  lemma LayerMeansLength(m: Measure, d: Dims, page: Page, lo: nat, hi: nat)
    requires Measurable(d, page) && lo <= hi
    ensures |LayerMeans(m, d, page, lo, hi)| == d.heads
  {
  }

  /** Each block's K and V norms, averaged over the layers. */
  method MeanRows(ghost m: Measure, d: Dims, ghost gpu: seq<seq<Plane>>, ghost width: nat, gids: seq<nat>,
                  k: NormTensor, v: NormTensor)
    returns (kRows: seq<seq<real>>, vRows: seq<seq<real>>)
    requires d.layers == |gpu| > 0 && 0 < d.heads && 0 < d.tokens && (forall i :: 0 <= i < |gids| ==> gids[i] < width)
    requires forall l :: 0 <= l < |gpu| ==> |gpu[l]| == width && PlanesShaped(gpu[l], d)
    requires Measures(m, d, gpu, gids, 0, d.channels, k) && Measures(m, d, gpu, gids, d.channels, 2 * d.channels, v)
    ensures |kRows| == |vRows| == |gids| && RowsAre(m, d, Columns(gpu, width), gids, kRows, vRows)
  {
    hide PlanesShaped, Measures, LayerMeans, MeanRow, Measurable, RowsAre, Columns, NormShape;
    kRows, vRows := [], [];
    NoRows(m, d, Columns(gpu, width), gids);
    PagesMeasurable(d, gpu, width, gids);
    MeasuresShape(m, d, gpu, gids, 0, d.channels, k);
    MeasuresShape(m, d, gpu, gids, d.channels, 2 * d.channels, v);
    for b := 0 to |gids|
      invariant |kRows| == |vRows| == b && RowsAre(m, d, Columns(gpu, width), gids, kRows, vRows)
    {
      MeanRowIsLayerMeans(m, d, gpu, width, gids, 0, d.channels, k, b);
      MeanRowIsLayerMeans(m, d, gpu, width, gids, d.channels, 2 * d.channels, v, b);
      RowsOneMore(m, d, Columns(gpu, width), gids, kRows, vRows);
      kRows := kRows + [MeanRow(k, d.layers, |gids|, d.heads, b)];
      vRows := vRows + [MeanRow(v, d.layers, |gids|, d.heads, b)];
    }
  }

  /** The blocks of a batch that get a score: warm-up requests are left out. */
  method WithoutWarmup(ghost scores: map<BlockRef, real>, ghost decay: real, ghost m: Measure, ghost d: Dims,
                       ghost gpu: seq<Page>, refs: seq<BlockRef>, gids: seq<nat>)
    returns (kept: seq<BlockRef>, ids: seq<nat>, ghost obs: seq<real>)
    requires |refs| == |gids| && forall i :: 0 <= i < |gids| ==> gids[i] < |gpu| && Measurable(d, gpu[gids[i]])
    ensures |kept| == |ids| == |obs| && Kept(m, d, gpu, ids, obs) && (forall i :: 0 <= i < |ids| ==> ids[i] < |gpu|)
    ensures ObservedN(scores, decay, kept, obs, |kept|) == ScoredOneByOne(scores, decay, m, d, gpu, refs, gids, |refs|)
  {
    hide PageScore, Measurable, ScoredOneByOne, ObservedN, Kept, IsWarmup, Observed;
    kept, ids, obs := [], [], [];
    NoneKept(m, d, gpu);
    NothingScored(scores, decay, m, d, gpu, refs, gids);
    for i := 0 to |refs|
      invariant |kept| == |ids| == |obs| && Kept(m, d, gpu, ids, obs)
      invariant ObservedN(scores, decay, kept, obs, |kept|) == ScoredOneByOne(scores, decay, m, d, gpu, refs, gids, i)
    {
      ScoredOneMore(scores, decay, m, d, gpu, refs, gids, i);
      if !IsWarmup(refs[i].req) {
        ghost var score := PageScore(m, d, gpu[gids[i]]);
        ObservedSnoc(scores, decay, kept, obs, refs[i], score);
        KeptOneMore(m, d, gpu, ids, obs, gids[i]);
        kept, ids, obs := kept + [refs[i]], ids + [gids[i]], obs + [score];
      }
    }
    KeptPages(m, d, gpu, ids, obs);
  }

  class KVOffloadManager {
    const residency: ResidencyTable
    const scorer: PagedEvictionScorer
    const memory: KVMemory
    const pool: CPUBlockPool
    const root: Root                 // the square root of the norms

    ghost predicate Valid()
      reads this, residency, memory, pool
    {
      && residency.Valid()
      && memory.Valid()
      && SlotsWithin(pool.free, memory.numSlots)
      && PagesWithin(residency.View(), memory.numPages)
    }

    ghost function View(): (s: Store)
      requires memory.Valid()
      reads this, residency, memory, pool
    {
      Store(residency.View(), pool.free, memory.CpuSlots())
    }

    constructor (residency: ResidencyTable, scorer: PagedEvictionScorer, memory: KVMemory, pool: CPUBlockPool,
                 root: Root)
      ensures this.residency == residency && this.scorer == scorer && this.memory == memory && this.pool == pool
      ensures this.root == root
    {
      this.residency, this.scorer, this.memory, this.pool, this.root := residency, scorer, memory, pool, root;
    }

    /** How this manager and its scorer measure a page. */
    function Meter(): (m: Measure) {
      Measure(root, scorer.eps, scorer.reduction)
    }

    /** Copies a batch of pages into freshly popped slots. Fails, leaving the pool untouched, when it
        is too small; a copy failure hands the slots back. */
    method CopyGpuToCpuBatch(gids: seq<nat>, reach: nat) returns (res: Result<seq<nat>>)
      requires memory.Valid() && SlotsWithin(pool.free, memory.numSlots)
      requires forall i :: 0 <= i < |gids| ==> gids[i] < memory.numPages
      modifies pool, memory`cpu
      ensures memory.Valid()
      ensures res.Ok? <==> 0 < |gids| <= |old(pool.free)| && memory.d.layers <= reach
      ensures res.Ok? ==>
          && res.value == Popped(old(pool.free), |gids|)
          && pool.free == old(pool.free)[..|old(pool.free)| - |gids|]
          && (forall i :: 0 <= i < |gids| ==> res.value[i] < memory.numSlots)
          && memory.CpuSlots() ==
               Scatter(old(memory.CpuSlots()), res.value, PackEach(memory.d, memory.GpuPages(), gids), |gids|)
      ensures res.Err? ==>
          && (pool.free == old(pool.free) ||
              (|gids| <= |old(pool.free)| && pool.free == GivenBack(old(pool.free), |gids|)))
          && (forall s :: 0 <= s < memory.numSlots && s !in old(pool.free)
                ==> memory.CpuSlots()[s] == old(memory.CpuSlots())[s])
    {
      var n := |gids|;
      if n == 0 {
        return Err(ValueError);
      }
      if n > |pool.free| {
        return Err(RuntimeError);
      }
      ghost var free0 := pool.free;
      var slots := TakeSlots(n);
      var ok := memory.StoreBatch(gids, slots, reach);
      if ok {
        return Ok(slots);
      }
      GiveBack(slots);
      return Err(CopyError);
    }

    method TakeSlots(n: nat) returns (slots: seq<nat>)
      requires n <= |pool.free|
      modifies pool
      ensures slots == Popped(old(pool.free), n) && pool.free == old(pool.free)[..|old(pool.free)| - n]
      ensures forall i :: 0 <= i < n ==> slots[i] in old(pool.free)
    {
      ghost var free0 := pool.free;
      slots := [];
      while |slots| < n
        invariant |slots| <= n
        invariant slots == Popped(free0, |slots|)
        invariant pool.free == free0[..|free0| - |slots|]
      {
        var s := pool.Allocate();
        slots := slots + [s.value];
      }
    }

    method GiveBack(slots: seq<nat>)
      modifies pool
      ensures pool.free == old(pool.free) + slots
    {
      var i := 0;
      while i < |slots|
        invariant 0 <= i <= |slots| && pool.free == old(pool.free) + slots[..i]
      {
        pool.Free(slots[i]);
        i := i + 1;
      }
      assert slots[..i] == slots;
    }

    /** score_block: the norms of one page in every layer, their mean, one scorer update. */
    method ScoreBlock(r: BlockRef, gid: nat)
      requires memory.Valid() && gid < memory.numPages
      modifies scorer
      ensures Measurable(memory.d, memory.GpuPages()[gid])
      ensures scorer.scores ==
        if IsWarmup(r.req) then old(scorer.scores)
        else Observed(old(scorer.scores), scorer.decay, r, PageScore(Meter(), memory.d, memory.GpuPages()[gid]))
    {
      hide PageScore, PageShape, PlanesShaped, SlotsShaped;
      PagesMeasurable(memory.d, memory.gpu, memory.numPages, [gid]);
      assert [gid][0] == gid;
      if IsWarmup(r.req) { return; }
      ghost var before := scorer.scores;
      var obs := ScoreBatch([r], [gid], None);
      assert ObservedN(before, scorer.decay, [r], obs, 1) == Observed(ObservedN(before, scorer.decay, [r], obs, 0),
                                                                      scorer.decay, r, obs[0]);
    }

    /** Norms of the whole batch, in the fused or the per-layer form; mean over layers; one score per
        block; one scorer update. */
    method ScoreBatch(refs: seq<BlockRef>, gids: seq<nat>, fused: Option<Flats>) returns (ghost obs: seq<real>)
      requires memory.Valid() && |refs| == |gids| > 0
      requires forall i :: 0 <= i < |gids| ==> gids[i] < memory.numPages
      requires fused.Some? ==> FlatsOk(fused.value, memory.d, memory.gpu)
      modifies scorer
      ensures Kept(Meter(), memory.d, memory.GpuPages(), gids, obs)
      ensures scorer.scores == ObservedN(old(scorer.scores), scorer.decay, refs, obs, |refs|)
    {
      hide PlanesShaped, SlotsShaped, FlatsOk, Measures, PageShape, StatsOk, BlockScores, RowsAre, Kept, ObservedN,
           Columns;
      var d, n := memory.d, |gids|;
      var k: NormTensor, v: NormTensor;
      if fused.Some? {
        k, v := FusedNorms(Meter(), d, memory.gpu, memory.numPages, gids, fused.value);
      } else {
        k, v := PerLayerNorms(Meter(), d, memory.gpu, memory.numPages, gids);
      }
      var kRows, vRows := MeanRows(Meter(), d, memory.gpu, memory.numPages, gids, k, v);
      RowsScore(Meter(), d, memory.GpuPages(), gids, kRows, vRows);
      obs := BlockScores(scorer.eps, scorer.reduction, vRows, kRows);
      scorer.UpdateStats(refs, vRows, kRows);
    }

    /** score_blocks: the whole batch at once, warm-up requests left out. The outcome is that of scoring
        the blocks one at a time, in order, whichever form computes the norms. */
    method ScoreBlocks(refs: seq<BlockRef>, gids: seq<nat>, fused: Option<Flats> := None)
      requires memory.Valid() && |refs| == |gids|
      requires forall i :: 0 <= i < |gids| ==> gids[i] < memory.numPages
      requires fused.Some? ==> FlatsOk(fused.value, memory.d, memory.gpu)
      modifies scorer
      ensures forall i :: 0 <= i < |gids| ==> Measurable(memory.d, memory.GpuPages()[gids[i]])
      ensures scorer.scores ==
        ScoredOneByOne(old(scorer.scores), scorer.decay, Meter(), memory.d, memory.GpuPages(), refs, gids, |refs|)
    {
      hide PlanesShaped, SlotsShaped, FlatsOk, PageShape, PageScore, Measurable, ScoredOneByOne, ObservedN, Kept;
      ghost var before, pages := scorer.scores, memory.GpuPages();
      PagesMeasurable(memory.d, memory.gpu, memory.numPages, gids);
      var kept, ids, obs := WithoutWarmup(before, scorer.decay, Meter(), memory.d, pages, refs, gids);
      if |kept| != 0 {
        ghost var obs2 := ScoreBatch(kept, ids, fused);
        KeptSame(Meter(), memory.d, pages, ids, obs, obs2);
      } else {
        NothingObserved(before, scorer.decay, kept, obs);
      }
    }

    /** Drops a block: its table entry, its CPU slot, its score. */
    method Free(r: BlockRef)
      requires residency.Valid()
      modifies residency, pool, scorer
      ensures residency.Valid() && residency.View() == Removed(old(residency.View()), r)
      ensures pool.free == old(pool.free) + SlotList(old(residency.blocks), r)
      ensures scorer.scores == old(scorer.scores) - {r}
    {
      hide Agree;
      var was := residency.Remove(r);
      if was.Some? && was.value.cpuSlot.Some? {
        pool.Free(was.value.cpuSlot.value);
      }
      scorer.Forget([r]);
      assert ToSet([r]) == {r};
    }

    /** mark_cpu over a batch. */
    method PublishCpu(refs: seq<BlockRef>, slots: seq<nat>)
      requires residency.Valid() && |refs| == |slots| && Distinct(refs)
      requires AllTracked(residency.View(), refs)
      modifies residency
      ensures residency.Valid()
      ensures residency.View() ==
        PutN(old(residency.View()), refs, CpuLocations(old(residency.View()), refs, slots), |refs|)
    {
      hide Agree;
      ghost var t := residency.View();
      ghost var locs := CpuLocations(t, refs, slots);
      var i := 0;
      while i < |refs|
        invariant 0 <= i <= |refs| && residency.Valid()
        invariant residency.View() == PutN(t, refs, locs, i)
      {
        DistinctLast(refs, i + 1);
        PutNKeeps(t, refs, locs, i, refs[i]);
        var ok := residency.MarkCpu(refs[i], slots[i]);
        i := i + 1;
      }
    }

    /** The pages of the blocks that still have live GPU residency. */
    method LivePages(chosen: seq<BlockRef>) returns (refs: seq<BlockRef>, gids: seq<nat>)
      requires forall i :: 0 <= i < |chosen| ==>
        && chosen[i] in residency.View().blocks
        && residency.View().blocks[chosen[i]].gpu.Some?
        && residency.View().blocks[chosen[i]].residency == GPU
      ensures refs == chosen && gids == PagesOf(residency.View(), chosen)
    {
      refs, gids := [], [];
      var i := 0;
      while i < |chosen|
        invariant 0 <= i <= |chosen| && refs == chosen[..i] && |gids| == i
        invariant forall k :: 0 <= k < i ==> gids[k] == PagesOf(residency.View(), chosen)[k]
      {
        var r := chosen[i];
        if r in residency.blocks && residency.blocks[r].gpu.Some? && residency.blocks[r].residency == GPU {
          refs := refs + [r];
          gids := gids + [residency.blocks[r].gpu.value];
        }
        i := i + 1;
      }
    }

    /** Copies and publishes a chosen batch; any exception in here is swallowed. */
    method OffloadChosen(chosen: seq<BlockRef>, reach: nat) returns (out: seq<BlockRef>)
      requires Valid() && Distinct(chosen)
      requires forall i :: 0 <= i < |chosen| ==> Resides(residency.View(), chosen[i], GPU)
      modifies residency, pool, memory`cpu
      ensures residency.Valid() && memory.Valid()
      ensures out == if 0 < |chosen| <= |old(pool.free)| && memory.d.layers <= reach then chosen else []
      ensures out == [] ==> NothingOffloaded(old(View()), View())
      ensures out != [] ==>
        && CanOffload(old(View()), memory.GpuPages(), chosen)
        && View() == Offloaded(memory.d, memory.GpuPages(), old(View()), chosen)
    {
      hide Agree, Distinct, TensorsShaped, Columns;
      out := [];
      var refs, gids := LivePages(chosen);
      if |refs| > 0 {
        ghost var free0 := pool.free;
        var slots := CopyGpuToCpuBatch(gids, reach);
        if slots.Ok? {
          PublishCpu(refs, slots.value);
          out := refs;
        } else {
          if |gids| <= |free0| { GivenBackSameSlots(free0, |gids|); }
        }
      }
    }

    /** Offloads the coldest fraction of the eligible candidates: all of the chosen ones, or none. */
    method OffloadFraction(candidates: seq<BlockRef>, fraction: real, scored: set<BlockRef>, reach: nat)
      returns (res: Result<seq<BlockRef>>)
      requires Valid() && Distinct(candidates)
      modifies residency, pool, memory`cpu
      ensures residency.Valid() && memory.Valid()
      ensures res == FractionChoice(old(residency.blocks), scorer.scores, candidates, fraction, scored)
           || (res == Ok([]) &&
               var choice := FractionChoice(old(residency.blocks), scorer.scores, candidates, fraction, scored);
               choice.Ok? && (|choice.value| > |old(pool.free)| || reach < memory.d.layers))
      ensures res.Err? || res.value == [] ==> NothingOffloaded(old(View()), View())
      ensures res.Ok? && res.value != [] ==>
        && |res.value| <= |old(pool.free)| && memory.d.layers <= reach
        && CanOffload(old(View()), memory.GpuPages(), res.value)
        && View() == Offloaded(memory.d, memory.GpuPages(), old(View()), res.value)
    {
      hide Agree, FractionChoice, CanOffload, Offloaded, NothingOffloaded, PagesWithin, TensorsShaped, Columns;
      var pick := Choose(candidates, fraction, scored);
      if pick.Err? {
        NothingChanged(View());
        return pick;
      }
      FractionChoiceIsEligible(residency.blocks, scorer.scores, candidates, fraction, scored);
      var out := OffloadChosen(pick.value, reach);
      res := Ok(out);
    }

    /** What is to go: the coldest fraction, at least one, of the eligible candidates. */
    method Choose(candidates: seq<BlockRef>, fraction: real, scored: set<BlockRef>)
      returns (pick: Result<seq<BlockRef>>)
      ensures pick == FractionChoice(residency.blocks, scorer.scores, candidates, fraction, scored)
      ensures pick.Ok? ==> 0.0 <= fraction < 1.0
    {
      if !(0.0 <= fraction < 1.0) {
        return Err(ValueError);
      }
      var eligible := Filter(Eligible(residency.blocks, scored), candidates);
      if |eligible| == 0 {
        return Ok([]);
      }
      var n := OffloadCount(|eligible|, fraction);
      OffloadCountInRange(|eligible|, fraction);
      pick := scorer.SelectForEviction(eligible, |eligible| - n);
    }
  }

  lemma NothingChanged(s: Store)
    requires Distinct(s.free)
    ensures NothingOffloaded(s, s)
  {
  }

  /** What a pass over the candidates picks, before any copy. */
  function FractionChoice(
      blocks: map<BlockRef, Location>, scores: map<BlockRef, real>,
      candidates: seq<BlockRef>, fraction: real, scored: set<BlockRef>) : (res: Result<seq<BlockRef>>)
  {
    if !(0.0 <= fraction < 1.0) then Err(ValueError)
    else
      var eligible := Filter(Eligible(blocks, scored), candidates);
      if |eligible| == 0 then Ok([])
      else
        OffloadCountInRange(|eligible|, fraction);
        if exists r :: r in eligible && r !in scores then Err(AssertionError)
        else Ok(Coldest(scores, eligible, |eligible| - OffloadCount(|eligible|, fraction)))
  }

  /** The pick: of m eligible blocks the n nearest to m * fraction, at least one, and each goes before every
      eligible block left behind. */
  lemma FractionChoiceIsColdest(
      blocks: map<BlockRef, Location>, scores: map<BlockRef, real>,
      candidates: seq<BlockRef>, fraction: real, scored: set<BlockRef>)
    requires 0.0 <= fraction < 1.0 && Distinct(candidates)
    ensures var eligible := Filter(Eligible(blocks, scored), candidates);
      var choice := FractionChoice(blocks, scores, candidates, fraction, scored);
      && (forall r :: r in eligible <==>
            r in candidates && r in scored && r in blocks && blocks[r].residency == GPU && blocks[r].complete)
      && (choice.Err? <==> exists r :: r in eligible && r !in scores)
      && (choice.Ok? ==> AreColdest(KeyOf(scores), eligible, choice.value))
      && (choice.Ok? ==> GoFirst(scores, eligible, choice.value))
      && (choice.Ok? && eligible != [] ==>
            |choice.value| == OffloadCount(|eligible|, fraction) && 1 <= |choice.value| <= |eligible|)
      && (choice.Ok? && eligible != [] ==> IsShare(|choice.value|, |eligible|, fraction))
      && (choice.Ok? && eligible == [] ==> choice.value == [])
  {
    hide AreColdest, Coldest, OffloadCount, KeyOf, GoFirst, IsShare;
    var eligible := Filter(Eligible(blocks, scored), candidates);
    FilterElements(Eligible(blocks, scored), candidates);
    if eligible == [] {
      NothingIsColdest(KeyOf(scores), eligible);
      AreColdestGoFirst(scores, eligible, []);
    } else {
      OffloadCountInRange(|eligible|, fraction);
      ColdestIsOptimal(scores, eligible, |eligible| - OffloadCount(|eligible|, fraction));
    }
  }

  /** Every picked block is a scored, complete, GPU-resident candidate, and none is picked twice. */
  lemma FractionChoiceIsEligible(
      blocks: map<BlockRef, Location>, scores: map<BlockRef, real>,
      candidates: seq<BlockRef>, fraction: real, scored: set<BlockRef>)
    requires 0.0 <= fraction < 1.0 && Distinct(candidates)
    requires FractionChoice(blocks, scores, candidates, fraction, scored).Ok?
    ensures var chosen := FractionChoice(blocks, scores, candidates, fraction, scored).value;
      && Distinct(chosen)
      && forall i :: 0 <= i < |chosen| ==>
           && chosen[i] in candidates && chosen[i] in scored
           && chosen[i] in blocks && blocks[chosen[i]].residency == GPU && blocks[chosen[i]].complete
  {
    hide FractionChoice, InEvictionOrder, Colder, Distinct;
    FractionChoiceIsColdest(blocks, scores, candidates, fraction, scored);
    FilterElements(Eligible(blocks, scored), candidates);
    var chosen := FractionChoice(blocks, scores, candidates, fraction, scored).value;
    forall i | 0 <= i < |chosen|
      ensures chosen[i] in candidates && Eligible(blocks, scored)(chosen[i])
    {
      assert chosen[i] in chosen;
    }
  }
}
