/** Steps that can be taken: from states that meet their guards, a next state exists. */
module EngineEnabled {
  import opened Blocks
  import opened Ranking
  import opened Residencies
  import opened Layout
  import opened Scores
  import opened Scoring
  import opened Offloading
  import opened Engine
  import opened EngineTables
  import opened EngineSync
  import opened EngineFinish

  // ------------------------------------------------------------------ scores

  ghost function ScoreByPage(cfg: Config, t: Table, gpu: seq<Page>, was: map<BlockRef, real>, r: BlockRef): (x: real)
    requires r in t.blocks && t.blocks[r].gpu.Some? && t.blocks[r].gpu.value < |gpu|
    ensures ScoredByPage(cfg, t, gpu, was, r, x)
  {
    var page := gpu[t.blocks[r].gpu.value];
    if Measurable(cfg.d, page) then Observed(was, cfg.decay, r, PageScore(cfg.meter, cfg.d, page))[r] else 0.0
  }

  /** Blocks with a page can be scored by it. */
  lemma RescoredExists(cfg: Config, t: Table, gpu: seq<Page>, was: map<BlockRef, real>, refs: set<BlockRef>)
    returns (scores: map<BlockRef, real>)
    requires forall r :: r in refs ==> r in t.blocks && t.blocks[r].gpu.Some? && t.blocks[r].gpu.value < |gpu|
    ensures Rescored(cfg, t, gpu, was, refs, scores) && scores.Keys == was.Keys + refs
  {
    hide ScoredByPage, ScoreByPage;
    scores := was + map r | r in refs :: ScoreByPage(cfg, t, gpu, was, r);
    assert scores.Keys == was.Keys + refs;
  }

  // ------------------------------------------------------------------ sync

  /** Blocks tracked for the first time start with what their page holds. */
  ghost function BoundLogical(logical: map<BlockRef, Page>, gpu: seq<Page>, q: string, ids: seq<nat>)
    : (m: map<BlockRef, Page>)
  {
    var unknown := ToSet(RefsOf(q, |ids|)) - logical.Keys;
    logical + (map r | r in unknown && r.idx < |ids| && ids[r.idx] < |gpu| :: gpu[ids[r.idx]])
  }

  lemma BoundLogicalFacts(logical: map<BlockRef, Page>, gpu: seq<Page>, q: string, ids: seq<nat>)
    requires forall i :: 0 <= i < |ids| ==> ids[i] < |gpu|
    ensures var m := BoundLogical(logical, gpu, q, ids);
      && m.Keys == logical.Keys + ToSet(RefsOf(q, |ids|))
      && (forall r :: r in logical ==> m[r] == logical[r])
      && (forall i :: 0 <= i < |ids| && BlockRef(q, i) !in logical ==>
            BlockRef(q, i) in m && m[BlockRef(q, i)] == gpu[ids[i]])
  {
    forall i | 0 <= i < |ids| ensures BlockRef(q, i) in ToSet(RefsOf(q, |ids|)) {
      assert RefsOf(q, |ids|)[i] == BlockRef(q, i);
    }
    forall r | r in ToSet(RefsOf(q, |ids|)) ensures r.idx < |ids| {
    }
  }

  /** A sync is possible whenever token counts do not shrink and pages being filled are not shared. */
  lemma SyncExists(cfg: Config, s: State, q: string, computed: nat) returns (s': State)
    requires Tracked(s) && Placed(cfg, s) && Sized(cfg, s) && ConfigOk(cfg)
    requires q in s.tables && !IsWarmup(q) && (q in s.computed ==> s.computed[q] <= computed)
    ensures Sync(cfg, s, q, computed, s') && s'.core.table == SyncedTable(cfg, s.core.table, q, s.tables[q], computed)
    ensures s'.tables == s.tables && s'.refCnt == s.refCnt && s'.acc == s.acc && s'.pending == s.pending
    ensures s'.nextEvent == s.nextEvent
    ensures s'.core.cpuFree == s.core.cpuFree && s'.computed == s.computed[q := computed]
  {
    hide SyncedTable, NewlyScored, NewPages, Full, BoundLogical, Rescored;
    SyncSeesTheTable(s, q);
    var ids, c := s.tables[q], s.core;
    EntriesAreGpuPages(cfg, s, q);
    BoundLogicalFacts(s.logical, c.gpu, q, ids);
    var t' := SyncedTable(cfg, c.table, q, ids, computed);
    var newly := NewlyScored(t'.blocks, c.scored, q, |ids|);
    NewlyHavePages(cfg, c.table, c.scored, q, ids, computed, |c.gpu|);
    var scores := RescoredExists(cfg, t', c.gpu, c.scores, newly);
    s' := s.(core := c.(table := t', scores := scores, scored := c.scored + newly,
                        reqBlocks := c.reqBlocks[q := RefsOf(q, |ids|)]),
             logical := BoundLogical(s.logical, c.gpu, q, ids), mirror := s.mirror[q := ids],
             computed := s.computed[q := computed]);
  }

  /** What a sync scores is on the page the list gives it. */
  lemma NewlyHavePages(cfg: Config, t: Table, scored: set<BlockRef>, q: string, ids: seq<nat>, computed: nat,
                       numPages: nat)
    requires forall i :: 0 <= i < |ids| ==> ids[i] < numPages
    ensures var t' := SyncedTable(cfg, t, q, ids, computed);
      forall r :: r in NewlyScored(t'.blocks, scored, q, |ids|) ==>
        r in t'.blocks && t'.blocks[r].gpu.Some? && t'.blocks[r].gpu.value < numPages
  {
    var t' := SyncedTable(cfg, t, q, ids, computed);
    forall r | r in NewlyScored(t'.blocks, scored, q, |ids|)
      ensures t'.blocks[r].gpu.Some? && t'.blocks[r].gpu.value < numPages
    {
      SyncedAt(cfg, t, q, ids, computed, r);
      hide SyncedTable, Full;
    }
  }

  lemma EntriesAreGpuPages(cfg: Config, s: State, q: string)
    requires Placed(cfg, s) && Sized(cfg, s) && ConfigOk(cfg) && q in s.tables
    ensures forall i :: 0 <= i < |s.tables[q]| ==> s.tables[q][i] < |s.core.gpu|
  {
    forall i | 0 <= i < |s.tables[q]| ensures s.tables[q][i] < |s.core.gpu| {
      assert HasEntry(s.tables, BlockRef(q, i)) && EntryOf(s.tables, BlockRef(q, i)) == s.tables[q][i];
    }
  }

  /** With this many tokens every position is full. */
  function EnoughTokens(cfg: Config, n: nat, atLeast: nat): (computed: nat)
    ensures computed >= atLeast
  {
    if n * cfg.pageSize >= atLeast then n * cfg.pageSize else atLeast
  }

  // ------------------------------------------------------------------ finish

  /** Reference counts after a request's entries are gone. */
  ghost function DroppedCounts(cfg: Config, s: State, q: string): (r: seq<nat>)
    requires Counted(cfg, s)
    ensures |r| == |s.refCnt|
    ensures forall p :: 0 <= p < |s.refCnt| ==>
      r[p] == if p == cfg.nullPage then s.refCnt[p] else s.refCnt[p] - |set k | k in Holders(s.tables, p) && k.req == q|
  {
    assert forall p :: 0 <= p < |s.refCnt| && p != cfg.nullPage ==>
        |set k | k in Holders(s.tables, p) && k.req == q| <= s.refCnt[p] by {
      forall p | 0 <= p < |s.refCnt| && p != cfg.nullPage
        ensures |set k | k in Holders(s.tables, p) && k.req == q| <= s.refCnt[p]
      {
        HoldersWithout(s.tables, q, p);
      }
    }
    seq(|s.refCnt|, p requires 0 <= p < |s.refCnt| =>
      if p == cfg.nullPage then s.refCnt[p] else s.refCnt[p] - |set k | k in Holders(s.tables, p) && k.req == q|)
  }

  lemma FinishExists(cfg: Config, s: State, q: string) returns (s': State)
    requires Counted(cfg, s) && q in s.tables
    ensures Finish(cfg, s, q, s')
  {
    hide Counted, Holders, CleanedCore;
    var counts := DroppedCounts(cfg, s, q);
    s' := s.(core := CleanedCore(s.core, q), tables := s.tables - {q}, mirror := s.mirror - {q},
             computed := s.computed - {q}, refCnt := counts,
             logical := s.logical - (set r | r in s.logical && r.req == q));
    DroppedCountsFacts(cfg, s, q);
  }

  lemma DroppedCountsFacts(cfg: Config, s: State, q: string)
    requires Counted(cfg, s)
    ensures var r := DroppedCounts(cfg, s, q);
      && |r| == |s.refCnt|
      && (forall p :: 0 <= p < |s.refCnt| ==>
            r[p] == if p == cfg.nullPage then s.refCnt[p]
              else s.refCnt[p] - |set k | k in Holders(s.tables, p) && k.req == q|)
  {
  }

  // ------------------------------------------------------------------ offload

  lemma LoneList(order: seq<BlockRef>, r: BlockRef)
    requires Distinct(order) && forall k :: k in order <==> k == r
    ensures order == [r]
  {
    assert ToSet(order) == {r};
    DistinctCardinality(order);
    assert order[0] in order;
  }

  /** Block r is the only complete one on the GPU. */
  ghost predicate OnlyLeaver(t: Table, r: BlockRef) {
    forall k :: Resides(t, k, GPU) && t.blocks[k].complete <==> k == r
  }

  lemma TableOrder(t: Table)
    requires TableOk(t)
    ensures Distinct(t.order) && forall r :: r in t.order <==> r in t.blocks
  {
    forall r ensures r in t.order <==> r in t.blocks {
      assert r in ToSet(t.order) <==> r in t.blocks.Keys;
    }
  }

  lemma LoneCandidate(cfg: Config, s: State, r: BlockRef)
    requires TableOk(s.core.table) && OnlyLeaver(s.core.table, r)
    requires cfg.trueFree ==> SoleOwned(s.core.table.blocks, s.refCnt)(r)
    ensures Candidates(cfg, s) == [r]
  {
    hide TableOk, Filter, Distinct;
    var blocks, order := s.core.table.blocks, s.core.table.order;
    var all := GpuBlocks(s.core.table, true);
    TableOrder(s.core.table);
    FilterElements(IsGpu(blocks, true), order);
    forall k ensures k in all <==> k == r {
      assert k in all <==> Resides(s.core.table, k, GPU) && blocks[k].complete;
    }
    LoneList(all, r);
    if cfg.trueFree {
      FilterElements(SoleOwned(blocks, s.refCnt), [r]);
      LoneIsDistinct(r);
      LoneList(Filter(SoleOwned(blocks, s.refCnt), [r]), r);
    }
  }

  lemma LoneIsDistinct(r: BlockRef)
    ensures Distinct([r])
  {
  }

  lemma HalfOfOne()
    ensures OffloadCount(1, 0.5) == 1
  {
  }

  lemma LoneChoice(blocks: map<BlockRef, Location>, scores: map<BlockRef, real>, scored: set<BlockRef>, r: BlockRef)
    requires r in blocks && blocks[r].residency == GPU && blocks[r].complete && r in scored && r in scores
    ensures FractionChoice(blocks, scores, [r], 0.5, scored) == Ok([r])
  {
    hide AreColdest, FractionChoice, OffloadCount, Filter, KeyOf;
    FilterAll(Eligible(blocks, scored), [r]);
    HalfOfOne();
    FractionChoiceIsColdest(blocks, scores, [r], 0.5, scored);
    var choice := FractionChoice(blocks, scores, [r], 0.5, scored);
    ColdestAreThere(KeyOf(scores), [r], choice.value);
    assert choice.value == [choice.value[0]];
  }

  lemma ColdestAreThere(key: BlockRef -> Score, xs: seq<BlockRef>, out: seq<BlockRef>)
    requires AreColdest(key, xs, out)
    ensures forall i :: 0 <= i < |out| ==> out[i] in xs
  {
    forall i | 0 <= i < |out| ensures out[i] in xs {
      assert out[i] in out;
    }
  }

  /** The only complete block on the GPU, with true freeing also the sole owner of its page, can be offloaded. */
  lemma TriggerExists(cfg: Config, s: State, r: BlockRef) returns (s': State)
    requires ConfigOk(cfg) && Inv(cfg, s) && OnlyLeaver(s.core.table, r) && s.core.cpuFree != []
    requires cfg.trueFree ==> SoleOwned(s.core.table.blocks, s.refCnt)(r)
    ensures Resides(s.core.table, r, GPU) && s.core.table.blocks[r].gpu.Some?
    ensures Trigger(cfg, s, 0.5, true, s')
    ensures s' == s.(core := s'.core, acc := s.acc + [Entry(r, s.core.table.blocks[r].gpu.value)])
    ensures s'.core.reqBlocks == s.core.reqBlocks && s'.core.gpu == s.core.gpu
    ensures CanOffload(StoreOf(s.core), s.core.gpu, [r])
    ensures StoreOf(s'.core) == Offloaded(cfg.d, s.core.gpu, StoreOf(s.core), [r])
  {
    hide Inv, Candidates, FractionChoice, Offloaded, CanOffload, OnlyLeaver, NothingOffloaded, Rescored;
    LoneFacts(cfg, s, r);
    var c := s.core;
    var scores := RescoredExists(cfg, c.table, c.gpu, c.scores, ToSet([r]));
    LoneChoice(c.table.blocks, scores, c.scored, r);
    var after := Offloaded(cfg.d, c.gpu, StoreOf(c), [r]);
    s' := s.(core := c.(scores := scores, table := after.table, cpuFree := after.free, cpu := after.cpu),
             acc := s.acc + EntriesFor(c.table, [r]));
    assert EntriesFor(c.table, [r]) == [Entry(r, c.table.blocks[r].gpu.value)];
  }

  lemma LoneFacts(cfg: Config, s: State, r: BlockRef)
    requires ConfigOk(cfg) && Inv(cfg, s) && OnlyLeaver(s.core.table, r) && s.core.cpuFree != []
    requires cfg.trueFree ==> SoleOwned(s.core.table.blocks, s.refCnt)(r)
    ensures Candidates(cfg, s) == [r] && Resides(s.core.table, r, GPU) && s.core.table.blocks[r].gpu.Some?
    ensures s.core.scored + ToSet([r]) == s.core.scored && s.core.scores.Keys + ToSet([r]) == s.core.scores.Keys
    ensures r in s.core.scored && s.core.table.blocks[r].complete
    ensures s.core.table.blocks[r].gpu.value < |s.core.gpu|
    ensures CanOffload(StoreOf(s.core), s.core.gpu, [r])
  {
    hide Filled, AllIntact, EventsSafe, Counted, Tracked, Candidates, FractionChoice, Distinct, Placed, CanOffload;
    var c := s.core;
    assert Resides(c.table, r, GPU) && c.table.blocks[r].complete;
    CoreTableOk(cfg, s);
    hide CoreInv, TableOk;
    LoneCandidate(cfg, s, r);
    LoneIsScored(c, r);
    LoneCanGo(cfg, s, r);
  }

  lemma LoneIsScored(c: Core, r: BlockRef)
    requires ScoredExactly(c) && IsComplete(c.table, r)
    ensures r in c.scored && r in c.scores
    ensures c.scored + ToSet([r]) == c.scored && c.scores.Keys + ToSet([r]) == c.scores.Keys
  {
  }

  lemma LoneCanGo(cfg: Config, s: State, r: BlockRef)
    requires ConfigOk(cfg) && Inv(cfg, s) && Resides(s.core.table, r, GPU) && s.core.table.blocks[r].complete
    requires s.core.cpuFree != []
    ensures CanOffload(StoreOf(s.core), s.core.gpu, [r])
    ensures s.core.table.blocks[r].gpu.Some? && s.core.table.blocks[r].gpu.value < |s.core.gpu|
  {
    hide Filled, AllIntact, EventsSafe, Counted, Tracked, ScoredExactly;
    assert [r][0] == r;
  }
}
