/** The scheduler side: offload triggers, store events, and the surgery that really frees pages. */
module Scheduling {
  import opened Blocks
  import opened Residencies
  import opened Layout
  import opened Memory
  import opened Offloading
  import opened Staging
  import opened Selection
  import opened StoreEvents
  import opened StoreProtocol
  import opened Engine
  import opened EngineTables
  import opened EngineSync
  import opened EngineOffload
  import opened EngineStage
  import opened EngineFinish
  import opened EngineRuns
  import opened EnginePages
  import opened Allocation
  import opened Orchestration
  import opened EngineEnabled
  import opened EngineLinks
  import opened Handovers
  import opened ServingScript
  import opened StoreTally

  ghost predicate NoneEmpty(batches: seq<seq<Entry>>) {
    forall i :: 0 <= i < |batches| ==> batches[i] != []
  }

  lemma {:induction false} ReversedElements<T>(s: seq<T>)
    ensures multiset(LastReversed(s, |s|)) == multiset(s)
  {
    if s != [] {
      var rest := s[..|s| - 1];
      ReversedElements(rest);
      assert LastReversed(s, |s|) == [s[|s| - 1]] + LastReversed(rest, |rest|);
      assert s == rest + [s[|s| - 1]];
    }
  }

  class OffloadScheduler {
    const cfg: Config
    const fraction: real
    const promotePerStep: int
    const orchestrator: OffloadOrchestrator
    const pool: BlockPool
    const expectedWorkers: nat
    var reqToBlocks: map<string, seq<nat>>             // the KV cache manager's block tables
    var reqBlockTable: map<string, seq<nat>>           // the connector's copy
    var stepStoreAcc: seq<seq<Entry>>
    var pendingStoreEvents: map<nat, seq<Entry>>
    var pendingCounts: map<nat, nat>
    var storeEventCounter: nat
    var prefillCompleted: set<string>
    var promptLens: map<string, nat>

    /** The engine state this scheduler is part of; token counts and logical contents belong to the model. */
    ghost function View(computed: map<string, nat>, logical: map<BlockRef, Page>): (s: State)
      requires orchestrator.manager.memory.Valid()
      reads this, pool, orchestrator, orchestrator.residency, orchestrator.manager, orchestrator.manager.scorer,
            orchestrator.manager.memory, orchestrator.manager.pool, orchestrator.staging
    {
      State(orchestrator.View(), reqToBlocks, reqBlockTable, pool.refCnt, computed, Flatten(stepStoreAcc),
            pendingStoreEvents, storeEventCounter, logical)
    }

    /** What the offloads and promotions of a step go by. */
    ghost function Pol(): (pol: Policy)
      reads orchestrator`sparseMode
    {
      Policy(fraction, if orchestrator.sparseMode then promotePerStep else 0)
    }

    /** Whether a copy that gets this far has reached all layers. */
    function Copied(reach: (string, Transfer) -> nat): (copied: Copies) {
      CopiedIf(cfg.d.layers, reach)
    }

    /** The parts share their objects and have the sizes the configuration gives. */
    ghost predicate Fits() {
      && ConfigOk(cfg) && orchestrator.Wired() && orchestrator.cfg == cfg && pool.nullPage == cfg.nullPage
      && orchestrator.manager.memory.numPages == cfg.numPages
      && orchestrator.manager.memory.numSlots == cfg.cpuSlots
      && orchestrator.staging.base == cfg.base && orchestrator.staging.numSlots == cfg.stagingSlots
    }

    /** The scheduler in a state of the engine that satisfies its invariant. */
    ghost predicate Running(computed: map<string, nat>, logical: map<BlockRef, Page>)
      reads this, pool, orchestrator, orchestrator.residency, orchestrator.manager, orchestrator.manager.scorer,
            orchestrator.manager.memory, orchestrator.manager.pool, orchestrator.staging
    {
      && Fits() && orchestrator.residency.Valid() && orchestrator.manager.memory.Valid() && pool.Valid()
      && NoneEmpty(stepStoreAcc)
      && Inv(cfg, View(computed, logical))
    }

    /** The engine's invariant is all the methods ask for. */
    lemma RunningIsValid(computed: map<string, nat>, logical: map<BlockRef, Page>)
      requires Running(computed, logical)
      ensures orchestrator.Valid()
      ensures forall r :: r in orchestrator.residency.blocks ==> !IsWarmup(r.req)
      ensures forall q :: q in orchestrator.requestBlocks ==>
        orchestrator.requestBlocks[q] == RefsOf(q, |orchestrator.requestBlocks[q]|)
      ensures forall q, i :: q in reqToBlocks && 0 <= i < |reqToBlocks[q]| ==> reqToBlocks[q][i] < cfg.base
      ensures forall p :: 0 <= p < |orchestrator.View().gpu| ==> PageShape(cfg.d, orchestrator.View().gpu[p])
    {
      hide Inv, Agree, PoolOk, PageShape, Settled, CopiesWithin, PagesWithin, SlotsWithin, IsWarmup;
      InvIsReady(cfg, View(computed, logical));
      PagesShaped();
    }

    lemma PagesShaped()
      requires Fits() && orchestrator.manager.memory.Valid()
      ensures forall p :: 0 <= p < |orchestrator.View().gpu| ==> PageShape(cfg.d, orchestrator.View().gpu[p])
    {
      hide PageShape;
      var m := orchestrator.manager.memory;
      forall p: nat | p < m.numPages ensures PageShape(cfg.d, m.GpuPages()[p]) {
        ColumnsShaped(m.d, m.gpu, m.numPages, p);
      }
    }

    constructor (cfg: Config, fraction: real, promotePerStep: int, orchestrator: OffloadOrchestrator, pool: BlockPool,
                 expectedWorkers: nat)
      ensures this.cfg == cfg && this.fraction == fraction && this.promotePerStep == promotePerStep
      ensures prefillCompleted == {} && promptLens == map[]
      ensures this.orchestrator == orchestrator && this.pool == pool
      ensures this.expectedWorkers == expectedWorkers && reqToBlocks == map[] && reqBlockTable == map[]
      ensures stepStoreAcc == [] && pendingStoreEvents == map[] && pendingCounts == map[] && storeEventCounter == 0
    {
      this.cfg, this.orchestrator, this.pool, this.expectedWorkers := cfg, orchestrator, pool, expectedWorkers;
      this.fraction, this.promotePerStep, prefillCompleted, promptLens := fraction, promotePerStep, {}, map[];
      reqToBlocks, reqBlockTable, stepStoreAcc := map[], map[], [];
      pendingStoreEvents, pendingCounts, storeEventCounter := map[], map[], 0;
    }

    /** All batches of the step become one store event; nothing happens without a batch. */
    method FlushStoreEvents(ghost computed: map<string, nat>, ghost logical: map<BlockRef, Page>)
      returns (event: Option<nat>)
      requires orchestrator.manager.memory.Valid() && NoneEmpty(stepStoreAcc)
      modifies this`stepStoreAcc, this`storeEventCounter, this`pendingStoreEvents, this`pendingCounts
      ensures event == if old(stepStoreAcc) == [] then None else Some(old(storeEventCounter))
      ensures stepStoreAcc == [] && (old(Running(computed, logical)) ==> Running(computed, logical))
      ensures event.None? ==>
        View(computed, logical) == old(View(computed, logical)) && pendingCounts == old(pendingCounts)
      ensures event.Some? ==>
        && Flush(old(View(computed, logical)), View(computed, logical))
        && pendingCounts == old(pendingCounts)[event.value := 0]
    {
      hide Inv, Agree, PoolOk;
      ghost var s := View(computed, logical);
      if stepStoreAcc == [] { return None; }
      var all: seq<Entry> := [];
      for i := 0 to |stepStoreAcc|
        invariant all == Flatten(stepStoreAcc[..i])
        invariant i > 0 ==> all != []
      {
        assert stepStoreAcc[..i + 1][..i] == stepStoreAcc[..i];
        all := all + stepStoreAcc[i];
      }
      assert stepStoreAcc[..|stepStoreAcc|] == stepStoreAcc;
      stepStoreAcc := [];
      var k := storeEventCounter;
      storeEventCounter := storeEventCounter + 1;
      pendingStoreEvents := pendingStoreEvents[k := all];
      pendingCounts := pendingCounts[k := 0];
      if old(Running(computed, logical)) {
        FlushKeepsInv(cfg, s, View(computed, logical));
      }
      return Some(k);
    }

    /** Block-table surgery for one event: every entry that still names its page is swapped for the null
        page, in the block table and in the connector's copy; the pages are returned. */
    method SwapEntries(es: seq<Entry>, ghost s: State) returns (freed: seq<nat>)
      requires ConfigOk(cfg) && cfg.trueFree && Inv(cfg, s) && (forall e :: e in es ==> EntrySafe(cfg, s, e))
      requires s.tables == reqToBlocks && s.mirror == reqBlockTable
      modifies this`reqToBlocks, this`reqBlockTable
      ensures reqToBlocks == SurgeryN(cfg, s, es, |es|).tables && reqBlockTable == SurgeryN(cfg, s, es, |es|).mirror
      ensures forall p :: p in freed ==> p < |s.refCnt|
      ensures Dropped(s.refCnt, freed) == SurgeryN(cfg, s, es, |es|).refCnt
    {
      hide Inv, EntrySafe, TablesOk;
      freed := [];
      for i := 0 to |es|
        invariant reqToBlocks == SurgeryN(cfg, s, es, i).tables && reqBlockTable == SurgeryN(cfg, s, es, i).mirror
        invariant forall p :: p in freed ==> p < |s.refCnt|
        invariant Dropped(s.refCnt, freed) == SurgeryN(cfg, s, es, i).refCnt
      {
        hide SurgeryN;
        var e := es[i];
        ghost var s1 := SurgeryN(cfg, s, es, i);
        SurgeriesKeepInv(cfg, s, es, i);
        SurgeryNext(cfg, s, es, i);
        assert e in es;
        if HasEntry(reqToBlocks, e.ref) && EntryOf(reqToBlocks, e.ref) == e.page {
          EntryNotNull(cfg, s, e);
          InvTablesOk(cfg, s1);
          HeldPageCounts(cfg, s1, e.ref);
          DroppedSnoc(s.refCnt, freed, e.page);
          reqToBlocks := Rebound(reqToBlocks, e.ref, cfg.nullPage);
          reqBlockTable := Rebound(reqBlockTable, e.ref, cfg.nullPage);
          freed := freed + [e.page];
        }
      }
    }

    /** The event is consumed, once; with true freeing its pages go back to the pool. */
    method ProcessStoreCompletion(k: nat, ghost computed: map<string, nat>, ghost logical: map<BlockRef, Page>)
      requires orchestrator.manager.memory.Valid() && pool.Valid()
      requires ConfigOk(cfg) && Inv(cfg, View(computed, logical))
      modifies this`reqToBlocks, this`reqBlockTable, this`pendingStoreEvents, pool
      ensures pool.Valid()
      ensures k !in old(pendingStoreEvents) ==> View(computed, logical) == old(View(computed, logical))
      ensures k in old(pendingStoreEvents) ==> Complete(cfg, old(View(computed, logical)), k, View(computed, logical))
      ensures Inv(cfg, View(computed, logical))
    {
      hide Inv, SurgeryN, PoolOk, EntrySafe;
      if k !in pendingStoreEvents { return; }
      ghost var s := View(computed, logical);
      EventTaken(cfg, s, k);
      var es := pendingStoreEvents[k];
      pendingStoreEvents := pendingStoreEvents - {k};
      ghost var s1 := View(computed, logical);
      assert s1 == s.(pending := s.pending - {k});
      if cfg.trueFree {
        SurgeryNOnly(cfg, s1, es, |es|);
        var freed := SwapEntries(es, s1);
        pool.FreeBlocks(freed);
      }
      CompleteKeepsInv(cfg, s, k, View(computed, logical));
    }

    /** Counts c workers' reports of event k; once all expected workers have reported, completes it. */
    method CountReport(k: nat, c: nat, ghost log: multiset<nat>, ghost computed: map<string, nat>,
                       ghost logical: map<BlockRef, Page>)
      returns (ghost processed: multiset<nat>)
      requires orchestrator.manager.memory.Valid() && pool.Valid()
      requires ConfigOk(cfg) && Inv(cfg, View(computed, logical))
      modifies this`reqToBlocks, this`reqBlockTable, this`pendingStoreEvents, this`pendingCounts, pool
      ensures pool.Valid() && Inv(cfg, View(computed, logical))
      ensures View(computed, logical) == old(View(computed, logical)) ||
        Complete(cfg, old(View(computed, logical)), k, View(computed, logical))
      ensures processed == (if k in old(pendingStoreEvents) && k !in pendingStoreEvents then log + multiset{k} else log)
      ensures processed == log ==> View(computed, logical) == old(View(computed, logical))
      ensures Tally(pendingCounts, pendingStoreEvents.Keys, processed) ==
        CountedOne(Tally(old(pendingCounts), old(pendingStoreEvents.Keys), log), k, c, expectedWorkers)
    {
      hide Inv, PoolOk, SurgeryN;
      ghost var s := View(computed, logical);
      processed := log;
      pendingCounts := pendingCounts[k := Reports(pendingCounts, k) + c];
      assert View(computed, logical) == s;
      if pendingCounts[k] >= expectedWorkers {
        if k in pendingStoreEvents {
          processed := processed + multiset{k};
          SurgeryNOnly(cfg, s.(pending := s.pending - {k}), s.pending[k], |s.pending[k]|);
        }
        ProcessStoreCompletion(k, computed, logical);
        ghost var s' := View(computed, logical);
        assert pendingStoreEvents == s.pending - {k};
        pendingCounts := pendingCounts - {k};
        assert View(computed, logical) == s';
        assert pendingCounts == old(pendingCounts) - {k};
      }
    }

    /** Adds a report in and completes every event that all expected workers have now reported. */
    method UpdateConnectorOutput(report: map<nat, nat>, ghost computed: map<string, nat>,
                                 ghost logical: map<BlockRef, Page>)
      returns (ghost processed: multiset<nat>, ghost order: seq<nat>)
      requires orchestrator.manager.memory.Valid() && pool.Valid()
      requires ConfigOk(cfg) && Inv(cfg, View(computed, logical))
      modifies this`reqToBlocks, this`reqBlockTable, this`pendingStoreEvents, this`pendingCounts, pool
      ensures pool.Valid() && Inv(cfg, View(computed, logical))
      ensures multiset(order) == processed
      ensures Completes(cfg, old(View(computed, logical)), order, View(computed, logical))
      ensures Reaches(cfg, old(View(computed, logical)), View(computed, logical))
      ensures Tally(pendingCounts, pendingStoreEvents.Keys, processed) ==
        Consumed(Tally(old(pendingCounts), old(pendingStoreEvents.Keys), multiset{}), report, expectedWorkers)
    {
      hide Inv, Consumed, PoolOk, Rest, Reaches, Complete, Completes;
      ghost var s := View(computed, logical);
      ReachesItself(cfg, s);
      CompletesNothing(cfg, s);
      order := [];
      ghost var t := Tally(pendingCounts, pendingStoreEvents.Keys, multiset{});
      processed := multiset{};
      var todo := report.Keys;
      ConsumedNothing(t, report, expectedWorkers);
      while todo != {}
        invariant todo <= report.Keys && pool.Valid() && Inv(cfg, View(computed, logical))
        invariant Reaches(cfg, s, View(computed, logical))
        invariant multiset(order) == processed && Completes(cfg, s, order, View(computed, logical))
        invariant Tally(pendingCounts, pendingStoreEvents.Keys, processed) == Consumed(t, Rest(report, todo),
              expectedWorkers)
        decreases |todo|
      {
        var k :| k in todo;
        ConsumedOneMore(t, report, todo, k, expectedWorkers);
        ghost var s1, log := View(computed, logical), processed;
        processed := CountReport(k, report[k], log, computed, logical);
        if processed != log {
          CompleteReaches(cfg, s, s1, k, View(computed, logical));
          CompletesNext(cfg, s, order, s1, k, View(computed, logical));
          order := order + [k];
        }
        todo := todo - {k};
      }
      RestOfAll(report);
    }

    /** One cached request of a step: bring the connector's copy up to date and sync the whole list. */
    method SyncCached(q: string, newIds: Option<seq<nat>>, resumed: bool, tokens: nat)
      requires orchestrator.Wired() && orchestrator.manager.Valid()
      requires var known := Known(reqBlockTable, q);
        forall i :: 0 <= i < |FullList(known, newIds, resumed)| ==>
          FullList(known, newIds, resumed)[i] < orchestrator.manager.memory.numPages
      modifies this`reqBlockTable, orchestrator`requestBlocks, orchestrator`scored, orchestrator.residency,
               orchestrator.manager.scorer
      ensures orchestrator.manager.Valid() && (old(orchestrator.Valid()) ==> orchestrator.Valid())
      ensures var known := Known(old(reqBlockTable), q);
        var full := FullList(known, newIds, resumed);
        && reqBlockTable == old(reqBlockTable)[q := full]
        && (IsWarmup(q) ==> orchestrator.View() == old(orchestrator.View()))
        && (!IsWarmup(q) ==>
            SyncedCore(orchestrator.cfg, old(orchestrator.View()), q, full, tokens, orchestrator.View()))
    {
      hide Agree, SyncedCore, PagesWithin, SlotsWithin, Settled, CopiesWithin;
      var known := if q in reqBlockTable then reqBlockTable[q] else [];
      var full: seq<nat>;
      if resumed {
        full := if newIds.Some? then newIds.value else [];
      } else if newIds.Some? {
        full := known + newIds.value;
      } else {
        full := known;
      }
      assert known == Known(reqBlockTable, q) && full == FullList(known, newIds, resumed);
      reqBlockTable := reqBlockTable[q := full];
      var refs := orchestrator.SyncRequestBlocks(q, full, tokens);
    }

    /** One request of a step, as a step of the engine. */
    method SyncStep(h: Handover, ghost computed: map<string, nat>, ghost logical: map<BlockRef, Page>)
      returns (ghost logical': map<BlockRef, Page>)
      requires Running(computed, logical) && HandedOver(reqToBlocks, reqBlockTable, computed, h)
      modifies this`reqBlockTable, orchestrator`requestBlocks, orchestrator`scored, orchestrator.residency,
               orchestrator.manager.scorer
      ensures reqBlockTable == old(reqBlockTable)[h.req := reqToBlocks[h.req]]
      ensures Running(computed[h.req := h.tokens], logical')
      ensures Sync(cfg, old(View(computed, logical)), h.req, h.tokens, View(computed[h.req := h.tokens], logical'))
    {
      hide Inv, Agree, SyncedCore, PagesWithin, SlotsWithin, Settled, CopiesWithin, PoolOk, Sync, IsWarmup, PageShape,
           BoundLogical;
      ghost var s := View(computed, logical);
      RunningIsValid(computed, logical);
      SyncCached(h.req, h.newIds, h.resumed, h.tokens);
      logical' := BoundLogical(logical, s.core.gpu, h.req, reqToBlocks[h.req]);
      ghost var s' := View(computed[h.req := h.tokens], logical');
      assert s' == SyncedState(s, h.req, h.tokens, s'.core);
      SyncedIsSync(cfg, s, h.req, h.tokens, s'.core);
      SyncKeepsInv(cfg, s, h.req, h.tokens, s');
    }

    /** The blocks that may be offloaded: complete ones on the GPU; with true freeing, sole-owned ones. */
    method Allowed(ghost computed: map<string, nat>, ghost logical: map<BlockRef, Page>)
      returns (allowed: seq<BlockRef>)
      requires orchestrator.residency.Valid() && orchestrator.manager.memory.Valid()
      ensures allowed == Candidates(cfg, View(computed, logical))
    {
      hide Agree;
      var residency := orchestrator.residency;
      var all := residency.AllGpuBlocks(true);
      if !cfg.trueFree { return all; }
      ghost var keep := SoleOwned(residency.blocks, pool.refCnt);
      allowed := [];
      FilterEmpty(keep);
      assert all[..0] == [];
      for i := 0 to |all|
        invariant allowed == Filter(keep, all[..i])
      {
        hide Filter;
        FilterSnoc(keep, all, i);
        var r := all[i];
        if r in residency.blocks && residency.blocks[r].gpu.Some? {
          var page := residency.blocks[r].gpu.value;
          if page < |pool.refCnt| && pool.refCnt[page] == 1 {
            allowed := allowed + [r];
          }
        }
      }
      assert all[..|all|] == all;
    }

    /** Rescores every candidate; afterwards all of them count as scored. */
    method Rescore(cands: seq<BlockRef>)
      requires orchestrator.Wired() && orchestrator.manager.Valid() && Distinct(cands)
      requires forall r :: r in cands ==>
        Resides(orchestrator.residency.View(), r, GPU) && orchestrator.residency.blocks[r].complete
      requires forall r :: r in cands ==> !IsWarmup(r.req)
      modifies orchestrator`scored, orchestrator.residency, orchestrator.manager.scorer
      ensures orchestrator.residency.Valid() && orchestrator.residency.View() == old(orchestrator.residency.View())
      ensures orchestrator.scored == old(orchestrator.scored) + ToSet(cands)
      ensures orchestrator.manager.scorer.scores.Keys == old(orchestrator.manager.scorer.scores.Keys) + ToSet(cands)
      ensures Rescored(orchestrator.cfg, orchestrator.residency.View(), orchestrator.manager.memory.GpuPages(),
                       old(orchestrator.manager.scorer.scores), ToSet(cands), orchestrator.manager.scorer.scores)
    {
      hide Agree;
      var residency := orchestrator.residency;
      var gids: seq<nat> := [];
      for i := 0 to |cands|
        invariant |gids| == i && PagesAre(residency.View(), cands[..i], gids)
        invariant forall k :: 0 <= k < i ==> gids[k] < orchestrator.manager.memory.numPages
      {
        assert cands[i] in cands;
        gids := gids + [residency.blocks[cands[i]].gpu.value];
      }
      assert cands[..|cands|] == cands;
      if |cands| > 0 {
        forall r | r in cands ensures r in residency.blocks && residency.blocks[r].complete {
          assert Resides(residency.View(), r, GPU);
        }
        forall i | 0 <= i < |cands| ensures !IsWarmup(cands[i].req) {
          assert cands[i] in cands;
        }
        orchestrator.MarkAllComplete(cands);
        orchestrator.ScorePicked(cands, gids, residency.View());
        orchestrator.MarkScored(cands);
      }
    }

    /** Offloads the coldest fraction of all candidates and records what left for this step's event. */
    method TriggerGlobalOffload(reach: nat, ghost computed: map<string, nat>, ghost logical: map<BlockRef, Page>)
      returns (res: Result<()>)
      requires orchestrator.Wired() && orchestrator.manager.Valid() && orchestrator.cfg == cfg
      requires forall r :: r in orchestrator.residency.blocks ==> !IsWarmup(r.req)
      modifies this`stepStoreAcc, orchestrator`scored, orchestrator.residency, orchestrator.manager.scorer,
               orchestrator.manager.pool, orchestrator.manager.memory`cpu
      ensures orchestrator.residency.Valid() && orchestrator.manager.memory.Valid()
      ensures old(NoneEmpty(stepStoreAcc)) ==> NoneEmpty(stepStoreAcc)
      ensures Trigger(cfg, old(View(computed, logical)), fraction, cfg.d.layers <= reach, View(computed, logical))
      ensures res.Ok? <==> FractionChoice(old(orchestrator.residency.blocks), orchestrator.manager.scorer.scores,
                                          Candidates(cfg, old(View(computed, logical))), fraction,
                                          orchestrator.scored).Ok?
    {
      hide Agree, Candidates, FractionChoice, CanOffload, Offloaded, NothingOffloaded, PagesWithin, SlotsWithin,
           EntriesFor, Flatten, NoneEmpty, IsWarmup;
      ghost var s := View(computed, logical);
      var cands := Allowed(computed, logical);
      AgreeTableOk(orchestrator.residency.View(), orchestrator.residency.numCpu, orchestrator.residency.byRequest);
      CandidateFacts(cfg, s);
      Rescore(cands);
      var out := orchestrator.manager.OffloadFraction(cands, fraction, orchestrator.scored, reach);
      res := if out.Ok? then Ok(()) else Err(out.error);
      if out.Ok? && out.value != [] {
        OffloadKeepsPages(cfg.d, s.core.gpu, StoreOf(s.core), out.value);
        Record(out.value, s.core.table);
      }
    }

    /** What left is one more batch of this step's event, with the pages it left. */
    method Record(refs: seq<BlockRef>, ghost t: Table)
      requires refs != [] && forall i :: 0 <= i < |refs| ==>
        && refs[i] in t.blocks && t.blocks[refs[i]].gpu.Some?
        && refs[i] in orchestrator.residency.View().blocks
        && orchestrator.residency.View().blocks[refs[i]].gpu == t.blocks[refs[i]].gpu
      modifies this`stepStoreAcc
      ensures Flatten(stepStoreAcc) == old(Flatten(stepStoreAcc)) + EntriesFor(t, refs)
      ensures old(NoneEmpty(stepStoreAcc)) ==> NoneEmpty(stepStoreAcc)
    {
      var batch := Batch(refs);
      EntriesAgree(t, orchestrator.residency.View(), refs);
      FlattenSnoc(stepStoreAcc, batch);
      stepStoreAcc := stepStoreAcc + [batch];
    }

    /** An offload as a step of the engine. It raises only for a fraction outside [0, 1). */
    method OffloadStep(reach: nat, ghost computed: map<string, nat>, ghost logical: map<BlockRef, Page>)
      returns (res: Result<()>)
      requires Running(computed, logical)
      modifies this`stepStoreAcc, orchestrator`scored, orchestrator.residency, orchestrator.manager.scorer,
               orchestrator.manager.pool, orchestrator.manager.memory`cpu
      ensures Running(computed, logical)
      ensures res.Ok? <==> 0.0 <= fraction < 1.0
      ensures Trigger(cfg, old(View(computed, logical)), fraction, cfg.d.layers <= reach, View(computed, logical))
    {
      hide Inv, Agree, PoolOk, Trigger, PageShape, Settled, CopiesWithin, PagesWithin, SlotsWithin, IsWarmup;
      ghost var s := View(computed, logical);
      RunningIsValid(computed, logical);
      res := TriggerGlobalOffload(reach, computed, logical);
      TriggerKeepsInv(cfg, s, fraction, cfg.d.layers <= reach, View(computed, logical));
      LegalChoice(cfg, s, fraction, cfg.d.layers <= reach, View(computed, logical));
    }

    method Batch(refs: seq<BlockRef>) returns (es: seq<Entry>)
      requires forall i :: 0 <= i < |refs| ==>
        refs[i] in orchestrator.residency.View().blocks && orchestrator.residency.View().blocks[refs[i]].gpu.Some?
      ensures es == EntriesFor(orchestrator.residency.View(), refs)
    {
      es := [];
      for i := 0 to |refs|
        invariant |es| == i
        invariant forall k :: 0 <= k < i ==>
          es[k] == Entry(refs[k], orchestrator.residency.View().blocks[refs[k]].gpu.value)
      {
        es := es + [Entry(refs[i], orchestrator.residency.blocks[refs[i]].gpu.value)];
      }
    }

    /** The request is gone: orchestrator state and bookkeeping go with it. */
    method RequestFinished(q: string, ghost computed: map<string, nat>, ghost logical: map<BlockRef, Page>)
      requires orchestrator.Wired() && orchestrator.residency.Valid() && orchestrator.manager.memory.Valid()
      modifies this`reqBlockTable, this`prefillCompleted, this`promptLens, orchestrator`requestBlocks,
               orchestrator`scored,
               orchestrator.residency, orchestrator.staging, orchestrator.manager.pool, orchestrator.manager.scorer
      ensures orchestrator.residency.Valid()
      ensures prefillCompleted == old(prefillCompleted) - {q} && promptLens == old(promptLens) - {q}
      ensures View(computed, logical) ==
        old(View(computed, logical)).(core := CleanedCore(old(orchestrator.View()), q),
                                      mirror := old(reqBlockTable) - {q})
    {
      hide Agree, CleanedCore;
      orchestrator.CleanupRequest(q);
      prefillCompleted := prefillCompleted - {q};
      reqBlockTable := reqBlockTable - {q};
      promptLens := promptLens - {q};
    }

    /** The connector is told that the request is gone; then its pages go back to the pool, last first. */
    method FinishRequest(q: string, ghost computed: map<string, nat>, ghost logical: map<BlockRef, Page>)
      returns (ghost logical': map<BlockRef, Page>)
      requires Running(computed, logical) && q in reqToBlocks
      modifies this`reqToBlocks, this`reqBlockTable, this`prefillCompleted, this`promptLens, orchestrator`requestBlocks,
               orchestrator`scored, orchestrator.residency, orchestrator.staging, orchestrator.manager.pool,
               orchestrator.manager.scorer, pool
      ensures Running(computed - {q}, logical')
      ensures Finish(cfg, old(View(computed, logical)), q, View(computed - {q}, logical'))
    {
      hide Inv, Agree, PoolOk, CleanedCore, Finish, PageShape, Settled, CopiesWithin, PagesWithin, SlotsWithin,
           IsWarmup;
      ghost var s := View(computed, logical);
      RunningIsValid(computed, logical);
      var row := reqToBlocks[q];
      RequestFinished(q, computed, logical);
      var pages := LastReversed(row, |row|);
      ReversedElements(row);
      reqToBlocks := reqToBlocks - {q};
      SizedCounts(cfg, s);
      pool.FreeBlocks(pages);
      logical' := logical - (set r | r in logical && r.req == q);
      FreedIsFinish(cfg, s, q, pages);
      assert View(computed - {q}, logical') == FinishedState(s, q, pool.refCnt);
      FinishKeepsInv(cfg, s, q, View(computed - {q}, logical'));
    }

    /** The request's prefill is over: after the sync there is nothing left to mark; then an offload. */
    method PrefillDone(q: string, tokens: nat, reach: nat, ghost computed: map<string, nat>,
                       ghost logical: map<BlockRef, Page>)
      returns (res: Result<()>)
      requires Running(computed, logical) && q in computed && computed[q] == tokens
      modifies this`stepStoreAcc, this`prefillCompleted, orchestrator`scored, orchestrator.residency,
               orchestrator.manager.scorer, orchestrator.manager.pool, orchestrator.manager.memory`cpu
      ensures prefillCompleted == old(prefillCompleted) + {q}
      ensures Running(computed, logical) && (res.Ok? <==> 0.0 <= fraction < 1.0)
      ensures Trigger(cfg, old(View(computed, logical)), fraction, cfg.d.layers <= reach, View(computed, logical))
    {
      hide Inv, Agree, PoolOk, Trigger, Graduated, Graduates, PageShape, Settled, CopiesWithin, PagesWithin,
           SlotsWithin, IsWarmup, Rescored;
      prefillCompleted := prefillCompleted + {q};
      ghost var s := View(computed, logical);
      RunningIsValid(computed, logical);
      orchestrator.OnPrefillComplete(q, tokens);
      ghost var refs := if !IsWarmup(q) && orchestrator.sparseMode && q in orchestrator.requestBlocks
                        then orchestrator.requestBlocks[q] else [];
      IdlePrefill(cfg, s, q, refs, orchestrator.residency.View());
      assert View(computed, logical) == s;
      res := OffloadStep(reach, computed, logical);
    }

    /** The promotion loop: with true freeing, every active request's highest-scored CPU-resident blocks are
        staged ahead, one request after the other; a copy that fails ends it. */
    method PromoteActive(active: seq<string>, reach: (string, Transfer) -> nat, ghost computed: map<string, nat>,
                         ghost logical: map<BlockRef, Page>)
      returns (res: Result<()>, ghost taken: seq<ServingMove>)
      requires Running(computed, logical)
      modifies orchestrator.staging, orchestrator.residency, orchestrator.manager.memory`gpu
      ensures Running(computed, logical)
      ensures Reaches(cfg, old(View(computed, logical)), View(computed, logical))
      ensures Makes(cfg, Pol(), old(View(computed, logical)), taken, View(computed, logical))
      ensures taken <= if cfg.trueFree then Promotions(active, Copied(reach), |active|) else []
      ensures res.Ok? ==> taken == if cfg.trueFree then Promotions(active, Copied(reach), |active|) else []
      ensures (forall q :: q in active ==> Copied(reach)(q, Promotion)) ==> res.Ok?
    {
      hide Inv, Agree, PoolOk, Reaches, PageShape, Settled, CopiesWithin, PagesWithin, SlotsWithin, IsWarmup,
           PromoteEffect, Stage, Makes, Promotions, Promote;
      ghost var s := View(computed, logical);
      taken := [];
      MakesNothing(cfg, Pol(), s);
      ReachesItself(cfg, s);
      if !cfg.trueFree { return Ok(()), taken; }
      PromotionsStart(active, Copied(reach));
      if promotePerStep <= 0 || active == [] || orchestrator.residency.numCpu <= 0 {
        NothingToPromote(active, reach, computed, logical);
        return Ok(()), Promotions(active, Copied(reach), |active|);
      }
      for i := 0 to |active|
        invariant Running(computed, logical)
        invariant taken == Promotions(active, Copied(reach), i) && Makes(cfg, Pol(), s, taken, View(computed, logical))
      {
        ghost var m := PromoteMove(active[i], Copied(reach)(active[i], Promotion));
        PromotionsNext(active, Copied(reach), i);
        ghost var s1 := View(computed, logical);
        var got := PromoteOne(active[i], reach(active[i], Promotion), computed, logical);
        MakesNext(cfg, Pol(), s, taken, s1, m, View(computed, logical));
        taken := taken + [m];
        if got.Err? {
          MakesReaches(cfg, Pol(), s, taken, View(computed, logical));
          return Err(got.error), taken;
        }
      }
      MakesReaches(cfg, Pol(), s, taken, View(computed, logical));
      res := Ok(());
    }

    /** One active request's turn. */
    method PromoteOne(q: string, reach: nat, ghost computed: map<string, nat>, ghost logical: map<BlockRef, Page>)
      returns (res: Result<()>)
      requires Running(computed, logical)
      modifies orchestrator.staging, orchestrator.residency, orchestrator.manager.memory`gpu
      ensures Running(computed, logical)
      ensures Promote(cfg, Pol().limit, old(View(computed, logical)), q, cfg.d.layers <= reach, View(computed, logical))
      ensures cfg.d.layers <= reach ==> res.Ok?
    {
      hide Inv, Agree, PoolOk, PageShape, Settled, CopiesWithin, PagesWithin, SlotsWithin, IsWarmup, PromoteEffect,
           Stage, Promote;
      ghost var s1 := View(computed, logical);
      RunningIsValid(computed, logical);
      var got, picked, out := orchestrator.PromoteHotCpuBlocks(q, promotePerStep, reach);
      PagesShaped();
      ghost var s2, copied := View(computed, logical), cfg.d.layers <= reach;
      PromotedIsStage(cfg, s1, q, Pol().limit, copied, picked, out, got, s2.core);
      PromotedIsMove(cfg, s1, q, Pol().limit, copied, picked, out, got, s2.core);
      assert s2 == s1.(core := s2.core);
      if s2 != s1 {
        StageKeepsInv(cfg, s1, picked, copied, s2);
      }
      res := if got.Ok? then Ok(()) else Err(got.error);
    }

    /** Where the loop is skipped, it would have found nothing to promote. */
    lemma NothingToPromote(active: seq<string>, reach: (string, Transfer) -> nat, computed: map<string, nat>,
                           logical: map<BlockRef, Page>)
      requires Running(computed, logical)
      requires promotePerStep <= 0 || active == [] || orchestrator.residency.numCpu <= 0
      ensures Makes(cfg, Pol(), View(computed, logical), Promotions(active, Copied(reach), |active|),
                    View(computed, logical))
    {
      hide Inv, Makes, Promotions, Agree, Fits, PoolOk, View;
      ghost var s := View(computed, logical);
      if active == [] {
        PromotionsStart(active, Copied(reach));
        MakesNothing(cfg, Pol(), s);
      } else {
        if promotePerStep > 0 {
          NobodyOnCpu(computed, logical);
        }
        IdlePromotions(cfg, Pol(), s, active, Copied(reach), |active|);
      }
    }

    lemma NobodyOnCpu(computed: map<string, nat>, logical: map<BlockRef, Page>)
      requires Running(computed, logical) && orchestrator.residency.numCpu <= 0
      ensures forall q :: NoneOnCpu(View(computed, logical), q)
    {
      hide Inv, Agree, Fits, PoolOk, NoneEmpty;
      var r := orchestrator.residency;
      NoneCounted(r.View(), r.numCpu, r.byRequest);
    }

    method ArriveOne(n: NewRequest, ghost computed: map<string, nat>, ghost logical: map<BlockRef, Page>)
      returns (ghost logical': map<BlockRef, Page>)
      requires Running(computed, logical) && HandedOver(reqToBlocks, reqBlockTable, computed, Arrival(n))
      modifies this`reqBlockTable, this`promptLens, orchestrator`requestBlocks, orchestrator`scored,
               orchestrator.residency, orchestrator.manager.scorer
      ensures reqBlockTable == old(reqBlockTable)[n.req := n.ids] && reqToBlocks[n.req] == n.ids
      ensures promptLens == old(promptLens)[n.req := n.promptLen]
      ensures Running(computed[n.req := n.tokens], logical')
      ensures Sync(cfg, old(View(computed, logical)), n.req, n.tokens, View(computed[n.req := n.tokens], logical'))
    {
      hide Inv, Agree, PoolOk, Sync, PageShape, IsWarmup;
      logical' := SyncStep(Arrival(n), computed, logical);
      promptLens := promptLens[n.req := n.promptLen];
    }

    /** New requests: their lists are taken over and synced. */
    method SyncArrivals(arrived: seq<NewRequest>, ghost hs: seq<Handover>, ghost computed: map<string, nat>,
                        ghost logical: map<BlockRef, Page>)
      returns (ghost computed': map<string, nat>, ghost logical': map<BlockRef, Page>)
      requires Running(computed, logical) && HandedFrom(reqToBlocks, reqBlockTable, computed, hs, 0)
      requires |arrived| <= |hs| && forall i :: 0 <= i < |arrived| ==> hs[i] == Arrival(arrived[i])
      modifies this`reqBlockTable, this`promptLens, orchestrator`requestBlocks, orchestrator`scored,
               orchestrator.residency, orchestrator.manager.scorer
      ensures Running(computed', logical') && Reaches(cfg, old(View(computed, logical)), View(computed', logical'))
      ensures Makes(cfg, Pol(), old(View(computed, logical)), ArriveMoves(arrived, |arrived|),
                    View(computed', logical'))
      ensures promptLens == PromptsAfter(old(promptLens), arrived, |arrived|)
      ensures HandedFrom(reqToBlocks, reqBlockTable, computed', hs, |arrived|) && Tokened(computed', hs, |arrived|)
    {
      hide Inv, Agree, PoolOk, Reaches, HandedFrom, PageShape, HandedOver, View, Makes, ArriveMoves, Sync, Fits,
           NoneEmpty, Tokened, TensorsShaped, Pol;
      ghost var s := View(computed, logical);
      MakesNothing(cfg, Pol(), s);
      ArriveMovesStart(arrived);
      NoneTokened(computed, hs);
      computed', logical' := computed, logical;
      for i := 0 to |arrived|
        invariant Running(computed', logical')
        invariant Makes(cfg, Pol(), s, ArriveMoves(arrived, i), View(computed', logical'))
        invariant promptLens == PromptsAfter(old(promptLens), arrived, i)
        invariant HandedFrom(reqToBlocks, reqBlockTable, computed', hs, i) && Tokened(computed', hs, i)
      {
        HandedNow(reqToBlocks, reqBlockTable, computed', hs, i);
        HandedNext(reqToBlocks, reqBlockTable, computed', hs, i, reqToBlocks[hs[i].req]);
        ghost var s1 := View(computed', logical');
        logical' := ArriveOne(arrived[i], computed', logical');
        computed' := computed'[arrived[i].req := arrived[i].tokens];
        ArriveMovesNext(arrived, i);
        MakesNext(cfg, Pol(), s, ArriveMoves(arrived, i), s1, SyncMove(arrived[i].req, arrived[i].tokens),
                  View(computed', logical'));
      }
      MakesReaches(cfg, Pol(), s, ArriveMoves(arrived, |arrived|), View(computed', logical'));
    }

    /** An offload if the request's prefill has just ended. */
    method OffloadPrefilled(c: CachedRequest, reach: (string, Transfer) -> nat, ghost computed: map<string, nat>,
                            ghost logical: map<BlockRef, Page>)
      returns (res: Result<()>, ghost taken: seq<ServingMove>)
      requires Running(computed, logical)
      requires c.handover.req in computed && computed[c.handover.req] == c.handover.tokens
      modifies this`stepStoreAcc, this`prefillCompleted, orchestrator`scored, orchestrator.residency,
               orchestrator.manager.scorer, orchestrator.manager.pool, orchestrator.manager.memory`cpu
      ensures Running(computed, logical)
      ensures Makes(cfg, Pol(), old(View(computed, logical)), taken, View(computed, logical))
      ensures taken == PrefillOffload(promptLens, old(prefillCompleted), c, Copied(reach))
      ensures prefillCompleted == DoneWith(promptLens, old(prefillCompleted), c)
      ensures 0.0 <= fraction < 1.0 ==> res.Ok?
    {
      hide Inv, Agree, PoolOk, Trigger, Makes, View, Fits, NoneEmpty, TensorsShaped;
      var h := c.handover;
      ghost var s := View(computed, logical);
      taken := [];
      MakesNothing(cfg, Pol(), s);
      res := Ok(());
      var promptLen := if h.req in promptLens then promptLens[h.req] else 0;
      if promptLen > 0 && h.tokens >= promptLen && h.req !in prefillCompleted {
        res := PrefillDone(h.req, h.tokens, reach(h.req, AfterPrefill), computed, logical);
        ghost var copied := Copied(reach)(h.req, AfterPrefill);
        MakesOffload(cfg, Pol(), s, taken, s, copied, View(computed, logical));
        taken := taken + [OffloadMove(copied)];
        assert taken == [OffloadMove(copied)];
      }
    }

    /** An offload if the request's interval is over. */
    method OffloadAtInterval(c: CachedRequest, reach: (string, Transfer) -> nat, ghost computed: map<string, nat>,
                             ghost logical: map<BlockRef, Page>)
      returns (res: Result<()>, ghost taken: seq<ServingMove>)
      requires Running(computed, logical)
      modifies this`stepStoreAcc, orchestrator`scored, orchestrator.residency,
               orchestrator.manager.scorer, orchestrator.manager.pool, orchestrator.manager.memory`cpu
      ensures Running(computed, logical)
      ensures Makes(cfg, Pol(), old(View(computed, logical)), taken, View(computed, logical))
      ensures taken == IntervalOffload(prefillCompleted, c, Copied(reach))
      ensures 0.0 <= fraction < 1.0 ==> res.Ok?
    {
      hide Inv, Agree, PoolOk, Trigger, Makes, View, Fits, NoneEmpty, TensorsShaped;
      var q := c.handover.req;
      ghost var s := View(computed, logical);
      taken := [];
      MakesNothing(cfg, Pol(), s);
      res := Ok(());
      if c.scheduled > 0 && q in prefillCompleted && c.due {
        res := OffloadStep(reach(q, Interval), computed, logical);
        ghost var copied := Copied(reach)(q, Interval);
        MakesOffload(cfg, Pol(), s, taken, s, copied, View(computed, logical));
        taken := taken + [OffloadMove(copied)];
        assert taken == [OffloadMove(copied)];
      }
    }

    /** An offload if the request's prefill has just ended, then one if it is due; an offload that raises is
        the last. */
    method OffloadDue(c: CachedRequest, reach: (string, Transfer) -> nat, ghost computed: map<string, nat>,
                      ghost logical: map<BlockRef, Page>)
      returns (res: Result<()>, ghost taken: seq<ServingMove>)
      requires Running(computed, logical)
      requires c.handover.req in computed && computed[c.handover.req] == c.handover.tokens
      modifies this`stepStoreAcc, this`prefillCompleted, orchestrator`scored, orchestrator.residency,
               orchestrator.manager.scorer, orchestrator.manager.pool, orchestrator.manager.memory`cpu
      ensures Running(computed, logical) && Reaches(cfg, old(View(computed, logical)), View(computed, logical))
      ensures Makes(cfg, Pol(), old(View(computed, logical)), taken, View(computed, logical))
      ensures taken <= OffloadsFor(promptLens, old(prefillCompleted), c, Copied(reach))
      ensures res.Ok? ==> taken == OffloadsFor(promptLens, old(prefillCompleted), c, Copied(reach))
      ensures prefillCompleted == DoneWith(promptLens, old(prefillCompleted), c)
      ensures 0.0 <= fraction < 1.0 ==> res.Ok?
    {
      hide Inv, Agree, PoolOk, Reaches, Makes, View, Fits, NoneEmpty, TensorsShaped, PrefillOffload, IntervalOffload,
           DoneWith, Pol;
      ghost var s := View(computed, logical);
      res, taken := OffloadPrefilled(c, reach, computed, logical);
      if res.Ok? {
        ghost var s1, more := View(computed, logical), [];
        res, more := OffloadAtInterval(c, reach, computed, logical);
        MakesJoin(cfg, Pol(), s, taken, s1, more, View(computed, logical));
        taken := taken + more;
      }
      MakesReaches(cfg, Pol(), s, taken, View(computed, logical));
    }

    /** One running request: sync, then the offloads it sets off. */
    method ServeOne(c: CachedRequest, reach: (string, Transfer) -> nat, ghost computed: map<string, nat>,
                    ghost logical: map<BlockRef, Page>)
      returns (res: Result<()>, ghost logical': map<BlockRef, Page>, ghost taken: seq<ServingMove>)
      requires Running(computed, logical) && HandedOver(reqToBlocks, reqBlockTable, computed, c.handover)
      modifies this`reqBlockTable, this`stepStoreAcc, this`prefillCompleted, orchestrator`requestBlocks,
               orchestrator`scored, orchestrator.residency, orchestrator.manager.scorer, orchestrator.manager.pool,
               orchestrator.manager.memory`cpu
      ensures reqBlockTable == old(reqBlockTable)[c.handover.req := reqToBlocks[c.handover.req]]
      ensures Running(computed[c.handover.req := c.handover.tokens], logical')
      ensures Reaches(cfg, old(View(computed, logical)), View(computed[c.handover.req := c.handover.tokens], logical'))
      ensures Makes(cfg, Pol(), old(View(computed, logical)), taken,
                    View(computed[c.handover.req := c.handover.tokens], logical'))
      ensures taken <= ServeMoves(promptLens, old(prefillCompleted), c, Copied(reach))
      ensures res.Ok? ==> taken == ServeMoves(promptLens, old(prefillCompleted), c, Copied(reach))
      ensures prefillCompleted == DoneWith(promptLens, old(prefillCompleted), c)
      ensures 0.0 <= fraction < 1.0 ==> res.Ok?
    {
      hide Inv, Agree, PoolOk, Reaches, Sync, PageShape, HandedOver, View, Makes, OffloadsFor, DoneWith, Fits,
           NoneEmpty, TensorsShaped, Pol, Made;
      var h := c.handover;
      ghost var s, computed' := View(computed, logical), computed[h.req := h.tokens];
      logical' := SyncStep(h, computed, logical);
      ghost var s1 := View(computed', logical');
      MakesSync(cfg, Pol(), s, h.req, h.tokens, s1);
      res, taken := OffloadDue(c, reach, computed', logical');
      MakesJoin(cfg, Pol(), s, [SyncMove(h.req, h.tokens)], s1, taken, View(computed', logical'));
      taken := [SyncMove(h.req, h.tokens)] + taken;
      MakesReaches(cfg, Pol(), s, taken, View(computed', logical'));
    }

    /** The running requests of a step, one after the other; an offload that raises ends it. */
    method ServeCached(cached: seq<CachedRequest>, reach: (string, Transfer) -> nat, ghost hs: seq<Handover>,
                       ghost n: nat, ghost computed: map<string, nat>, ghost logical: map<BlockRef, Page>)
      returns (res: Result<()>, ghost computed': map<string, nat>, ghost logical': map<BlockRef, Page>,
               ghost taken: seq<ServingMove>)
      requires Running(computed, logical) && |hs| == n + |cached|
      requires HandedFrom(reqToBlocks, reqBlockTable, computed, hs, n) && Tokened(computed, hs, n)
      requires forall i :: 0 <= i < |cached| ==> hs[n + i] == cached[i].handover
      modifies this`reqBlockTable, this`stepStoreAcc, this`prefillCompleted, orchestrator`requestBlocks,
               orchestrator`scored, orchestrator.residency, orchestrator.manager.scorer, orchestrator.manager.pool,
               orchestrator.manager.memory`cpu
      ensures Running(computed', logical') && Reaches(cfg, old(View(computed, logical)), View(computed', logical'))
      ensures Tokened(computed', hs, n) && (res.Ok? ==> Tokened(computed', hs, |hs|))
      ensures Makes(cfg, Pol(), old(View(computed, logical)), taken, View(computed', logical'))
      ensures taken <= CachedMoves(promptLens, old(prefillCompleted), cached, Copied(reach), |cached|)
      ensures res.Ok? ==> taken == CachedMoves(promptLens, old(prefillCompleted), cached, Copied(reach), |cached|)
      ensures res.Ok? ==> prefillCompleted == DoneCached(promptLens, old(prefillCompleted), cached, |cached|)
      ensures 0.0 <= fraction < 1.0 ==> res.Ok?
    {
      hide Inv, Agree, PoolOk, Reaches, HandedFrom, PageShape, HandedOver, View, Makes, ServeMoves, DoneCached,
           DoneWith, Tokened, Fits, NoneEmpty, TensorsShaped, Pol, CachedMoves;
      ghost var s, was := View(computed, logical), prefillCompleted;
      MakesNothing(cfg, Pol(), s);
      NoneCached(promptLens, was, cached, Copied(reach));
      computed', logical', taken := computed, logical, [];
      for i := 0 to |cached|
        invariant Running(computed', logical')
        invariant taken == CachedMoves(promptLens, was, cached, Copied(reach), i)
        invariant Makes(cfg, Pol(), s, taken, View(computed', logical'))
        invariant prefillCompleted == DoneCached(promptLens, was, cached, i)
        invariant HandedFrom(reqToBlocks, reqBlockTable, computed', hs, n + i) && Tokened(computed', hs, n + i)
        invariant Tokened(computed', hs, n)
      {
        ghost var s1, h := View(computed', logical'), hs[n + i];
        HandedNow(reqToBlocks, reqBlockTable, computed', hs, n + i);
        HandedNext(reqToBlocks, reqBlockTable, computed', hs, n + i, reqToBlocks[h.req]);
        FewerTokened(computed'[h.req := h.tokens], hs, n, n + i + 1);
        DoneCachedNext(promptLens, was, cached, i);
        CachedMovesNext(promptLens, was, cached, Copied(reach), i);
        CachedMovesGrow(promptLens, was, cached, Copied(reach), i + 1, |cached|);
        ghost var more;
        res, logical', more := ServeOne(cached[i], reach, computed', logical');
        computed' := computed'[h.req := h.tokens];
        MakesJoin(cfg, Pol(), s, taken, s1, more, View(computed', logical'));
        PrefixOfSum(taken, more,
                    ServeMoves(promptLens, DoneCached(promptLens, was, cached, i), cached[i], Copied(reach)),
                    CachedMoves(promptLens, was, cached, Copied(reach), |cached|));
        taken := taken + more;
        if res.Err? {
          MakesReaches(cfg, Pol(), s, taken, View(computed', logical'));
          return;
        }
      }
      MakesReaches(cfg, Pol(), s, taken, View(computed', logical'));
      res := Ok(());
    }

    /** A new request whose prefill is over at once. */
    method FinishPrefill(a: NewRequest, reach: (string, Transfer) -> nat, ghost computed: map<string, nat>,
                         ghost logical: map<BlockRef, Page>)
      returns (res: Result<()>, ghost taken: seq<ServingMove>)
      requires Running(computed, logical) && a.req in computed && computed[a.req] == a.tokens
      modifies this`stepStoreAcc, this`prefillCompleted, orchestrator`scored, orchestrator.residency,
               orchestrator.manager.scorer, orchestrator.manager.pool, orchestrator.manager.memory`cpu
      ensures Running(computed, logical)
      ensures Makes(cfg, Pol(), old(View(computed, logical)), taken, View(computed, logical))
      ensures taken == ArrivalOffload(old(prefillCompleted), a, Copied(reach))
      ensures prefillCompleted == old(prefillCompleted) + (if a.promptLen <= a.tokens then {a.req} else {})
      ensures 0.0 <= fraction < 1.0 ==> res.Ok?
    {
      hide Inv, Agree, PoolOk, Trigger, Makes, View, Fits, NoneEmpty, TensorsShaped;
      ghost var s := View(computed, logical);
      taken := [];
      MakesNothing(cfg, Pol(), s);
      res := Ok(());
      if a.tokens >= a.promptLen && a.req !in prefillCompleted {
        res := PrefillDone(a.req, a.tokens, reach(a.req, AfterPrefill), computed, logical);
        ghost var copied := Copied(reach)(a.req, AfterPrefill);
        MakesOffload(cfg, Pol(), s, taken, s, copied, View(computed, logical));
        taken := taken + [OffloadMove(copied)];
        assert taken == [OffloadMove(copied)];
      }
    }

    /** Prefills of new requests that are over at once. */
    method FinishPrefills(arrived: seq<NewRequest>, reach: (string, Transfer) -> nat, ghost hs: seq<Handover>,
                          ghost computed: map<string, nat>, ghost logical: map<BlockRef, Page>)
      returns (res: Result<()>, ghost taken: seq<ServingMove>)
      requires Running(computed, logical) && |arrived| <= |hs| && Tokened(computed, hs, |arrived|)
      requires forall i :: 0 <= i < |arrived| ==> hs[i] == Arrival(arrived[i])
      modifies this`stepStoreAcc, this`prefillCompleted, orchestrator`scored, orchestrator.residency,
               orchestrator.manager.scorer, orchestrator.manager.pool, orchestrator.manager.memory`cpu
      ensures Running(computed, logical) && Reaches(cfg, old(View(computed, logical)), View(computed, logical))
      ensures Makes(cfg, Pol(), old(View(computed, logical)), taken, View(computed, logical))
      ensures taken <= PrefillMoves(old(prefillCompleted), arrived, Copied(reach), |arrived|)
      ensures res.Ok? ==> taken == PrefillMoves(old(prefillCompleted), arrived, Copied(reach), |arrived|)
      ensures res.Ok? ==> prefillCompleted == DoneArrived(old(prefillCompleted), arrived, |arrived|)
      ensures 0.0 <= fraction < 1.0 ==> res.Ok?
    {
      hide Inv, Agree, PoolOk, Reaches, Trigger, PageShape, Makes, DoneArrived, View, Fits, NoneEmpty, TensorsShaped,
           ArrivalOffload, Pol;
      ghost var s, was := View(computed, logical), prefillCompleted;
      MakesNothing(cfg, Pol(), s);
      NoneArrived(was, arrived);
      taken := [];
      for i := 0 to |arrived|
        invariant Running(computed, logical)
        invariant taken == PrefillMoves(was, arrived, Copied(reach), i)
        invariant Makes(cfg, Pol(), s, taken, View(computed, logical))
        invariant prefillCompleted == DoneArrived(was, arrived, i)
      {
        assert hs[i].req in computed;
        DoneArrivedNext(was, arrived, i);
        PrefillMovesGrow(was, arrived, Copied(reach), i + 1, |arrived|);
        ghost var s1, more := View(computed, logical), [];
        res, more := FinishPrefill(arrived[i], reach, computed, logical);
        MakesJoin(cfg, Pol(), s, taken, s1, more, View(computed, logical));
        taken := taken + more;
        if res.Err? {
          MakesReaches(cfg, Pol(), s, taken, View(computed, logical));
          return;
        }
      }
      MakesReaches(cfg, Pol(), s, taken, View(computed, logical));
      res := Ok(());
    }

    /** The first half of a step: every request of it is synced, and what is due is offloaded. */
    method ServeAll(arrived: seq<NewRequest>, cached: seq<CachedRequest>, reach: (string, Transfer) -> nat,
                    ghost computed: map<string, nat>, ghost logical: map<BlockRef, Page>)
      returns (res: Result<()>, ghost computed': map<string, nat>, ghost logical': map<BlockRef, Page>,
               ghost taken: seq<ServingMove>)
      requires Running(computed, logical)
      requires HandedFrom(reqToBlocks, reqBlockTable, computed, AllHandovers(arrived, cached), 0)
      modifies this`reqBlockTable, this`promptLens, this`stepStoreAcc, this`prefillCompleted,
               orchestrator`requestBlocks,
               orchestrator`scored, orchestrator.residency, orchestrator.manager.scorer, orchestrator.manager.pool,
               orchestrator.manager.memory`cpu
      ensures Running(computed', logical') && Reaches(cfg, old(View(computed, logical)), View(computed', logical'))
      ensures res.Ok? ==> Tokened(computed', AllHandovers(arrived, cached), |arrived| + |cached|)
      ensures promptLens == PromptsAfter(old(promptLens), arrived, |arrived|)
      ensures Makes(cfg, Pol(), old(View(computed, logical)), taken, View(computed', logical'))
      ensures taken <= ServingMoves(old(promptLens), old(prefillCompleted), arrived, cached, Copied(reach))
      ensures res.Ok? ==>
        && taken == ServingMoves(old(promptLens), old(prefillCompleted), arrived, cached, Copied(reach))
        && prefillCompleted == DoneAfter(old(promptLens), old(prefillCompleted), arrived, cached)
      ensures 0.0 <= fraction < 1.0 ==> res.Ok?
    {
      hide Inv, Agree, PoolOk, Reaches, HandedFrom, PageShape, Tokened, Makes, ArriveMoves, CachedMoves, PrefillMoves,
           DoneCached, DoneArrived, PromptsAfter, View;
      ghost var hs, s := AllHandovers(arrived, cached), View(computed, logical);
      computed', logical' := SyncArrivals(arrived, hs, computed, logical);
      ghost var s1, first := View(computed', logical'), ArriveMoves(arrived, |arrived|);
      ghost var more;
      res, computed', logical', more := ServeCached(cached, reach, hs, |arrived|, computed', logical');
      ghost var s2 := View(computed', logical');
      MakesJoin(cfg, Pol(), s, first, s1, more, s2);
      taken := first + more;
      if res.Err? {
        MakesReaches(cfg, Pol(), s, taken, s2);
        return;
      }
      FewerTokened(computed', hs, |arrived|, |hs|);
      res, more := FinishPrefills(arrived, reach, hs, computed', logical');
      MakesJoin(cfg, Pol(), s, taken, s2, more, View(computed', logical'));
      taken := taken + more;
      MakesReaches(cfg, Pol(), s, taken, View(computed', logical'));
    }

    lemma RecordedSoFar(computed: map<string, nat>, logical: map<BlockRef, Page>)
      requires Running(computed, logical)
      ensures View(computed, logical).acc == [] <==> stepStoreAcc == []
      ensures View(computed, logical).nextEvent == storeEventCounter
      ensures View(computed, logical).pending == pendingStoreEvents
      ensures NoneEmpty(stepStoreAcc)
    {
      hide Inv, Agree, PoolOk, Fits;
      NothingRecorded(stepStoreAcc);
    }

    /** A whole scheduling step of the connector: the moves the script spells out from what is handed over, in
        that order, and then one store event for everything that left, if anything did. A raised error stops
        the step where it is. */
    method BuildConnectorMeta(arrived: seq<NewRequest>, cached: seq<CachedRequest>, reach: (string, Transfer) -> nat,
                              ghost computed: map<string, nat>, ghost logical: map<BlockRef, Page>)
      returns (res: Result<Option<nat>>, ghost computed': map<string, nat>, ghost logical': map<BlockRef, Page>,
               ghost taken: seq<ServingMove>, ghost served: State)
      requires Running(computed, logical)
      requires HandedFrom(reqToBlocks, reqBlockTable, computed, AllHandovers(arrived, cached), 0)
      modifies this`reqBlockTable, this`promptLens, this`stepStoreAcc, this`prefillCompleted, this`storeEventCounter,
               this`pendingStoreEvents, this`pendingCounts, orchestrator`requestBlocks, orchestrator`scored,
               orchestrator.residency, orchestrator.staging, orchestrator.manager.scorer, orchestrator.manager.pool,
               orchestrator.manager.memory
      ensures Running(computed', logical') && Reaches(cfg, old(View(computed, logical)), View(computed', logical'))
      ensures res.Ok? ==> stepStoreAcc == [] && Tokened(computed', AllHandovers(arrived, cached), |arrived| + |cached|)
      ensures res.Ok? && res.value.Some? ==> res.value.value in pendingStoreEvents
      ensures promptLens == PromptsAfter(old(promptLens), arrived, |arrived|)
      ensures Makes(cfg, Pol(), old(View(computed, logical)), taken, served)
      ensures taken <= StepMoves(cfg, old(promptLens), old(prefillCompleted), arrived, cached, Copied(reach))
      ensures res.Err? ==> View(computed', logical') == served
      ensures res.Ok? ==>
        && taken == StepMoves(cfg, old(promptLens), old(prefillCompleted), arrived, cached, Copied(reach))
        && prefillCompleted == DoneAfter(old(promptLens), old(prefillCompleted), arrived, cached)
        && (if served.acc == [] then res.value == None && View(computed', logical') == served
            else res.value == Some(old(storeEventCounter)) && Flush(served, View(computed', logical')))
      ensures 0.0 <= fraction < 1.0 && (forall q :: Copied(reach)(q, Promotion)) ==> res.Ok?
    {
      hide Inv, Agree, PoolOk, Reaches, HandedFrom, PageShape, Tokened, Flush, Makes, ServingMoves, DoneAfter,
           PromoteMoves, PromptsAfter, Promotions, View, Fits, NoneEmpty, TensorsShaped, Pol;
      ghost var s := View(computed, logical);
      RecordedSoFar(computed, logical);
      var did: Result<()>;
      did, computed', logical', taken := ServeAll(arrived, cached, reach, computed, logical);
      served := View(computed', logical');
      if did.Err? { return Err(did.error), computed', logical', taken, served; }
      ghost var s1, more := served, [];
      ActivePromotions(prefillCompleted, cached, Copied(reach), |cached|);
      assert cached[..|cached|] == cached;
      did, more := PromoteActive(ActiveOf(cached, prefillCompleted), reach, computed', logical');
      served := View(computed', logical');
      MakesJoin(cfg, Pol(), s, taken, s1, more, served);
      taken := taken + more;
      MakesReaches(cfg, Pol(), s, taken, served);
      if did.Err? { return Err(did.error), computed', logical', taken, served; }
      MakesRecords(cfg, Pol(), s, taken, served);
      RecordedSoFar(computed', logical');
      var event := FlushStoreEvents(computed', logical');
      if event.Some? {
        FlushReaches(cfg, s, served, View(computed', logical'));
        RecordedSoFar(computed', logical');
      }
      res := Ok(event);
    }

    /** The worker's lag prefetch, as a step of the engine or none. */
    method PrefetchStep(reqs: seq<string>, idx: Tensor<int>, len: Tensor<int>, reach: nat,
                        ghost computed: map<string, nat>, ghost logical: map<BlockRef, Page>)
      returns (res: Result<map<BlockRef, nat>>, ghost needed: seq<Touch>,
               ghost out: Result<(map<BlockRef, nat>, seq<BlockRef>)>)
      requires Running(computed, logical) && Shaped(idx) && Shaped(len) && 0 < cfg.pageSize
      modifies orchestrator`lagSeenCpuVersion, orchestrator.staging, orchestrator.residency,
               orchestrator.manager.memory`gpu
      ensures Running(computed, logical)
      ensures PrefetchEffect(cfg.d, cfg.base, cfg.pageSize, old(orchestrator.lagSeenCpuVersion), reqs, idx, len,
                             cfg.d.layers <= reach, needed, out, old(orchestrator.View()), res, orchestrator.View())
      ensures View(computed, logical) == old(View(computed, logical)) ||
        Stage(cfg, old(View(computed, logical)), Filter(OnCpuOnly(old(orchestrator.residency.blocks)), RefsIn(needed)),
              cfg.d.layers <= reach, View(computed, logical))
    {
      hide Inv, Agree, PoolOk, PageShape, Settled, CopiesWithin, PagesWithin, SlotsWithin, IsWarmup, PrefetchEffect,
           Stage, Shaped, Filter;
      ghost var s, seen := View(computed, logical), orchestrator.lagSeenCpuVersion;
      RunningIsValid(computed, logical);
      res, needed, out := orchestrator.PrepareStaging(reqs, idx, len, reach);
      PagesShaped();
      ghost var s' := View(computed, logical);
      PrefetchedIsStage(cfg, s, seen, reqs, idx, len, cfg.d.layers <= reach, needed, out, res, s'.core);
      assert s' == s.(core := s'.core);
      if s' != s {
        StageKeepsInv(cfg, s, Filter(OnCpuOnly(s.core.table.blocks), RefsIn(needed)), cfg.d.layers <= reach, s');
      }
    }
  }

  /** In a state of the engine a legal fraction is all an offload needs. */
  lemma LegalChoice(cfg: Config, s: State, fraction: real, copied: bool, s': State)
    requires Inv(cfg, s) && Trigger(cfg, s, fraction, copied, s')
    ensures FractionChoice(s.core.table.blocks, s'.core.scores, Candidates(cfg, s), fraction, s'.core.scored).Ok? <==>
      0.0 <= fraction < 1.0
  {
    hide Inv, NothingOffloaded, CanOffload, Offloaded, Candidates, EntriesFor, Rescored, Filter;
    InvParts(cfg, s);
    CandidatesAreScored(cfg, s);
    if 0.0 <= fraction < 1.0 {
      TriggerChoiceIsOk(cfg, s, s'.core.scores, fraction);
    }
  }

  lemma ArriveMovesStart(arrived: seq<NewRequest>)
    ensures ArriveMoves(arrived, 0) == []
  {
  }

  lemma ArriveMovesNext(arrived: seq<NewRequest>, i: nat)
    requires i < |arrived|
    ensures ArriveMoves(arrived, i + 1) == ArriveMoves(arrived, i) + [SyncMove(arrived[i].req, arrived[i].tokens)]
  {
  }

  lemma NoneCached(prompts: map<string, nat>, done: set<string>, cached: seq<CachedRequest>, copied: Copies)
    ensures DoneCached(prompts, done, cached, 0) == done && CachedMoves(prompts, done, cached, copied, 0) == []
  {
  }

  lemma NoneArrived(done: set<string>, arrived: seq<NewRequest>)
    ensures DoneArrived(done, arrived, 0) == done
  {
  }

  lemma NoneTokened(computed: map<string, nat>, hs: seq<Handover>)
    ensures Tokened(computed, hs, 0)
  {
  }

  lemma FewerTokened(computed: map<string, nat>, hs: seq<Handover>, n: nat, m: nat)
    requires n <= m <= |hs| && Tokened(computed, hs, m)
    ensures Tokened(computed, hs, n)
  {
  }

  lemma PrefixOfSum<T>(done: seq<T>, more: seq<T>, all: seq<T>, whole: seq<T>)
    requires more <= all && done + all <= whole
    ensures done + more <= whole
  {
  }

  lemma NothingRecorded(batches: seq<seq<Entry>>)
    requires NoneEmpty(batches)
    ensures Flatten(batches) == [] <==> batches == []
  {
    if batches != [] {
      assert batches[|batches| - 1] != [];
    }
  }

  lemma FlattenSnoc<T>(ss: seq<seq<T>>, s: seq<T>)
    ensures Flatten(ss + [s]) == Flatten(ss) + s
  {
    assert (ss + [s])[..|ss|] == ss;
  }

  /** Offloaded blocks still name the page they came from. */
  lemma OffloadKeepsPages(d: Dims, gpu: seq<Page>, before: Store, chosen: seq<BlockRef>)
    requires CanOffload(before, gpu, chosen)
    ensures var t, t' := before.table, Offloaded(d, gpu, before, chosen).table;
      forall i :: 0 <= i < |chosen| ==>
        && chosen[i] in t.blocks && t.blocks[chosen[i]].gpu.Some?
        && chosen[i] in t'.blocks && t'.blocks[chosen[i]].gpu == t.blocks[chosen[i]].gpu
  {
    OffloadedMoves(d, gpu, before, chosen);
    hide Offloaded;
  }

  lemma EntriesAgree(t: Table, t': Table, refs: seq<BlockRef>)
    requires forall i :: 0 <= i < |refs| ==>
      && refs[i] in t.blocks && t.blocks[refs[i]].gpu.Some?
      && refs[i] in t'.blocks && t'.blocks[refs[i]].gpu == t.blocks[refs[i]].gpu
    ensures EntriesFor(t, refs) == EntriesFor(t', refs)
  {
  }

  lemma SurgeryNext(cfg: Config, s: State, es: seq<Entry>, i: nat)
    requires i < |es|
    ensures SurgeryN(cfg, s, es, i + 1) == Surgery(cfg, SurgeryN(cfg, s, es, i), es[i])
  {
  }
}
