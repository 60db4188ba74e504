/** An offload trigger: rescoring, choice of the coldest fraction, copy and publication. */
module EngineOffload {
  import opened Blocks
  import opened Ranking
  import opened Residencies
  import opened Layout
  import opened Memory
  import opened Scoring
  import opened Moves
  import opened Offloading
  import opened Staging
  import opened Engine
  import opened EngineTables
  import opened EngineWrites

  ghost predicate OwnsAlone(s: State, r: BlockRef) {
    && r in s.core.table.blocks && s.core.table.blocks[r].gpu.Some?
    && s.core.table.blocks[r].gpu.value < |s.refCnt| && s.refCnt[s.core.table.blocks[r].gpu.value] == 1
  }

  /** The candidates are the complete blocks on the GPU; with true freeing, those alone on their page. None
      comes twice. */
  lemma CandidateFacts(cfg: Config, s: State)
    requires TableOk(s.core.table)
    ensures Distinct(Candidates(cfg, s))
    ensures forall r :: r in Candidates(cfg, s) <==>
      && Resides(s.core.table, r, GPU) && s.core.table.blocks[r].complete
      && (cfg.trueFree ==> OwnsAlone(s, r))
    ensures forall r :: SoleOwned(s.core.table.blocks, s.refCnt)(r) <==> OwnsAlone(s, r)
  {
    assert forall r :: r in s.core.table.order <==> r in s.core.table.blocks by {
      forall r ensures r in s.core.table.order <==> r in s.core.table.blocks {
        assert r in ToSet(s.core.table.order) <==> r in s.core.table.blocks.Keys;
      }
    }
    var all := GpuBlocks(s.core.table, true);
    FilterElements(IsGpu(s.core.table.blocks, true), s.core.table.order);
    FilterElements(SoleOwned(s.core.table.blocks, s.refCnt), all);
  }

  /** In every reachable state all candidates are scored already, so "must all be scored" cannot fire. */
  lemma CandidatesAreScored(cfg: Config, s: State)
    requires TableOk(s.core.table) && ScoredExactly(s.core)
    ensures s.core.scored + ToSet(Candidates(cfg, s)) == s.core.scored
    ensures s.core.scores.Keys + ToSet(Candidates(cfg, s)) == s.core.scores.Keys
  {
    hide TableOk, Candidates;
    CandidateFacts(cfg, s);
    forall r | r in Candidates(cfg, s) ensures r in s.core.scored && r in s.core.scores {
      assert IsComplete(s.core.table, r);
    }
  }

  /** The selection never raises: every eligible candidate has a score. */
  lemma TriggerChoiceIsOk(cfg: Config, s: State, scores: map<BlockRef, real>, fraction: real)
    requires TableOk(s.core.table) && ScoredExactly(s.core)
    requires scores.Keys == s.core.scores.Keys && 0.0 <= fraction < 1.0
    ensures FractionChoice(s.core.table.blocks, scores, Candidates(cfg, s), fraction, s.core.scored).Ok?
  {
    hide TableOk, Candidates, FractionChoice, AreColdest;
    CandidateFacts(cfg, s);
    var cands, keep := Candidates(cfg, s), Eligible(s.core.table.blocks, s.core.scored);
    FractionChoiceIsColdest(s.core.table.blocks, scores, cands, fraction, s.core.scored);
    FilterElements(keep, cands);
    forall r | r in Filter(keep, cands) ensures r in scores.Keys {
      assert IsComplete(s.core.table, r);
    }
  }

  ghost predicate OffloadMoves(t: Table, chosen: seq<BlockRef>, slots: seq<nat>, t': Table) {
    && |slots| == |chosen| && t'.blocks.Keys == t.blocks.Keys
    && (forall i :: 0 <= i < |chosen| ==>
          chosen[i] in t.blocks && t'.blocks[chosen[i]] == OnCpu(t.blocks[chosen[i]], slots[i]))
    && (forall r :: r in t.blocks && r !in chosen ==> t'.blocks[r] == t.blocks[r])
    && t'.version == t.version + |chosen|
  }

  /** All chosen blocks become CPU at the popped slots; no other block moves. */
  lemma OffloadedMoves(d: Dims, gpu: seq<Page>, before: Store, chosen: seq<BlockRef>)
    requires CanOffload(before, gpu, chosen)
    ensures OffloadMoves(before.table, chosen, Popped(before.free, |chosen|), Offloaded(d, gpu, before, chosen).table)
  {
    hide PutN, Scatter, Distinct, OffloadMoves;
    PutIsOffload(before.table, chosen, Popped(before.free, |chosen|));
  }

  lemma PutIsOffload(t: Table, chosen: seq<BlockRef>, slots: seq<nat>)
    requires |slots| == |chosen| && Distinct(chosen) && AllTracked(t, chosen)
    requires forall i :: 0 <= i < |chosen| ==> Resides(t, chosen[i], GPU)
    ensures OffloadMoves(t, chosen, slots, PutN(t, chosen, CpuLocations(t, chosen, slots), |chosen|))
  {
    hide PutN, Distinct;
    var locs := CpuLocations(t, chosen, slots);
    PutAllFacts(t, chosen, locs);
    AllFlip(t, chosen, locs, |chosen|, true);
    forall r | r in ToSet(chosen) ensures r in t.blocks {
      var i :| 0 <= i < |chosen| && chosen[i] == r;
      assert Resides(t, chosen[i], GPU);
    }
    assert t.blocks.Keys + ToSet(chosen) == t.blocks.Keys;
  }

  /** What the offload leaves in CPU memory: the chosen pages, recoverable; the rest as it was. */
  lemma OffloadedCopies(d: Dims, gpu: seq<Page>, before: Store, chosen: seq<BlockRef>)
    requires CanOffload(before, gpu, chosen)
    requires forall i :: 0 <= i < |chosen| ==> PageShape(d, gpu[before.table.blocks[chosen[i]].gpu.value])
    ensures var after, slots := Offloaded(d, gpu, before, chosen), Popped(before.free, |chosen|);
      && |after.cpu| == |before.cpu|
      && (forall i :: 0 <= i < |chosen| ==>
            && slots[i] < |after.cpu|
            && Unpack(d, after.cpu[slots[i]]) == gpu[before.table.blocks[chosen[i]].gpu.value])
      && (forall x :: 0 <= x < |before.cpu| && x !in before.free ==> after.cpu[x] == before.cpu[x])
  {
    hide PutN, Unpack, Pack, Scatter, PageShape;
    var n, slots, gids := |chosen|, Popped(before.free, |chosen|), PagesOf(before.table, chosen);
    forall i | 0 <= i < n ensures slots[i] in before.free {
    }
    PoppedFacts(before.free, n);
    StoreThenFetch(d, gpu, before.cpu, gids, slots);
    var stored := Scatter(before.cpu, slots, PackEach(d, gpu, gids), n);
    forall i | 0 <= i < n ensures Unpack(d, stored[slots[i]]) == gpu[gids[i]] {
      assert UnpackEach(d, stored, slots)[i] == Unpack(d, stored[slots[i]]);
    }
    ScatterFacts(before.cpu, slots, PackEach(d, gpu, gids), n);
    assert slots[..n] == slots;
  }

  lemma OffloadedPartition(t: Table, free: seq<nat>, n: nat, chosen: seq<BlockRef>, t': Table)
    requires CopiesPartition(t.blocks, free, n) && |chosen| <= |free| && Distinct(chosen)
    requires OffloadMoves(t, chosen, Popped(free, |chosen|), t')
    requires forall r :: r in chosen ==> r in t.blocks && t.blocks[r].cpuSlot == None
    ensures CopiesPartition(t'.blocks, free[..|free| - |chosen|], n)
  {
    hide OffloadMoves;
    var k, b' := |chosen|, t'.blocks;
    PoppedFacts(free, k);
    hide Popped, Distinct;
    var rest := free[..|free| - k];
    forall x | x in rest ensures x < n {
      assert x in free;
    }
    forall r | r in b' && b'[r].cpuSlot.Some? ensures b'[r].cpuSlot.value < n && b'[r].cpuSlot.value !in rest {
      OffloadedSlotOf(t, free, n, chosen, t', r);
    }
    forall r, q | r in b' && q in b' && b'[r].cpuSlot.Some? && b'[r].cpuSlot == b'[q].cpuSlot ensures r == q {
      OffloadedApart(t, free, n, chosen, t', r, q);
    }
    forall x | 0 <= x < n && x !in rest ensures exists r :: r in b' && b'[r].cpuSlot == Some(x) {
      OffloadedCovered(t, free, n, chosen, t', x);
    }
  }

  lemma OffloadedApart(t: Table, free: seq<nat>, n: nat, chosen: seq<BlockRef>, t': Table, r: BlockRef, q: BlockRef)
    requires CopiesPartition(t.blocks, free, n) && |chosen| <= |free| && Distinct(Popped(free, |chosen|))
    requires OffloadMoves(t, chosen, Popped(free, |chosen|), t')
    requires forall s :: s in Popped(free, |chosen|) ==> s in free && s !in free[..|free| - |chosen|]
    requires r in t'.blocks && q in t'.blocks && t'.blocks[r].cpuSlot.Some?
    requires t'.blocks[r].cpuSlot == t'.blocks[q].cpuSlot
    ensures r == q
  {
    hide CopiesPartition, Popped, Distinct;
    OffloadedSlotOf(t, free, n, chosen, t', r);
    OffloadedSlotOf(t, free, n, chosen, t', q);
    if r in chosen {
      ChosenApart(t, chosen, Popped(free, |chosen|), t', r, q);
    } else {
      assert t'.blocks[r] == t.blocks[r] && t'.blocks[q] == t.blocks[q];
      CopiesUnique(t.blocks, free, n, r, q);
    }
  }

  lemma ChosenApart(t: Table, chosen: seq<BlockRef>, slots: seq<nat>, t': Table, r: BlockRef, q: BlockRef)
    requires OffloadMoves(t, chosen, slots, t') && Distinct(slots) && r in chosen && q in chosen
    requires r in t'.blocks && q in t'.blocks && t'.blocks[r].cpuSlot == t'.blocks[q].cpuSlot
    ensures r == q
  {
    var i :| 0 <= i < |chosen| && chosen[i] == r;
    var j :| 0 <= j < |chosen| && chosen[j] == q;
    assert t'.blocks[chosen[i]] == OnCpu(t.blocks[chosen[i]], slots[i]);
    assert t'.blocks[chosen[j]] == OnCpu(t.blocks[chosen[j]], slots[j]);
  }

  lemma CopiesUnique(blocks: map<BlockRef, Location>, free: seq<nat>, n: nat, r: BlockRef, q: BlockRef)
    requires CopiesPartition(blocks, free, n) && r in blocks && q in blocks
    requires blocks[r].cpuSlot.Some? && blocks[r].cpuSlot == blocks[q].cpuSlot
    ensures r == q
  {
  }

  lemma OffloadedCovered(t: Table, free: seq<nat>, n: nat, chosen: seq<BlockRef>, t': Table, x: nat)
    requires CopiesPartition(t.blocks, free, n) && |chosen| <= |free|
    requires OffloadMoves(t, chosen, Popped(free, |chosen|), t')
    requires forall r :: r in chosen ==> r in t.blocks && t.blocks[r].cpuSlot == None
    requires forall s :: s in free <==> s in free[..|free| - |chosen|] || s in Popped(free, |chosen|)
    requires x < n && x !in free[..|free| - |chosen|]
    ensures exists r :: r in t'.blocks && t'.blocks[r].cpuSlot == Some(x)
  {
    var slots := Popped(free, |chosen|);
    if x in slots {
      var i :| 0 <= i < |chosen| && slots[i] == x;
      assert chosen[i] in t'.blocks && t'.blocks[chosen[i]].cpuSlot == Some(x);
    } else {
      var r :| r in t.blocks && t.blocks[r].cpuSlot == Some(x);
      assert r in t'.blocks && t'.blocks[r].cpuSlot == Some(x);
    }
  }

  lemma OffloadedSlotOf(t: Table, free: seq<nat>, n: nat, chosen: seq<BlockRef>, t': Table, r: BlockRef)
    requires CopiesPartition(t.blocks, free, n) && |chosen| <= |free|
    requires OffloadMoves(t, chosen, Popped(free, |chosen|), t')
    requires forall s :: s in Popped(free, |chosen|) ==> s in free && s !in free[..|free| - |chosen|]
    requires r in t'.blocks && t'.blocks[r].cpuSlot.Some?
    ensures t'.blocks[r].cpuSlot.value < n && t'.blocks[r].cpuSlot.value !in free[..|free| - |chosen|]
    ensures r in chosen <==> t'.blocks[r].cpuSlot.value in Popped(free, |chosen|)
  {
    var slots := Popped(free, |chosen|);
    if r in chosen {
      var i :| 0 <= i < |chosen| && chosen[i] == r;
      assert t'.blocks[chosen[i]] == OnCpu(t.blocks[chosen[i]], slots[i]);
      assert slots[i] in slots;
    }
  }

  /** Blocks that move to the CPU, as the invariants see them. */
  ghost predicate ChosenOk(cfg: Config, s: State, chosen: seq<BlockRef>) {
    && Distinct(chosen)
    && (forall r :: r in chosen ==> Resides(s.core.table, r, GPU) && s.core.table.blocks[r].complete)
  }

  lemma OffloadedTableOk(d: Dims, gpu: seq<Page>, before: Store, chosen: seq<BlockRef>)
    requires CanOffload(before, gpu, chosen) && TableOk(before.table)
    ensures TableOk(Offloaded(d, gpu, before, chosen).table)
  {
    hide TableOk, PutN, Scatter;
    PutNTableOk(before.table, chosen, CpuLocations(before.table, chosen, Popped(before.free, |chosen|)), |chosen|);
  }

  lemma OffloadedCoreInv(cfg: Config, s: State, chosen: seq<BlockRef>, s': State)
    requires CoreInv(cfg, s) && ChosenOk(cfg, s, chosen) && |chosen| <= |s.core.cpuFree|
    requires OffloadMoves(s.core.table, chosen, Popped(s.core.cpuFree, |chosen|), s'.core.table)
    requires TableOk(s'.core.table) && s'.core.pool == s.core.pool
    requires s'.core.cpuFree == s.core.cpuFree[..|s.core.cpuFree| - |chosen|]
    ensures CoreInv(cfg, s')
  {
    hide TableOk, CopiesPartition, Partition, Distinct, Popped;
    OffloadedPartition(s.core.table, s.core.cpuFree, cfg.cpuSlots, chosen, s'.core.table);
    OffloadedResidency(s.core.table, chosen, Popped(s.core.cpuFree, |chosen|), s'.core.table);
    hide OffloadMoves;
  }

  lemma OffloadedResidency(t: Table, chosen: seq<BlockRef>, slots: seq<nat>, t': Table)
    requires OffloadMoves(t, chosen, slots, t') && forall r :: r in chosen ==> Resides(t, r, GPU)
    ensures forall r :: r in t.blocks ==> r in t'.blocks && t'.blocks[r].complete == t.blocks[r].complete
    ensures forall r :: r in t.blocks ==> t'.blocks[r].gpu == t.blocks[r].gpu
    ensures forall r :: r in t.blocks && r in chosen ==> t'.blocks[r].residency == CPU
    ensures forall r :: r in t.blocks && r !in chosen ==> t'.blocks[r] == t.blocks[r]
    ensures forall r :: Resides(t', r, STAGING) <==> Resides(t, r, STAGING)
    ensures forall r :: Resides(t, r, STAGING) ==> t'.blocks[r] == t.blocks[r]
  {
    forall r | r in t.blocks && r in chosen
      ensures t'.blocks[r].residency == CPU && t'.blocks[r].gpu == t.blocks[r].gpu
      ensures t'.blocks[r].complete == t.blocks[r].complete
    {
      var i :| 0 <= i < |chosen| && chosen[i] == r;
      assert t'.blocks[chosen[i]] == OnCpu(t.blocks[chosen[i]], slots[i]);
    }
  }

  /** The part of a move the placement, fill and event invariants read: blocks keep page and fill
      state, and never return to the GPU. */
  ghost predicate SameFill(t: Table, t': Table) {
    && t'.blocks.Keys == t.blocks.Keys
    && (forall r :: r in t.blocks ==>
          && t'.blocks[r].gpu == t.blocks[r].gpu && t'.blocks[r].complete == t.blocks[r].complete
          && (t'.blocks[r].residency == GPU ==> t.blocks[r].residency == GPU)
          && (t'.blocks[r].residency != GPU && t.blocks[r].residency == GPU ==> t.blocks[r].complete))
  }

  /** Moves among the three places keep every invariant about fill state, placement, scores, counts. */
  lemma MovesKeep(cfg: Config, s: State, s': State)
    requires Inv(cfg, s) && SameFill(s.core.table, s'.core.table)
    requires s'.core == s.core.(table := s'.core.table, pool := s'.core.pool, cpuFree := s'.core.cpuFree,
                                gpu := s'.core.gpu, cpu := s'.core.cpu, scores := s'.core.scores)
    requires s'.core.scores.Keys == s.core.scores.Keys
    requires |s'.core.gpu| == |s.core.gpu| && |s'.core.cpu| == |s.core.cpu|
    requires s' == s.(core := s'.core)
    ensures Sized(cfg, s') && Tracked(s') && Filled(cfg, s') && ScoredExactly(s'.core)
    ensures Placed(cfg, s') && Counted(cfg, s') && EventsSafe(cfg, s')
  {
    hide CoreInv, AllIntact, Holders, EventsSafe, Placed, Listed, Mirrored, Members, Filled, ScoredExactly, Counted,
         SameFill;
    MovesKeepPlacement(cfg, s, s');
    MovesKeepEvents(cfg, s, s');
    MovesKeepLists(s, s');
    MovesKeepFill(cfg, s, s');
    MovesKeepScores(s.core, s'.core);
    CountsUnchanged(cfg, s, s');
  }

  lemma MovesKeepFill(cfg: Config, s: State, s': State)
    requires Filled(cfg, s) && Members(s.core) && SameFill(s.core.table, s'.core.table)
    requires s'.computed == s.computed && s'.tables == s.tables && s'.core.reqBlocks == s.core.reqBlocks
    ensures Filled(cfg, s') && Members(s'.core) && s'.core.table.blocks.Keys == s.core.table.blocks.Keys
  {
    hide Full;
    var b, b' := s.core.table.blocks, s'.core.table.blocks;
    forall r ensures r in b' <==> r in b {
      assert r in b'.Keys <==> r in b.Keys;
    }
  }

  lemma MovesKeepScores(c: Core, c': Core)
    requires ScoredExactly(c) && SameFill(c.table, c'.table) && c'.scored == c.scored && c'.scores.Keys == c.scores.Keys
    ensures ScoredExactly(c')
  {
    forall r ensures IsComplete(c'.table, r) <==> IsComplete(c.table, r) {
      assert r in c'.table.blocks.Keys <==> r in c.table.blocks.Keys;
    }
    forall r ensures r in c'.scores <==> r in c.scores {
      assert r in c'.scores.Keys <==> r in c.scores.Keys;
    }
  }

  lemma MovesKeepLists(s: State, s': State)
    requires Listed(s.core, s.tables) && Mirrored(s)
    requires s'.core.reqBlocks == s.core.reqBlocks && s'.tables == s.tables && s'.mirror == s.mirror
    ensures Listed(s'.core, s'.tables) && Mirrored(s')
  {
  }

  lemma MovesKeepPlacement(cfg: Config, s: State, s': State)
    requires Placed(cfg, s) && SameFill(s.core.table, s'.core.table) && s'.tables == s.tables
    ensures Placed(cfg, s')
  {
    forall r | r in s'.core.table.blocks ensures r in s.core.table.blocks {
      assert r in s.core.table.blocks.Keys;
    }
    forall r | r in s.core.table.blocks ensures r in s'.core.table.blocks {
      assert r in s'.core.table.blocks.Keys;
    }
  }

  lemma MovesKeepEvents(cfg: Config, s: State, s': State)
    requires EventsSafe(cfg, s) && SameFill(s.core.table, s'.core.table)
    requires s'.tables == s.tables && s'.acc == s.acc && s'.pending == s.pending && s'.nextEvent == s.nextEvent
    ensures EventsSafe(cfg, s')
  {
    forall e | EntrySafe(cfg, s, e) ensures EntrySafe(cfg, s', e) {
      assert e.ref in s.core.table.blocks <==> e.ref in s'.core.table.blocks.Keys;
    }
  }

  /** A published copy holds the page's contents; every earlier copy is untouched. */
  lemma OffloadedIntact(cfg: Config, s: State, chosen: seq<BlockRef>, s': State)
    requires AllIntact(cfg, s) && Placed(cfg, s) && CoreInv(cfg, s) && ChosenOk(cfg, s, chosen)
    requires CanOffload(StoreOf(s.core), s.core.gpu, chosen)
    requires StoreOf(s'.core) == Offloaded(cfg.d, s.core.gpu, StoreOf(s.core), chosen)
    requires s'.core.gpu == s.core.gpu && s'.tables == s.tables && s'.logical == s.logical
    ensures AllIntact(cfg, s')
  {
    hide CoreInv, PageShape, Placed, Offloaded, Distinct, Intact;
    var before := StoreOf(s.core);
    var slots := Popped(before.free, |chosen|);
    hide CanOffload, Popped;
    ShapedPages(cfg, s, chosen);
    OffloadedMoves(cfg.d, s.core.gpu, before, chosen);
    OffloadedCopies(cfg.d, s.core.gpu, before, chosen);
    forall r | r in s'.core.table.blocks ensures Intact(cfg, s'.core, s'.tables, s'.logical, r) {
      assert r in s.core.table.blocks.Keys;
      StagedSlotNotFree(cfg, s, r);
      if r in chosen {
        GpuEntry(cfg, s, r);
        var i :| 0 <= i < |chosen| && chosen[i] == r;
        ChosenIntact(cfg, s, chosen, slots, i, s');
      } else {
        KeptIntact(cfg, s, r, s');
      }
    }
  }

  lemma ChosenIntact(cfg: Config, s: State, chosen: seq<BlockRef>, slots: seq<nat>, i: nat, s': State)
    requires i < |chosen| && Intact(cfg, s.core, s.tables, s.logical, chosen[i])
    requires OffloadMoves(s.core.table, chosen, slots, s'.core.table)
    requires s'.core.gpu == s.core.gpu && s'.tables == s.tables && s'.logical == s.logical
    requires var r := chosen[i];
      && HasEntry(s.tables, r) && EntryOf(s.tables, r) != cfg.nullPage
      && s.core.table.blocks[r].gpu == Some(EntryOf(s.tables, r))
      && slots[i] < |s'.core.cpu| && EntryOf(s.tables, r) < |s.core.gpu|
      && Unpack(cfg.d, s'.core.cpu[slots[i]]) == s.core.gpu[EntryOf(s.tables, r)]
    ensures Intact(cfg, s'.core, s'.tables, s'.logical, chosen[i])
  {
    hide Unpack, PageShape;
    assert s'.core.table.blocks[chosen[i]] == OnCpu(s.core.table.blocks[chosen[i]], slots[i]);
  }

  lemma KeptIntact(cfg: Config, s: State, r: BlockRef, s': State)
    requires Intact(cfg, s.core, s.tables, s.logical, r)
    requires r in s'.core.table.blocks && s'.core.table.blocks[r] == s.core.table.blocks[r]
    requires s'.core.gpu == s.core.gpu && s'.tables == s.tables && s'.logical == s.logical
    requires |s'.core.cpu| == |s.core.cpu|
    requires forall x :: 0 <= x < |s.core.cpu| && x !in s.core.cpuFree ==> s'.core.cpu[x] == s.core.cpu[x]
    requires s.core.table.blocks[r].cpuSlot.Some? ==> s.core.table.blocks[r].cpuSlot.value !in s.core.cpuFree
    ensures Intact(cfg, s'.core, s'.tables, s'.logical, r)
  {
    hide Unpack, PageShape;
  }

  lemma GpuEntry(cfg: Config, s: State, r: BlockRef)
    requires Placed(cfg, s) && Resides(s.core.table, r, GPU)
    ensures HasEntry(s.tables, r) && s.core.table.blocks[r].gpu == Some(EntryOf(s.tables, r))
    ensures EntryOf(s.tables, r) != cfg.nullPage && EntryOf(s.tables, r) < cfg.base
  {
  }

  lemma ShapedPages(cfg: Config, s: State, chosen: seq<BlockRef>)
    requires AllIntact(cfg, s) && CanOffload(StoreOf(s.core), s.core.gpu, chosen)
    ensures forall i :: 0 <= i < |chosen| ==>
      && chosen[i] in s.core.table.blocks && s.core.table.blocks[chosen[i]].gpu.Some?
      && s.core.table.blocks[chosen[i]].gpu.value < |s.core.gpu|
      && PageShape(cfg.d, s.core.gpu[s.core.table.blocks[chosen[i]].gpu.value])
  {
    hide PageShape, Intact;
  }

  /** What leaves is recorded with the page it was copied from. */
  lemma OffloadedEvents(cfg: Config, s: State, chosen: seq<BlockRef>, s': State)
    requires EventsSafe(cfg, s) && Placed(cfg, s) && Tracked(s) && ChosenOk(cfg, s, chosen)
    requires SameFill(s.core.table, s'.core.table) && forall r :: r in chosen ==> Resides(s'.core.table, r, CPU)
    requires forall i :: 0 <= i < |chosen| ==>
      chosen[i] in s.core.table.blocks && s.core.table.blocks[chosen[i]].gpu.Some?
    requires s'.tables == s.tables && s'.pending == s.pending && s'.nextEvent == s.nextEvent
    requires s'.acc == s.acc + EntriesFor(s.core.table, chosen)
    ensures EventsSafe(cfg, s')
  {
    hide Placed, SameFill, Tracked;
    var es := EntriesFor(s.core.table, chosen);
    var plain := s'.(acc := s.acc);
    MovesKeepEvents(cfg, s, plain);
    forall e | e in s'.acc ensures EntrySafe(cfg, s', e) {
      if e in s.acc {
        assert EntrySafe(cfg, plain, e);
      } else {
        var i :| 0 <= i < |es| && es[i] == e;
        assert chosen[i] in chosen;
        GpuEntry(cfg, s, chosen[i]);
        TrackedNotWarmup(s, chosen[i]);
      }
    }
    forall k, e | k in s'.pending && e in s'.pending[k] ensures EntrySafe(cfg, s', e) {
      assert EntrySafe(cfg, plain, e);
    }
  }

  lemma TrackedNotWarmup(s: State, r: BlockRef)
    requires Tracked(s) && r in s.core.table.blocks
    ensures !IsWarmup(r.req)
  {
  }

  lemma OffloadedFree(d: Dims, gpu: seq<Page>, before: Store, chosen: seq<BlockRef>)
    requires CanOffload(before, gpu, chosen)
    ensures Offloaded(d, gpu, before, chosen).free == before.free[..|before.free| - |chosen|]
    ensures |Offloaded(d, gpu, before, chosen).cpu| == |before.cpu|
  {
    hide PutN;
  }

  lemma OffloadKeepsCore(cfg: Config, s: State, chosen: seq<BlockRef>, s': State)
    requires CoreInv(cfg, s) && AllIntact(cfg, s) && Placed(cfg, s) && ChosenOk(cfg, s, chosen)
    requires CanOffload(StoreOf(s.core), s.core.gpu, chosen)
    requires StoreOf(s'.core) == Offloaded(cfg.d, s.core.gpu, StoreOf(s.core), chosen)
    requires s'.core.pool == s.core.pool && s'.core.gpu == s.core.gpu && s'.tables == s.tables
    requires s'.logical == s.logical
    ensures CoreInv(cfg, s') && AllIntact(cfg, s') && |s'.core.cpu| == |s.core.cpu|
    ensures SameFill(s.core.table, s'.core.table) && forall r :: r in chosen ==> Resides(s'.core.table, r, CPU)
    ensures forall i :: 0 <= i < |chosen| ==>
      chosen[i] in s.core.table.blocks && s.core.table.blocks[chosen[i]].gpu.Some?
  {
    hide CoreInv, AllIntact, Placed, Offloaded, Distinct, OffloadMoves, TableOk, PageShape, SameFill, PutN, Scatter,
         PackEach, PagesOf, SlotsWithin, Resides, Intact, Settled, CopiesPartition, GpuHoldsNoCopy, HasEntry, EntryOf;
    var before := StoreOf(s.core);
    var slots := Popped(before.free, |chosen|);
    hide CanOffload, Popped;
    OffloadedFree(cfg.d, s.core.gpu, before, chosen);
    OffloadedMoves(cfg.d, s.core.gpu, before, chosen);
    CoreTableOk(cfg, s);
    OffloadedTableOk(cfg.d, s.core.gpu, before, chosen);
    OffloadedCoreInv(cfg, s, chosen, s');
    OffloadedIntact(cfg, s, chosen, s');
    OffloadedFill(s.core.table, chosen, slots, s'.core.table);
    ShapedPages(cfg, s, chosen);
  }

  lemma OffloadKeepsInv(cfg: Config, s: State, chosen: seq<BlockRef>, s': State)
    requires Inv(cfg, s) && ChosenOk(cfg, s, chosen)
    requires CanOffload(StoreOf(s.core), s.core.gpu, chosen)
    requires StoreOf(s'.core) == Offloaded(cfg.d, s.core.gpu, StoreOf(s.core), chosen)
    requires s'.core.scores.Keys == s.core.scores.Keys
    requires s'.core == s.core.(scores := s'.core.scores, table := s'.core.table, cpuFree := s'.core.cpuFree,
                                cpu := s'.core.cpu)
    requires s' == s.(core := s'.core, acc := s.acc + EntriesFor(s.core.table, chosen))
    ensures Inv(cfg, s')
  {
    hide CoreInv, AllIntact, Placed, Offloaded, Filled, ScoredExactly, EventsSafe, Counted, Tracked, CanOffload,
         EntriesFor, SameFill, ChosenOk;
    OffloadKeepsCore(cfg, s, chosen, s');
    OffloadedEvents(cfg, s, chosen, s');
    MovesKeep(cfg, s, s'.(acc := s.acc));
    AccOnly(cfg, s'.(acc := s.acc), s');
  }

  lemma OffloadedFill(t: Table, chosen: seq<BlockRef>, slots: seq<nat>, t': Table)
    requires OffloadMoves(t, chosen, slots, t')
    requires forall r :: r in chosen ==> Resides(t, r, GPU) && t.blocks[r].complete
    ensures SameFill(t, t') && forall r :: r in chosen ==> Resides(t', r, CPU)
  {
    OffloadedResidency(t, chosen, slots, t');
  }

  lemma AccOnly(cfg: Config, s: State, s': State)
    requires s' == s.(acc := s'.acc)
    requires Sized(cfg, s) && Tracked(s) && Filled(cfg, s) && ScoredExactly(s.core)
    requires Placed(cfg, s) && Counted(cfg, s)
    ensures Sized(cfg, s') && Tracked(s') && Filled(cfg, s') && ScoredExactly(s'.core)
    ensures Placed(cfg, s') && Counted(cfg, s')
  {
    hide Members, Listed, Holders;
  }

  /** A trigger that publishes nothing leaves at most garbage in free CPU slots. */
  lemma NoOffloadKeepsInv(cfg: Config, s: State, s': State)
    requires Inv(cfg, s) && NothingOffloaded(StoreOf(s.core), StoreOf(s'.core))
    requires s'.core.scores.Keys == s.core.scores.Keys
    requires s'.core == s.core.(scores := s'.core.scores, table := s'.core.table, cpuFree := s'.core.cpuFree,
                                cpu := s'.core.cpu)
    requires s' == s.(core := s'.core)
    ensures Inv(cfg, s')
  {
    hide Placed, Filled, ScoredExactly, EventsSafe, Counted, Tracked, TableOk, PageShape, Unpack, Settled,
         GpuHoldsNoCopy, Distinct;
    MovesKeep(cfg, s, s');
    assert CopiesPartition(s'.core.table.blocks, s'.core.cpuFree, cfg.cpuSlots);
    forall r | r in s'.core.table.blocks ensures Intact(cfg, s'.core, s'.tables, s'.logical, r) {
      assert Intact(cfg, s.core, s.tables, s.logical, r);
      StagedSlotNotFree(cfg, s, r);
    }
  }

  lemma TriggerKeepsInv(cfg: Config, s: State, fraction: real, copied: bool, s': State)
    requires Inv(cfg, s) && Trigger(cfg, s, fraction, copied, s')
    ensures Inv(cfg, s')
  {
    hide Inv, NothingOffloaded, CanOffload, Offloaded, Candidates, FractionChoice, EntriesFor;
    InvParts(cfg, s);
    CandidatesAreScored(cfg, s);
    var c, cands := s.core, Candidates(cfg, s);
    var choice := FractionChoice(c.table.blocks, s'.core.scores, cands, fraction, c.scored);
    if choice.Ok? && 0 < |choice.value| <= |c.cpuFree| && copied {
      ChoiceIsOk(cfg, s, s'.core.scores, fraction);
      OffloadKeepsInv(cfg, s, choice.value, s');
    } else {
      NoOffloadKeepsInv(cfg, s, s');
    }
  }

  lemma InvParts(cfg: Config, s: State)
    requires Inv(cfg, s)
    ensures TableOk(s.core.table) && ScoredExactly(s.core)
  {
  }

  lemma ChoiceIsOk(cfg: Config, s: State, scores: map<BlockRef, real>, fraction: real)
    requires TableOk(s.core.table)
    requires FractionChoice(s.core.table.blocks, scores, Candidates(cfg, s), fraction, s.core.scored).Ok?
    ensures ChosenOk(cfg, s,
                     FractionChoice(s.core.table.blocks, scores, Candidates(cfg, s), fraction, s.core.scored).value)
  {
    hide TableOk, Candidates, Distinct, Coldest;
    CandidateFacts(cfg, s);
    FractionChoiceIsEligible(s.core.table.blocks, scores, Candidates(cfg, s), fraction, s.core.scored);
  }
}
