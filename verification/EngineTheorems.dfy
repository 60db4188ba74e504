/** The promises the engine makes, over every run. */
module EngineTheorems {
  import opened Blocks
  import opened Ranking
  import opened Residencies
  import opened Layout
  import opened Scoring
  import opened Moves
  import opened Offloading
  import opened Staging
  import opened StagingTheory
  import opened Engine
  import opened EngineTables
  import opened EngineSync
  import opened EngineOffload
  import opened EngineStage
  import opened EngineFinish
  import opened EngineRuns
  import opened EnginePages
  import opened LagGate

  // ------------------------------------------------------------------ lag gate

  lemma SyncGated(cfg: Config, s: State, q: string, computed: nat, s': State)
    requires Inv(cfg, s) && Sync(cfg, s, q, computed, s')
    ensures Gated(s.core.table, s'.core.table) && Freezes(s, s')
  {
    hide CoreInv, Filled, ScoredExactly, AllIntact, EventsSafe, Counted, Tracked, Placed, Full, SyncedTable,
         NewlyScored, NewPages, Holders, SyncEffect, Gated, Freezes;
    SyncSeesTheTable(s, q);
    LogicalIsTracked(s);
    SyncTableEffect(cfg, s, q, computed);
    SyncEffectGated(cfg, s, q, |s.tables[q]|, computed, s'.core.table);
    SyncEffectFreezes(cfg, s, q, |s.tables[q]|, computed, s');
  }

  lemma SyncEffectGated(cfg: Config, s: State, q: string, n: nat, computed: nat, t': Table)
    requires SyncEffect(cfg, s, q, n, computed, t')
    ensures Gated(s.core.table, t')
  {
    hide Full;
    assert OffGpu(t'.blocks) == OffGpu(s.core.table.blocks);
  }

  lemma SyncEffectFreezes(cfg: Config, s: State, q: string, n: nat, computed: nat, s': State)
    requires SyncEffect(cfg, s, q, n, computed, s'.core.table)
    requires forall r :: r in s.logical ==> r in s'.logical && s'.logical[r] == s.logical[r]
    ensures Freezes(s, s')
  {
    hide Full;
  }

  /** The action writes to the page block r is bound to. */
  ghost predicate Touches(s: State, a: Action, r: BlockRef) {
    a.WriteTokens? && HasEntry(s.tables, a.ref) && BoundTo(s.tables, r, EntryOf(s.tables, a.ref))
  }

  /** A block that is full stays full while it is tracked, and its contents change only by writes to its page. */
  ghost predicate FreezesBut(s: State, a: Action, s': State) {
    forall r :: IsComplete(s.core.table, r) && r in s'.core.table.blocks ==>
      && IsComplete(s'.core.table, r)
      && (r in s.logical ==> r in s'.logical && s'.logical[r] == if Touches(s, a, r) then a.contents else s.logical[r])
  }

  lemma FreezesAnyway(s: State, a: Action, s': State)
    requires Freezes(s, s') && !a.WriteTokens?
    ensures FreezesBut(s, a, s')
  {
  }

  /** A block that is full stays full, and its contents are fixed, for as long as it is tracked. */
  ghost predicate Freezes(s: State, s': State) {
    forall r :: IsComplete(s.core.table, r) && r in s'.core.table.blocks ==>
      && IsComplete(s'.core.table, r)
      && (r in s.logical ==> r in s'.logical && s'.logical[r] == s.logical[r])
  }

  lemma FreezesWhenMoved(s: State, s': State)
    requires SameFill(s.core.table, s'.core.table) && s'.logical == s.logical
    ensures Freezes(s, s')
  {
    forall r | IsComplete(s.core.table, r) && r in s'.core.table.blocks ensures IsComplete(s'.core.table, r) {
      assert r in s'.core.table.blocks.Keys;
    }
  }

  lemma TriggerGated(cfg: Config, s: State, fraction: real, copied: bool, s': State)
    requires Inv(cfg, s) && Trigger(cfg, s, fraction, copied, s')
    ensures Gated(s.core.table, s'.core.table) && Freezes(s, s')
  {
    hide Inv, CanOffload, Offloaded, Candidates, FractionChoice, EntriesFor, Gated, Freezes;
    InvParts(cfg, s);
    CandidatesAreScored(cfg, s);
    var c, cands := s.core, Candidates(cfg, s);
    var choice := FractionChoice(c.table.blocks, s'.core.scores, cands, fraction, c.scored);
    if choice.Ok? && 0 < |choice.value| <= |c.cpuFree| && copied {
      ChoiceIsOk(cfg, s, s'.core.scores, fraction);
      OffloadGated(cfg, s, choice.value, s');
    } else {
      StillGated(c.table);
      FreezesWhenStill(s, s');
    }
  }

  lemma FreezesWhenStill(s: State, s': State)
    requires s'.core.table == s.core.table && s'.logical == s.logical
    ensures Freezes(s, s')
  {
  }

  lemma OffloadGated(cfg: Config, s: State, chosen: seq<BlockRef>, s': State)
    requires Inv(cfg, s) && ChosenOk(cfg, s, chosen) && CanOffload(StoreOf(s.core), s.core.gpu, chosen) && 0 < |chosen|
    requires StoreOf(s'.core) == Offloaded(cfg.d, s.core.gpu, StoreOf(s.core), chosen)
    requires s'.logical == s.logical
    ensures Gated(s.core.table, s'.core.table) && Freezes(s, s')
  {
    hide Inv, Offloaded, Freezes, ChosenOk, OffloadMoves, SameFill;
    var slots := Popped(s.core.cpuFree, |chosen|);
    OffloadedMoves(cfg.d, s.core.gpu, StoreOf(s.core), chosen);
    ChosenAreFull(cfg, s, chosen);
    OffloadedFill(s.core.table, chosen, slots, s'.core.table);
    OffloadRaises(s.core.table, chosen, slots, s'.core.table);
    FreezesWhenMoved(s, s');
  }

  lemma OffloadRaises(t: Table, chosen: seq<BlockRef>, slots: seq<nat>, t': Table)
    requires OffloadMoves(t, chosen, slots, t')
    ensures t'.version == t.version + |chosen|
  {
  }

  lemma ChosenAreFull(cfg: Config, s: State, chosen: seq<BlockRef>)
    requires ChosenOk(cfg, s, chosen)
    ensures forall r :: r in chosen ==> Resides(s.core.table, r, GPU) && s.core.table.blocks[r].complete
  {
  }

  lemma StageGated(cfg: Config, s: State, refs: seq<BlockRef>, copied: bool, s': State)
    requires Inv(cfg, s) && Stage(cfg, s, refs, copied, s')
    ensures Gated(s.core.table, s'.core.table) && Freezes(s, s')
  {
    hide Inv, EnsurePost, PageShape, TableOk, Gated, Freezes, SameCopies, SameFill;
    InvParts(cfg, s);
    var c, c', key := s.core, s'.core, KeyOf(s.core.scores);
    var res :| EnsurePost(key, cfg.d, cfg.base, c.pool, c.table, c.gpu, c.cpu, refs, copied, res, c'.pool, c'.table,
                          c'.gpu);
    EnsureGated(key, cfg.d, cfg.base, c.pool, c.table, c.gpu, c.cpu, refs, copied, res, c'.pool, c'.table, c'.gpu);
    EnsureTable(key, cfg.d, cfg.base, c.pool, c.table, c.gpu, c.cpu, refs, copied, res, c'.pool, c'.table, c'.gpu);
    SameCopiesFill(c.table, c'.table);
    FreezesWhenMoved(s, s');
  }

  lemma SameCopiesFill(t: Table, t': Table)
    requires SameCopies(t, t')
    ensures SameFill(t, t')
  {
  }

  lemma EnsureGated(
      key: BlockRef -> Score, d: Dims, base: nat, p: Pool, t: Table, gpu: seq<Page>, cpu: seq<Slab>,
      refs: seq<BlockRef>, copied: bool,
      res: Result<(map<BlockRef, nat>, seq<BlockRef>)>, p': Pool, t': Table, gpu': seq<Page>)
    requires EnsurePost(key, d, base, p, t, gpu, cpu, refs, copied, res, p', t', gpu')
    ensures Gated(t, t')
  {
    hide ToFetch, Hits, Touched, Dedup, Ranked, CanFetch, FetchedPages, OnlyPages, FetchedPool, FailedPool,
         FetchedTable, EvictedTable, OccupiedBy, PlannedSlots, Distinct, Gated;
    if (forall r :: r in refs ==> r in t.blocks) && ToFetch(t.blocks, refs) != [] {
      var plan := PlanFor(key, t.blocks, p, refs);
      if copied {
        FetchGated(p, t, plan);
      } else {
        EvictGated(p, t, plan.ranking, plan.evict);
      }
    } else {
      StillGated(t);
    }
  }

  lemma {:induction false} CleanedGated(cfg: Config, s: State, refs: seq<BlockRef>, n: nat)
    requires CoreInv(cfg, s) && n <= |refs|
    ensures Gated(s.core.table, CleanedN(s.core, refs, n).table)
  {
    hide CoreInv, Gated, CleanedOf, ReleasedPool, ReleasedTable, Removed, SlotList;
    if n == 0 {
      StillGated(s.core.table);
    } else {
      var s1 := s.(core := CleanedN(s.core, refs, n - 1));
      CleanedGated(cfg, s, refs, n - 1);
      CleanedFacts(cfg, s, refs, n - 1, s1);
      var r := refs[n - 1];
      var s2 := s.(core := ReleasedCore(s1.core, r));
      ReleaseDetaches(cfg, s1, r, s2);
      ReleaseGated(s1.core.pool, s1.core.table, r);
      GatedTrans(s.core.table, s1.core.table, s2.core.table);
      RemovedGated(s2.core.table, r);
      GatedTrans(s.core.table, s2.core.table, CleanedN(s.core, refs, n).table);
    }
  }

  lemma FinishGated(cfg: Config, s: State, q: string, s': State)
    requires Inv(cfg, s) && Finish(cfg, s, q, s')
    ensures Gated(s.core.table, s'.core.table) && Freezes(s, s')
  {
    hide CoreInv, Filled, ScoredExactly, AllIntact, EventsSafe, Counted, Members, Listed, Mirrored, Placed, CleanedN,
         Gated;
    var refs := if q in s.core.reqBlocks then s.core.reqBlocks[q] else [];
    var s0 := s.(core := s.core.(reqBlocks := s.core.reqBlocks - {q}));
    SameCore(cfg, s, s0);
    CleanedGated(cfg, s0, refs, |refs|);
    CleanedRequest(cfg, s, q, s');
    forall r | r in s'.core.table.blocks
      ensures r in s.core.table.blocks && s'.core.table.blocks[r] == s.core.table.blocks[r] && r.req != q
    {
      assert r in s'.core.table.blocks.Keys;
    }
  }

  lemma ReleasedGated(cfg: Config, s: State, r: BlockRef, s': State)
    requires Inv(cfg, s) && Release(s, r, s')
    ensures Gated(s.core.table, s'.core.table) && Freezes(s, s')
  {
    hide CoreInv, Filled, ScoredExactly, AllIntact, EventsSafe, Counted, Tracked, Placed, ReleasedPool, ReleasedTable,
         Gated, SameCopies, SameFill, Freezes;
    ReleaseGated(s.core.pool, s.core.table, r);
    ReleaseKeepsCore(cfg, s, r, s');
    SameCopiesFill(s.core.table, s'.core.table);
    FreezesWhenMoved(s, s');
  }

  lemma WriteFreezes(cfg: Config, s: State, r: BlockRef, page: Page, s': State)
    requires Write(cfg, s, r, page, s')
    ensures Gated(s.core.table, s'.core.table) && FreezesBut(s, WriteTokens(r, page), s')
  {
    hide Full, PageShape;
  }

  lemma StepGated(cfg: Config, s: State, a: Action, s': State)
    requires ConfigOk(cfg) && Inv(cfg, s) && Step(cfg, s, a, s')
    ensures Gated(s.core.table, s'.core.table) && FreezesBut(s, a, s')
  {
    hide Inv, NoStaleHit, Sync, Write, Trigger, Stage, Release, Finish, Gated, Freezes, SurgeryN, Extended, FreezesBut,
         AllAtHome;
    match a
    case WriteTokens(r, page) => WriteFreezes(cfg, s, r, page, s');
    case _ =>
      OtherStepGated(cfg, s, a, s');
      FreezesAnyway(s, a, s');
  }

  lemma OtherStepGated(cfg: Config, s: State, a: Action, s': State)
    requires ConfigOk(cfg) && Inv(cfg, s) && Step(cfg, s, a, s') && !a.WriteTokens?
    ensures Gated(s.core.table, s'.core.table) && Freezes(s, s')
  {
    hide Inv, NoStaleHit, Sync, Trigger, Stage, Release, Finish, Gated, Freezes, SurgeryN, Extended, AllAtHome;
    match a
    case SyncRequest(q, computed) => SyncGated(cfg, s, q, computed, s');
    case Offload(fraction, copied) => TriggerGated(cfg, s, fraction, copied, s');
    case StageBlocks(refs, copied) => StageGated(cfg, s, refs, copied, s');
    case ReleaseBlock(r) => ReleasedGated(cfg, s, r, s');
    case FinishRequest(q) => FinishGated(cfg, s, q, s');
    case CompleteStore(k) =>
      SurgeryNOnly(cfg, s.(pending := s.pending - {k}), s.pending[k], |s.pending[k]|);
      StillGated(s.core.table);
      FreezesWhenStill(s, s');
    case _ =>
      StillGated(s.core.table);
      FreezesWhenStill(s, s');
  }

  /** The version only grows along a run, and if it reads the same at i and j then nothing off the GPU
      has moved at any point between them. */
  lemma {:induction false} RunGated(cfg: Config, states: seq<State>, acts: seq<Action>, i: nat, j: nat)
    requires Run(cfg, states, acts) && i <= j < |states|
    ensures Gated(states[i].core.table, states[j].core.table)
    decreases j
  {
    hide Step, Inv, Init, Gated, Freezes;
    if i == j {
      StillGated(states[i].core.table);
    } else {
      RunGated(cfg, states, acts, i, j - 1);
      RunKeepsInv(cfg, states, acts, j - 1);
      StepGated(cfg, states[j - 1], acts[j - 1], states[j]);
      GatedTrans(states[i].core.table, states[j - 1].core.table, states[j].core.table);
    }
  }

  /** Lag-gate soundness: an unchanged version means that throughout the interval the set of
      CPU-resident blocks, every block's CPU slot and every staged block's slot stayed the same. */
  lemma LagGateSound(cfg: Config, states: seq<State>, acts: seq<Action>, i: nat, k: nat, j: nat)
    requires Run(cfg, states, acts) && i <= k <= j < |states|
    requires states[i].core.table.version == states[j].core.table.version
    ensures CpuSet(states[k].core.table.blocks) == CpuSet(states[i].core.table.blocks)
    ensures states[k].core.pool.slot == states[i].core.pool.slot
    ensures OffGpu(states[k].core.table.blocks) == OffGpu(states[i].core.table.blocks)
  {
    hide Step, Init, OffGpu;
    RunGated(cfg, states, acts, i, k);
    RunGated(cfg, states, acts, k, j);
    RunKeepsInv(cfg, states, acts, i);
    RunKeepsInv(cfg, states, acts, k);
    SameOffGpu(cfg, states[i], states[k]);
  }

  lemma SameOffGpu(cfg: Config, s: State, s': State)
    requires Inv(cfg, s) && Inv(cfg, s') && OffGpu(s'.core.table.blocks) == OffGpu(s.core.table.blocks)
    ensures CpuSet(s'.core.table.blocks) == CpuSet(s.core.table.blocks)
    ensures s'.core.pool.slot == s.core.pool.slot
  {
    hide Filled, ScoredExactly, AllIntact, EventsSafe, Counted, Tracked, Placed, TableOk, CopiesPartition, Partition;
    var b, b' := s.core.table.blocks, s'.core.table.blocks;
    forall r ensures r in b && b[r].residency != GPU <==> r in b' && b'[r].residency != GPU {
      assert r in OffGpu(b) <==> r in OffGpu(b');
    }
    forall r | r in b && b[r].residency != GPU
      ensures b'[r].residency == b[r].residency && b'[r].stagingSlot == b[r].stagingSlot
    {
      assert OffGpu(b)[r] == OffGpu(b')[r];
    }
    assert s'.core.pool.slot.Keys == s.core.pool.slot.Keys;
  }

  // ------------------------------------------------------------------ data integrity

  /** The recorded location of block r holds page v: its own page; its CPU slot; or, when staged, both
      its staging page and its CPU slot. */
  ghost predicate Holds(cfg: Config, c: Core, r: BlockRef, v: Page) {
    && r in c.table.blocks
    && var l := c.table.blocks[r];
       match l.residency
       case GPU => l.gpu.Some? && l.gpu.value < |c.gpu| && c.gpu[l.gpu.value] == v
       case CPU => l.cpuSlot.Some? && l.cpuSlot.value < |c.cpu| && Unpack(cfg.d, c.cpu[l.cpuSlot.value]) == v
       case STAGING =>
         && l.cpuSlot.Some? && l.cpuSlot.value < |c.cpu| && Unpack(cfg.d, c.cpu[l.cpuSlot.value]) == v
         && l.stagingSlot.Some? && cfg.base + l.stagingSlot.value < |c.gpu|
         && c.gpu[cfg.base + l.stagingSlot.value] == v
  }

  /** In any state that keeps the invariant, every tracked block's location holds its logical contents. */
  lemma HoldsLogical(cfg: Config, s: State, r: BlockRef)
    requires Inv(cfg, s) && r in s.core.table.blocks
    ensures r in s.logical && Holds(cfg, s.core, r, s.logical[r])
  {
    hide CoreInv, Filled, ScoredExactly, EventsSafe, Counted, Tracked, PageShape, Unpack;
    assert Intact(cfg, s.core, s.tables, s.logical, r);
  }

  /** The block is tracked at every point of the interval. */
  ghost predicate TrackedThroughout(states: seq<State>, i: nat, j: nat, r: BlockRef)
    requires i <= j < |states|
  {
    forall k :: i <= k <= j ==> r in states[k].core.table.blocks
  }

  /** What the last write to r's page between i and j wrote, if there was one. */
  ghost function FinalWrite(states: seq<State>, acts: seq<Action>, r: BlockRef, i: nat, j: nat): (page: Option<Page>)
    requires i <= j <= |acts| < |states|
    decreases j
  {
    if i == j then None
    else if Touches(states[j - 1], acts[j - 1], r) then Some(acts[j - 1].contents)
    else FinalWrite(states, acts, r, i, j - 1)
  }

  /** A full block stays full, and only writes to its page change its contents. */
  lemma {:induction false} FullBlocksAreFrozen(
      cfg: Config, states: seq<State>, acts: seq<Action>, i: nat, j: nat, r: BlockRef)
    requires Run(cfg, states, acts) && i <= j < |states|
    requires TrackedThroughout(states, i, j, r) && IsComplete(states[i].core.table, r)
    ensures IsComplete(states[j].core.table, r) && r in states[i].logical && r in states[j].logical
    ensures var w := FinalWrite(states, acts, r, i, j);
      states[j].logical[r] == if w.Some? then w.value else states[i].logical[r]
    decreases j
  {
    hide Step, Init, Inv, Holds, Gated;
    if i == j {
      RunKeepsInv(cfg, states, acts, i);
      HoldsLogical(cfg, states[i], r);
    } else {
      FullBlocksAreFrozen(cfg, states, acts, i, j - 1, r);
      RunKeepsInv(cfg, states, acts, j - 1);
      StepGated(cfg, states[j - 1], acts[j - 1], states[j]);
    }
  }

  lemma HoldsOne(cfg: Config, c: Core, r: BlockRef, v: Page, w: Page)
    requires Holds(cfg, c, r, v) && Holds(cfg, c, r, w)
    ensures v == w
  {
  }

  /** Data integrity over whole runs: let a block be full at i and tracked up to j. Its recorded location at
      j, wherever that is by then, holds the contents it had at i if and only if the last write to its
      page in between, should there be one, wrote them. */
  lemma DataIntegrity(cfg: Config, states: seq<State>, acts: seq<Action>, i: nat, j: nat, r: BlockRef, v: Page)
    requires Run(cfg, states, acts) && i <= j < |states|
    requires TrackedThroughout(states, i, j, r) && IsComplete(states[i].core.table, r)
    requires Holds(cfg, states[i].core, r, v)
    ensures var w := FinalWrite(states, acts, r, i, j);
      && Holds(cfg, states[j].core, r, if w.Some? then w.value else v)
      && (Holds(cfg, states[j].core, r, v) <==> w.None? || w == Some(v))
  {
    hide Step, Init, Inv, Holds, FinalWrite;
    FullBlocksAreFrozen(cfg, states, acts, i, j, r);
    RunKeepsInv(cfg, states, acts, i);
    RunKeepsInv(cfg, states, acts, j);
    HoldsLogical(cfg, states[i], r);
    HoldsLogical(cfg, states[j], r);
    HoldsOne(cfg, states[i].core, r, v, states[i].logical[r]);
    if Holds(cfg, states[j].core, r, v) {
      HoldsOne(cfg, states[j].core, r, v, states[j].logical[r]);
    }
  }

  // ------------------------------------------------------------------ pages, slots and fill state

  /** True-free safety over whole runs: a block on the GPU never sits on a free or a tail page, and
      every page's count is the number of table entries that point at it, plus one on the tail. */
  lemma TrueFreeSafety(cfg: Config, states: seq<State>, acts: seq<Action>, i: nat)
    requires Run(cfg, states, acts) && i < |states|
    ensures PagesHeld(cfg, states[i]) && Counted(cfg, states[i])
  {
    hide Step, Init, Inv, PagesHeld, Counted;
    RunKeepsInv(cfg, states, acts, i);
    GpuPagesAreHeld(cfg, states[i]);
    CountsOf(cfg, states[i]);
  }

  lemma CountsOf(cfg: Config, s: State)
    requires Inv(cfg, s)
    ensures Counted(cfg, s)
  {
  }

  /** A store completion takes a page away only from a block that has left the GPU, by nulling its entry. */
  lemma CompletionFreesOnlyOffloaded(cfg: Config, s: State, k: nat, s': State, r: BlockRef)
    requires Inv(cfg, s) && Complete(cfg, s, k, s') && HasEntry(s.tables, r)
    ensures HasEntry(s'.tables, r)
    ensures EntryOf(s'.tables, r) != EntryOf(s.tables, r) ==>
      && EntryOf(s'.tables, r) == cfg.nullPage
      && r in s.core.table.blocks && s.core.table.blocks[r].residency != GPU
  {
    hide CoreInv, Filled, ScoredExactly, AllIntact, Counted, Tracked, SurgeryN, Placed;
    var s1 := s.(pending := s.pending - {k});
    SurgeryNEntries(cfg, s1, s.pending[k], |s.pending[k]|, r);
    if EntryOf(s'.tables, r) != EntryOf(s.tables, r) {
      assert EntrySafe(cfg, s, Entry(r, EntryOf(s.tables, r)));
    }
  }

  /** Only full blocks leave the GPU, in every reachable state. */
  lemma OnlyFullBlocksLeave(cfg: Config, states: seq<State>, acts: seq<Action>, i: nat, r: BlockRef)
    requires Run(cfg, states, acts) && i < |states|
    requires r in states[i].core.table.blocks && states[i].core.table.blocks[r].residency != GPU
    ensures r.req in states[i].computed && (r.idx + 1) * cfg.pageSize <= states[i].computed[r.req]
  {
    hide Step, Init, Inv;
    RunKeepsInv(cfg, states, acts, i);
    OffGpuIsFull(cfg, states[i], r);
  }

  lemma OffGpuIsFull(cfg: Config, s: State, r: BlockRef)
    requires Inv(cfg, s) && r in s.core.table.blocks && s.core.table.blocks[r].residency != GPU
    ensures r.req in s.computed && Full(cfg, r.idx, s.computed[r.req])
  {
    hide CoreInv, ScoredExactly, AllIntact, Counted, Tracked, EventsSafe, Placed, Full;
  }

  /** What a trigger records for its store event is full at that moment. */
  lemma TriggerRecordsFullBlocks(cfg: Config, s: State, fraction: real, copied: bool, s': State, e: Entry)
    requires Inv(cfg, s) && Trigger(cfg, s, fraction, copied, s') && e in s'.acc && e !in s.acc
    ensures e.ref.req in s.computed && (e.ref.idx + 1) * cfg.pageSize <= s.computed[e.ref.req]
    ensures Resides(s'.core.table, e.ref, CPU)
  {
    hide CoreInv, ScoredExactly, AllIntact, Counted, Tracked, EventsSafe, Placed, NothingOffloaded, CanOffload,
         Offloaded, Candidates, FractionChoice, Filled;
    InvParts(cfg, s);
    CandidatesAreScored(cfg, s);
    var c, cands := s.core, Candidates(cfg, s);
    var choice := FractionChoice(c.table.blocks, s'.core.scores, cands, fraction, c.scored);
    ChoiceIsOk(cfg, s, s'.core.scores, fraction);
    var i :| 0 <= i < |choice.value| && e.ref == choice.value[i];
    assert choice.value[i] in choice.value;
    OffloadKeepsCore(cfg, s, choice.value, s');
    ChosenAreFull(cfg, s, choice.value);
    FullWhenComplete(cfg, s, e.ref);
  }

  /** A trigger records exactly what leaves the GPU, each block once and with the page it leaves. */
  ghost predicate RecordsLeavers(t: Table, t': Table, added: seq<Entry>) {
    && Distinct(added)
    && (forall e :: e in added ==> e.ref in t.blocks && t.blocks[e.ref].gpu == Some(e.page))
    && (forall r :: Resides(t, r, GPU) && !Resides(t', r, GPU) <==>
          r in t.blocks && t.blocks[r].gpu.Some? && Entry(r, t.blocks[r].gpu.value) in added)
  }

  lemma TriggerRecordsWhatLeaves(cfg: Config, s: State, fraction: real, copied: bool, s': State)
    requires Inv(cfg, s) && Trigger(cfg, s, fraction, copied, s')
    ensures s.acc <= s'.acc && RecordsLeavers(s.core.table, s'.core.table, s'.acc[|s.acc|..])
  {
    hide CoreInv, ScoredExactly, AllIntact, Counted, Tracked, EventsSafe, Placed, CanOffload,
         Offloaded, Candidates, FractionChoice, Filled, Rescored, RecordsLeavers;
    InvParts(cfg, s);
    CandidatesAreScored(cfg, s);
    var c, cands := s.core, Candidates(cfg, s);
    var choice := FractionChoice(c.table.blocks, s'.core.scores, cands, fraction, c.scored);
    if choice.Ok? && 0 < |choice.value| <= |c.cpuFree| && copied {
      ChoiceIsOk(cfg, s, s'.core.scores, fraction);
      OffloadedMoves(cfg.d, c.gpu, StoreOf(c), choice.value);
      ChosenAreRecorded(c.table, choice.value, Popped(c.cpuFree, |choice.value|), s'.core.table);
      assert s'.acc[|s.acc|..] == EntriesFor(c.table, choice.value);
    } else {
      assert s'.acc[|s.acc|..] == [];
      NoneRecorded(c.table);
    }
  }

  lemma NoneRecorded(t: Table)
    ensures RecordsLeavers(t, t, [])
  {
  }

  lemma ChosenAreRecorded(t: Table, chosen: seq<BlockRef>, slots: seq<nat>, t': Table)
    requires Distinct(chosen) && OffloadMoves(t, chosen, slots, t')
    requires forall i :: 0 <= i < |chosen| ==> Resides(t, chosen[i], GPU) && t.blocks[chosen[i]].gpu.Some?
    ensures RecordsLeavers(t, t', EntriesFor(t, chosen))
  {
    var added := EntriesFor(t, chosen);
    forall r | r in t.blocks && t.blocks[r].gpu.Some?
      ensures r in chosen <==> Entry(r, t.blocks[r].gpu.value) in added
    {
      if r in chosen {
        var i :| 0 <= i < |chosen| && chosen[i] == r;
        assert added[i] == Entry(r, t.blocks[r].gpu.value);
      }
    }
    forall r | r in chosen ensures Resides(t, r, GPU) && t.blocks[r].gpu.Some? && !Resides(t', r, GPU) {
      var i :| 0 <= i < |chosen| && chosen[i] == r;
      assert t'.blocks[chosen[i]] == OnCpu(t.blocks[chosen[i]], slots[i]);
    }
  }

  lemma FullWhenComplete(cfg: Config, s: State, r: BlockRef)
    requires Filled(cfg, s) && IsComplete(s.core.table, r)
    ensures r.req in s.computed && (r.idx + 1) * cfg.pageSize <= s.computed[r.req]
  {
  }

  /** The blocks that hold a CPU copy. */
  ghost function Copied(blocks: map<BlockRef, Location>): (s: set<BlockRef>) {
    set r | r in blocks && blocks[r].residency != GPU
  }

  /** CPU-slot conservation: free slots and blocks off the GPU always add up to the whole pool. */
  lemma CpuSlotsAddUp(cfg: Config, states: seq<State>, acts: seq<Action>, i: nat)
    requires Run(cfg, states, acts) && i < |states|
    ensures |states[i].core.cpuFree| + |Copied(states[i].core.table.blocks)| == cfg.cpuSlots
  {
    hide Step, Init, Inv;
    RunKeepsInv(cfg, states, acts, i);
    CopiesAddUp(cfg, states[i]);
  }

  lemma CopiesAddUp(cfg: Config, s: State)
    requires Inv(cfg, s)
    ensures |s.core.cpuFree| + |Copied(s.core.table.blocks)| == cfg.cpuSlots
  {
    hide Filled, ScoredExactly, AllIntact, Counted, Tracked, EventsSafe, Placed, Settled, CopiesPartition;
    var b := s.core.table.blocks;
    forall r | r in b ensures b[r].cpuSlot.Some? <==> b[r].residency != GPU {
      assert LocationOk(b[r]);
    }
    PartitionAddsUp(b, s.core.cpuFree, cfg.cpuSlots);
  }

  lemma PartitionAddsUp(b: map<BlockRef, Location>, free: seq<nat>, n: nat)
    requires CopiesPartition(b, free, n)
    requires forall r :: r in b ==> (b[r].cpuSlot.Some? <==> b[r].residency != GPU)
    ensures |free| + |Copied(b)| == n
  {
    var used := Copied(b);
    SlotsOfCopies(b, used);
    DistinctCardinality(free);
    hide Distinct;
    forall x | 0 <= x < n && x !in free ensures x in SlotSet(b, used) {
      var r :| r in b && b[r].cpuSlot == Some(x);
      assert r in used;
    }
    assert ToSet(free) + SlotSet(b, used) == Below(n);
    assert ToSet(free) !! SlotSet(b, used);
  }

  ghost function SlotSet(b: map<BlockRef, Location>, used: set<BlockRef>): (s: set<nat>) {
    set r | r in used && r in b && b[r].cpuSlot.Some? :: b[r].cpuSlot.value
  }

  lemma {:induction false} SlotsOfCopies(b: map<BlockRef, Location>, used: set<BlockRef>)
    requires forall r :: r in used ==> r in b && b[r].cpuSlot.Some?
    requires forall r, k :: r in used && k in used && b[r].cpuSlot == b[k].cpuSlot ==> r == k
    ensures |SlotSet(b, used)| == |used|
  {
    if used == {} {
      assert SlotSet(b, used) == {};
    } else {
      var r :| r in used;
      SlotsOfCopies(b, used - {r});
      assert SlotSet(b, used) == SlotSet(b, used - {r}) + {b[r].cpuSlot.value};
    }
  }

  /** No leaks: whenever a run reaches a point where no request is tracked, both pools are full and
      nothing is left in the table or the scorer. */
  lemma NoLeaks(cfg: Config, states: seq<State>, acts: seq<Action>, i: nat)
    requires Run(cfg, states, acts) && i < |states| && states[i].core.reqBlocks == map[]
    ensures |states[i].core.cpuFree| == cfg.cpuSlots && |states[i].core.pool.free| == cfg.stagingSlots
    ensures states[i].core.table.blocks == map[] && states[i].core.scored == {} && states[i].core.scores == map[]
  {
    hide Step, Init, Inv;
    RunKeepsInv(cfg, states, acts, i);
    NothingLeaks(cfg, states[i]);
  }

  // ------------------------------------------------------------------ shadow mode

  ghost predicate NoNullEntry(cfg: Config, tables: map<string, seq<nat>>) {
    forall r :: HasEntry(tables, r) ==> EntryOf(tables, r) != cfg.nullPage
  }

  lemma {:induction false} ShadowKeepsEntries(cfg: Config, states: seq<State>, acts: seq<Action>, i: nat)
    requires Run(cfg, states, acts) && i < |states| && !cfg.trueFree
    ensures NoNullEntry(cfg, states[i].tables)
  {
    hide Step, Init, NoNullEntry;
    if i == 0 {
      ShadowStart(cfg, states[0]);
    } else {
      ShadowKeepsEntries(cfg, states, acts, i - 1);
      ShadowStep(cfg, states[i - 1], acts[i - 1], states[i]);
    }
  }

  lemma ShadowStart(cfg: Config, s: State)
    requires Init(cfg, s)
    ensures NoNullEntry(cfg, s.tables)
  {
  }

  lemma ShadowStep(cfg: Config, s: State, a: Action, s': State)
    requires Step(cfg, s, a, s') && !cfg.trueFree && NoNullEntry(cfg, s.tables)
    ensures NoNullEntry(cfg, s'.tables)
  {
    hide NoStaleHit, PageShape, EnsurePost, SyncedCore, Holders, CleanedCore, NewPages, Full, Candidates,
         FractionChoice, CanOffload, Offloaded, EntriesFor, NothingOffloaded, ReleasedCore, NewlyScored;
    match a
    case Allocate(q, p) => ExtendedEntries(s.tables, q, p);
    case ShareHit(q, p) => ExtendedEntries(s.tables, q, p);
    case FinishRequest(q) =>
      forall r | HasEntry(s'.tables, r) ensures EntryOf(s'.tables, r) != cfg.nullPage {
        assert HasEntry(s.tables, r) && EntryOf(s.tables, r) == EntryOf(s'.tables, r);
      }
    case _ => assert s'.tables == s.tables;
  }

  /** Shadow mode is observationally identical to not offloading: through its own block table every
      tracked block still reads its contents, wherever its copies are. */
  lemma ShadowReadsOwnPages(cfg: Config, states: seq<State>, acts: seq<Action>, i: nat, r: BlockRef)
    requires Run(cfg, states, acts) && i < |states| && !cfg.trueFree && r in states[i].core.table.blocks
    ensures HasEntry(states[i].tables, r) && EntryOf(states[i].tables, r) < |states[i].core.gpu|
    ensures r in states[i].logical
    ensures states[i].core.gpu[EntryOf(states[i].tables, r)] == states[i].logical[r]
  {
    hide Step, Init;
    ShadowKeepsEntries(cfg, states, acts, i);
    RunKeepsInv(cfg, states, acts, i);
    hide CoreInv, Filled, ScoredExactly, Counted, Tracked, EventsSafe, Unpack, PageShape;
    assert Intact(cfg, states[i].core, states[i].tables, states[i].logical, r);
  }
}
