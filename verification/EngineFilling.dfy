/** Pages that are still being filled: what happens when another request is given one, and how runs in
    which that never happens fit in. */
module EngineFilling {
  import opened Blocks
  import opened Residencies
  import opened Layout
  import opened Offloading
  import opened Staging
  import opened Engine
  import opened EngineTables
  import opened EngineWrites
  import opened EngineSync
  import opened EngineOffload
  import opened EngineStage
  import opened EngineRuns
  import opened EngineEnabled
  import opened EngineTheorems
  import opened EngineContents
  import opened EngineLimits
  import opened LagGate

  // ------------------------------------------------------------------ when a write is harmless

  /** Every tracked block's recorded location holds its contents. */
  ghost predicate AllHeld(cfg: Config, s: State) {
    forall r :: r in s.core.table.blocks ==> r in s.logical && Holds(cfg, s.core, r, s.logical[r])
  }

  /** No block bound to the page has a copy elsewhere that differs from what is about to be written. */
  ghost predicate NoneLeftBehind(s: State, p: nat, page: Page) {
    forall k :: k in s.core.table.blocks && BoundTo(s.tables, k, p) && s.core.table.blocks[k].residency != GPU ==>
      k in s.logical && s.logical[k] == page
  }

  lemma WriteAt(cfg: Config, s: State, r: BlockRef, page: Page, s': State, k: BlockRef)
    requires ConfigOk(cfg) && Inv(cfg, s) && Write(cfg, s, r, page, s') && k in s.core.table.blocks
    ensures k in s.logical && k in s'.logical
    ensures s'.logical[k] == if BoundTo(s.tables, k, EntryOf(s.tables, r)) then page else s.logical[k]
    ensures s.core.table.blocks[k].residency == GPU ==> Holds(cfg, s'.core, k, s'.logical[k])
    ensures s.core.table.blocks[k].residency != GPU ==>
      (Holds(cfg, s'.core, k, s'.logical[k]) <==> s'.logical[k] == s.logical[k])
  {
    hide CoreInv, ScoredExactly, AllIntact, EventsSafe, Counted, Tracked, PageShape, Unpack, Full;
    assert Tracked(s) && Filled(cfg, s);
    TrackedIsLogical(s, k);
    HoldsLogical(cfg, s, k);
    FillingPage(cfg, s, r);
    if Holds(cfg, s'.core, k, s'.logical[k]) && s.core.table.blocks[k].residency != GPU {
      assert Unpack(cfg.d, s.core.cpu[s.core.table.blocks[k].cpuSlot.value]) == s.logical[k];
    }
  }

  /** A write leaves every block's location with its contents if and only if no block bound to the page has
      been copied away, unless with the very contents written. The steps of a run ask for it. */
  lemma WriteSafeIff(cfg: Config, s: State, r: BlockRef, page: Page, s': State)
    requires ConfigOk(cfg) && Inv(cfg, s) && Write(cfg, s, r, page, s')
    ensures AllHeld(cfg, s') <==> NoneLeftBehind(s, EntryOf(s.tables, r), page)
  {
    hide Inv, Holds, PageShape, Full;
    forall k | k in s.core.table.blocks
      ensures k in s.logical && k in s'.logical
      ensures Holds(cfg, s'.core, k, s'.logical[k]) <==>
        (BoundTo(s.tables, k, EntryOf(s.tables, r)) && s.core.table.blocks[k].residency != GPU ==> s.logical[k] == page)
    {
      WriteAt(cfg, s, r, page, s', k);
    }
  }

  /** With true freeing no block is copied away from a page that anybody else is bound to. */
  lemma TrueFreeLeaversAreAlone(cfg: Config, s: State, fraction: real, copied: bool, s': State, r: BlockRef)
    requires Inv(cfg, s) && Trigger(cfg, s, fraction, copied, s') && cfg.trueFree
    requires Resides(s.core.table, r, GPU) && !Resides(s'.core.table, r, GPU)
    ensures HasEntry(s.tables, r) && Holders(s.tables, EntryOf(s.tables, r)) == {r}
  {
    hide Inv, Candidates, FractionChoice, CanOffload, Offloaded, NothingOffloaded, EntriesFor, Holders;
    InvParts(cfg, s);
    CandidatesAreScored(cfg, s);
    var c := s.core;
    var choice := FractionChoice(c.table.blocks, s'.core.scores, Candidates(cfg, s), fraction, c.scored);
    if choice.Ok? && 0 < |choice.value| <= |c.cpuFree| && copied {
      LeaverWasChosen(cfg.d, c.gpu, StoreOf(c), choice.value, r);
      ChosenAreSoleOwned(cfg, s, s'.core.scores, fraction);
      SoleHolder(cfg, s, r);
    } else {
      NothingLeft(StoreOf(c), StoreOf(s'.core));
    }
  }

  lemma ChosenAreSoleOwned(cfg: Config, s: State, scores: map<BlockRef, real>, fraction: real)
    requires TableOk(s.core.table) && cfg.trueFree
    requires FractionChoice(s.core.table.blocks, scores, Candidates(cfg, s), fraction, s.core.scored).Ok?
    ensures forall r :: r in FractionChoice(s.core.table.blocks, scores, Candidates(cfg, s), fraction,
                                            s.core.scored).value ==>
      SoleOwned(s.core.table.blocks, s.refCnt)(r)
  {
    hide TableOk, Candidates, Distinct;
    CandidateFacts(cfg, s);
    FractionChoiceIsEligible(s.core.table.blocks, scores, Candidates(cfg, s), fraction, s.core.scored);
  }

  lemma NothingLeft(before: Store, after: Store)
    requires NothingOffloaded(before, after)
    ensures after.table == before.table
  {
  }

  lemma LeaverWasChosen(d: Dims, gpu: seq<Page>, before: Store, chosen: seq<BlockRef>, r: BlockRef)
    requires CanOffload(before, gpu, chosen)
    requires Resides(before.table, r, GPU) && !Resides(Offloaded(d, gpu, before, chosen).table, r, GPU)
    ensures r in chosen
  {
    OffloadedMoves(d, gpu, before, chosen);
    hide Offloaded, CanOffload;
    assert r in before.table.blocks.Keys;
  }

  lemma SoleHolder(cfg: Config, s: State, r: BlockRef)
    requires Inv(cfg, s) && Resides(s.core.table, r, GPU)
    requires SoleOwned(s.core.table.blocks, s.refCnt)(r)
    ensures HasEntry(s.tables, r) && Holders(s.tables, EntryOf(s.tables, r)) == {r}
  {
    hide CoreInv, Filled, ScoredExactly, AllIntact, EventsSafe, Tracked;
    var p := EntryOf(s.tables, r);
    var all := Holders(s.tables, p);
    assert r in all && |all| == 1;
    OneElement(all, r);
  }

  lemma OneElement(s: set<BlockRef>, r: BlockRef)
    requires r in s && |s| == 1
    ensures s == {r}
  {
    assert |s - {r}| == 0;
  }

  // ------------------------------------------------------------------ a copy made too early

  /** One block of q on page p, not full; one of q2 on the same page, full. */
  ghost predicate HitWhileFilling(cfg: Config, s: State, q: string, q2: string, p: nat) {
    && Inv(cfg, s) && q != q2 && s.tables == map[q := [p], q2 := [p]] && s.core.cpuFree != []
    && s.core.table.blocks == map[BlockRef(q, 0) := Location(GPU, Some(p), None, None, false),
                                  BlockRef(q2, 0) := Location(GPU, Some(p), None, None, true)]
    && q in s.computed && s.computed[q] == 0
  }

  lemma FillingSyncs(cfg: Config, s: State, q: string, p: nat) returns (s': State)
    requires ConfigOk(cfg) && Inv(cfg, s) && s.tables == map[q := [p]] && !IsWarmup(q) && s.computed == map[]
    requires s.mirror == map[]
    requires s.core.table.blocks == map[] && 0 < cfg.pageSize
    ensures Step(cfg, s, SyncRequest(q, 0), s') && Inv(cfg, s')
    ensures s'.core.table.blocks == map[BlockRef(q, 0) := Location(GPU, Some(p), None, None, false)]
    ensures s'.tables == s.tables && s'.acc == s.acc && s'.pending == s.pending && s'.core.cpuFree == s.core.cpuFree
    ensures s'.refCnt == s.refCnt && s'.computed == map[q := 0]
  {
    hide CoreInv, Filled, ScoredExactly, AllIntact, EventsSafe, Counted, Tracked, Placed, SyncedTable, Act;
    var r := BlockRef(q, 0);
    assert !Full(cfg, 0, 0);
    s' := SyncExists(cfg, s, q, 0);
    forall k ensures k in s'.core.table.blocks <==> k == r {
      SyncedAt(cfg, s.core.table, q, [p], 0, k);
    }
    SyncedAt(cfg, s.core.table, q, [p], 0, r);
    SyncIsStep(cfg, s, q, 0, s');
    hide Inv, Sync;
    StepKeepsInv(cfg, s, SyncRequest(q, 0), s');
  }

  lemma HitSyncs(cfg: Config, s: State, q: string, q2: string, p: nat) returns (s': State)
    requires ConfigOk(cfg) && Inv(cfg, s) && q != q2 && s.tables == map[q := [p], q2 := [p]] && !IsWarmup(q2)
    requires s.core.table.blocks == map[BlockRef(q, 0) := Location(GPU, Some(p), None, None, false)]
    requires s.computed == map[q := 0] && s.core.cpuFree != []
    ensures Step(cfg, s, SyncRequest(q2, cfg.pageSize), s') && HitWhileFilling(cfg, s', q, q2, p)
  {
    hide CoreInv, Filled, ScoredExactly, AllIntact, EventsSafe, Counted, Tracked, Placed, SyncedTable, Act;
    HitSyncedTable(cfg, s.core.table, q, q2, p);
    ComputedKeys(cfg, s, q2);
    s' := SyncExists(cfg, s, q2, cfg.pageSize);
    hide Inv, Sync;
    SyncIsStep(cfg, s, q2, cfg.pageSize, s');
    StepKeepsInv(cfg, s, SyncRequest(q2, cfg.pageSize), s');
  }

  lemma ComputedKeys(cfg: Config, s: State, q: string)
    requires Inv(cfg, s)
    ensures q in s.computed <==> q in s.mirror
  {
    hide CoreInv, Filled, ScoredExactly, AllIntact, EventsSafe, Counted, Placed, Members, Listed;
    assert q in s.computed.Keys <==> q in s.mirror.Keys;
  }

  lemma HitSyncedTable(cfg: Config, t: Table, q: string, q2: string, p: nat)
    requires q != q2 && t.blocks == map[BlockRef(q, 0) := Location(GPU, Some(p), None, None, false)]
    ensures SyncedTable(cfg, t, q2, [p], cfg.pageSize).blocks ==
      map[BlockRef(q, 0) := Location(GPU, Some(p), None, None, false),
          BlockRef(q2, 0) := Location(GPU, Some(p), None, None, true)]
  {
    var r, k := BlockRef(q, 0), BlockRef(q2, 0);
    assert Full(cfg, 0, cfg.pageSize);
    hide SyncedTable, Full;
    forall x ensures x in SyncedTable(cfg, t, q2, [p], cfg.pageSize).blocks <==> x == r || x == k {
      SyncedAt(cfg, t, q2, [p], cfg.pageSize, x);
    }
    SyncedAt(cfg, t, q2, [p], cfg.pageSize, r);
    SyncedAt(cfg, t, q2, [p], cfg.pageSize, k);
  }

  lemma HitBinds(cfg: Config, s: State, q: string, q2: string, p: nat) returns (s': State)
    requires ConfigOk(cfg) && Inv(cfg, s) && s.tables == map[q := [p]] && q2 != q && p < cfg.base && p != cfg.nullPage
    requires s.acc == [] && s.pending == map[] && p < |s.refCnt| && s.refCnt[p] == 1
    ensures Step(cfg, s, ShareHit(q2, p), s') && Inv(cfg, s') && s'.tables == map[q := [p], q2 := [p]]
    ensures s' == s.(tables := s'.tables, refCnt := s'.refCnt)
  {
    hide Inv;
    s' := s.(tables := Extended(s.tables, q2, p), refCnt := s.refCnt[p := s.refCnt[p] + 1]);
    assert [] + [p] == [p];
    assert !Recorded(s, Entry(NextRef(s.tables, q2), p));
    assert Step(cfg, s, ShareHit(q2, p), s');
    hide Share;
    StepKeepsInv(cfg, s, ShareHit(q2, p), s');
  }

  /** In shadow mode the full block is copied away, and the write that fills the page misses the copy. */
  lemma EarlyCopyIsStale(cfg: Config, s: State, q: string, q2: string, p: nat, page: Page)
    returns (s1: State, s2: State)
    requires ConfigOk(cfg) && !cfg.trueFree && 0 < cfg.pageSize && HitWhileFilling(cfg, s, q, q2, p)
    requires p < |s.core.gpu| && PageShape(cfg.d, page) && page != s.core.gpu[p]
    ensures Step(cfg, s, Offload(0.5, true), s1) && Inv(cfg, s1)
    ensures Write(cfg, s1, BlockRef(q, 0), page, s2) && !AllHeld(cfg, s2)
  {
    hide Inv, PageShape, Trigger, AllHeld;
    var r, k := BlockRef(q, 0), BlockRef(q2, 0);
    HitIsHeld(cfg, s, q, q2, p);
    s1 := TriggerExists(cfg, s, k);
    assert Step(cfg, s, Offload(0.5, true), s1);
    StepKeepsInv(cfg, s, Offload(0.5, true), s1);
    EarlyLeaves(cfg, s, q, q2, p, s1);
    assert !Full(cfg, 0, 0);
    s2 := s1.(core := s1.core.(gpu := s1.core.gpu[p := page]), logical := WrittenTo(s1.tables, s1.logical, p, page));
    WriteSafeIff(cfg, s1, r, page, s2);
  }

  lemma HitIsHeld(cfg: Config, s: State, q: string, q2: string, p: nat)
    requires HitWhileFilling(cfg, s, q, q2, p) && p < |s.core.gpu|
    ensures BlockRef(q2, 0) in s.logical && s.logical[BlockRef(q2, 0)] == s.core.gpu[p]
    ensures OnlyLeaver(s.core.table, BlockRef(q2, 0))
  {
    hide Inv;
    HoldsLogical(cfg, s, BlockRef(q2, 0));
  }

  lemma EarlyLeaves(cfg: Config, s: State, q: string, q2: string, p: nat, s1: State)
    requires HitWhileFilling(cfg, s, q, q2, p) && CanOffload(StoreOf(s.core), s.core.gpu, [BlockRef(q2, 0)])
    requires StoreOf(s1.core) == Offloaded(cfg.d, s.core.gpu, StoreOf(s.core), [BlockRef(q2, 0)])
    requires s1 == s.(core := s1.core, acc := s1.acc) && s1.core.gpu == s.core.gpu
    ensures Resides(s1.core.table, BlockRef(q2, 0), CPU) && Resides(s1.core.table, BlockRef(q, 0), GPU)
    ensures BoundTo(s1.tables, BlockRef(q, 0), p) && BoundTo(s1.tables, BlockRef(q2, 0), p)
  {
    var r, k := BlockRef(q, 0), BlockRef(q2, 0);
    OffloadedMoves(cfg.d, s.core.gpu, StoreOf(s.core), [k]);
    hide Offloaded, CanOffload, Inv;
    assert s1.core.table == StoreOf(s1.core).table;
    assert [k][0] == k && r !in [k];
  }

  /** A run to that point from every start state: a page is hit before it is filled, as the allocator lets it
      be from the moment it is handed out. */
  lemma EarlyCopyRun(cfg: Config, s: State, q: string, q2: string, p: nat, page: Page)
    returns (states: seq<State>, acts: seq<Action>, stale: State)
    requires Scene(cfg, s, q, p) && !cfg.trueFree && 0 < cfg.pageSize && q2 != q && !IsWarmup(q2)
    requires p < |s.core.gpu| && PageShape(cfg.d, page) && page != s.core.gpu[p]
    ensures Run(cfg, states, acts) && states[0] == s
    ensures acts == [Allocate(q, p), SyncRequest(q, 0), ShareHit(q2, p), SyncRequest(q2, cfg.pageSize),
                     Offload(0.5, true)]
    ensures Write(cfg, states[5], BlockRef(q, 0), page, stale) && !AllHeld(cfg, stale)
  {
    hide Inv, Init, Step, IsWarmup, PageShape, AllHeld, Write;
    SceneFacts(cfg, s, q, p);
    var s1 := SceneAllocates(cfg, s, q, p);
    var s2 := FillingSyncs(cfg, s1, q, p);
    var s3 := HitBinds(cfg, s2, q, q2, p);
    var s4 := HitSyncs(cfg, s3, q, q2, p);
    SyncsLeavePages(cfg, s1, q, 0, s2);
    SyncsLeavePages(cfg, s3, q2, cfg.pageSize, s4);
    var s5;
    s5, stale := EarlyCopyIsStale(cfg, s4, q, q2, p, page);
    acts := [Allocate(q, p), SyncRequest(q, 0), ShareHit(q2, p), SyncRequest(q2, cfg.pageSize), Offload(0.5, true)];
    states := [s, s1, s2, s3, s4, s5];
    SceneIsStart(cfg, s, q, p);
    RunOfFive(cfg, s, acts[0], s1, acts[1], s2, acts[2], s3, acts[3], s4, acts[4], s5);
  }

  lemma SceneIsStart(cfg: Config, s: State, q: string, p: nat)
    requires Scene(cfg, s, q, p)
    ensures ConfigOk(cfg) && Init(cfg, s)
  {
  }

  lemma SyncsLeavePages(cfg: Config, s: State, q: string, computed: nat, s': State)
    requires Step(cfg, s, SyncRequest(q, computed), s')
    ensures s'.core.gpu == s.core.gpu
  {
    hide NewPages, SyncedTable, NewlyScored;
  }

  // ------------------------------------------------------------------ orderly runs

  /** A block still being filled has its page to itself. */
  ghost predicate Exclusive(s: State) {
    forall r, k ::
      (&& r in s.core.table.blocks && !s.core.table.blocks[r].complete
       && HasEntry(s.tables, r) && BoundTo(s.tables, k, EntryOf(s.tables, r))) ==> k == r
  }

  /** From position `from` on, a page of the request's row whose block is not full yet belongs to that
      position only. */
  ghost predicate FillersAlone(cfg: Config, tables: map<string, seq<nat>>, q: string, from: nat, computed: nat)
    requires q in tables
  {
    forall i, k :: from <= i < |tables[q]| && !Full(cfg, i, computed) && BoundTo(tables, k, tables[q][i]) ==>
        k == BlockRef(q, i)
  }

  /** Prefix hits go to pages whose tracked blocks are all full, and what a sync finds not full has its page
      to itself. */
  ghost predicate Orderly(cfg: Config, s: State, a: Action) {
    match a
    case ShareHit(_, p) =>
      forall r :: r in s.core.table.blocks && BoundTo(s.tables, r, p) ==> s.core.table.blocks[r].complete
    case SyncRequest(q, computed) => q in s.tables ==> FillersAlone(cfg, s.tables, q, |Known(s.mirror, q)|, computed)
    case _ => true
  }

  /** Nothing is asked of writes. */
  ghost predicate OrderlyStep(cfg: Config, s: State, a: Action, s': State) {
    Act(cfg, s, a, s') && Orderly(cfg, s, a) && (a.WriteTokens? || Timely(cfg, s, a))
  }

  ghost predicate OrderlyRun(cfg: Config, states: seq<State>, acts: seq<Action>) {
    && |states| == |acts| + 1
    && ConfigOk(cfg) && Init(cfg, states[0])
    && (forall i :: 0 <= i < |acts| ==> OrderlyStep(cfg, states[i], acts[i], states[i + 1]))
  }

  lemma OrderlyStepIsStep(cfg: Config, s: State, a: Action, s': State)
    requires Inv(cfg, s) && Exclusive(s) && OrderlyStep(cfg, s, a, s')
    ensures Step(cfg, s, a, s')
  {
    hide Inv, Orderly, NoStaleHit, Alloc, Share, Sync, ScribblePage, ScribbleStaging, ScribbleCpu, Trigger, Flush,
         Complete, Stage, Release, Finish, Write, Exclusive, AllAtHome;
    if a.WriteTokens? {
      AloneAtHome(cfg, s, a.ref, a.contents, s');
    }
  }

  lemma AloneAtHome(cfg: Config, s: State, r: BlockRef, page: Page, s': State)
    requires Inv(cfg, s) && Exclusive(s) && Write(cfg, s, r, page, s')
    ensures AllAtHome(s, EntryOf(s.tables, r))
  {
    hide CoreInv, ScoredExactly, AllIntact, EventsSafe, Counted, Tracked, PageShape;
    FillingPage(cfg, s, r);
  }

  /** Nobody starts to be tracked, and nobody is bound to a page anew. */
  lemma QuietKeepsExclusive(s: State, a: Action, s': State)
    requires Exclusive(s) && FreezesBut(s, a, s')
    requires forall r :: r in s'.core.table.blocks ==> r in s.core.table.blocks
    requires forall r :: HasEntry(s'.tables, r) ==>
      HasEntry(s.tables, r) && EntryOf(s'.tables, r) == EntryOf(s.tables, r)
    ensures Exclusive(s')
  {
    forall r, k | r in s'.core.table.blocks && !s'.core.table.blocks[r].complete
      && HasEntry(s'.tables, r) && BoundTo(s'.tables, k, EntryOf(s'.tables, r))
      ensures k == r
    {
      assert !IsComplete(s.core.table, r);
      assert BoundTo(s.tables, k, EntryOf(s.tables, r));
    }
  }

  lemma BindKeepsExclusive(s: State, q: string, p: nat, s': State)
    requires Exclusive(s) && s'.tables == Extended(s.tables, q, p) && s'.core.table == s.core.table
    requires forall r :: r in s.core.table.blocks ==> HasEntry(s.tables, r)
    requires forall r :: r in s.core.table.blocks && BoundTo(s.tables, r, p) ==> s.core.table.blocks[r].complete
    ensures Exclusive(s')
  {
    ExtendedEntries(s.tables, q, p);
    forall r, k | r in s.core.table.blocks && !s.core.table.blocks[r].complete
      && HasEntry(s'.tables, r) && BoundTo(s'.tables, k, EntryOf(s'.tables, r))
      ensures k == r
    {
      assert HasEntry(s.tables, r) && EntryOf(s'.tables, r) == EntryOf(s.tables, r);
      assert !BoundTo(s.tables, r, p);
      if HasEntry(s.tables, k) {
        assert BoundTo(s.tables, k, EntryOf(s.tables, r));
      }
    }
  }

  lemma SyncKeepsExclusive(cfg: Config, s: State, q: string, computed: nat, s': State)
    requires Inv(cfg, s) && Exclusive(s) && Sync(cfg, s, q, computed, s') && Orderly(cfg, s, SyncRequest(q, computed))
    ensures Exclusive(s')
  {
    hide CoreInv, Filled, ScoredExactly, AllIntact, EventsSafe, Counted, Placed, SyncedTable, NewlyScored, NewPages,
         Full, SyncEffect, Tracked;
    SyncSeesTheTable(s, q);
    SyncTableEffect(cfg, s, q, computed);
    SyncedExclusive(cfg, s, q, computed, s');
  }

  lemma SyncedExclusive(cfg: Config, s: State, q: string, computed: nat, s': State)
    requires Tracked(s) && Exclusive(s) && q in s.tables && s'.tables == s.tables
    requires SyncEffect(cfg, s, q, |s.tables[q]|, computed, s'.core.table)
    requires FillersAlone(cfg, s.tables, q, |Known(s.mirror, q)|, computed)
    ensures Exclusive(s')
  {
    hide Full;
    forall r, k | r in s'.core.table.blocks && !s'.core.table.blocks[r].complete
      && HasEntry(s'.tables, r) && BoundTo(s'.tables, k, EntryOf(s'.tables, r))
      ensures k == r
    {
      if r !in s.core.table.blocks {
        assert r == BlockRef(q, r.idx) && s.tables[q][r.idx] == EntryOf(s.tables, r);
      }
    }
  }

  lemma CompleteKeepsExclusive(cfg: Config, s: State, k: nat, s': State)
    requires ConfigOk(cfg) && Inv(cfg, s) && Exclusive(s) && Complete(cfg, s, k, s')
    ensures Exclusive(s')
  {
    hide Inv, SurgeryN, EntrySafe, Exclusive;
    var s1, es := s.(pending := s.pending - {k}), s.pending[k];
    EventTaken(cfg, s, k);
    SameExclusive(s, s1);
    if cfg.trueFree { SurgeriesKeepExclusive(cfg, s1, es, |es|); }
  }

  lemma SameExclusive(s: State, s': State)
    requires Exclusive(s) && s'.tables == s.tables && s'.core.table == s.core.table
    ensures Exclusive(s')
  {
  }

  lemma {:induction false} SurgeriesKeepExclusive(cfg: Config, s: State, es: seq<Entry>, n: nat)
    requires ConfigOk(cfg) && cfg.trueFree && Inv(cfg, s) && Exclusive(s) && n <= |es|
    requires forall e :: e in es ==> EntrySafe(cfg, s, e)
    ensures Exclusive(SurgeryN(cfg, s, es, n))
  {
    hide Inv, EntrySafe, Exclusive, Surgery;
    if n > 0 {
      SurgeriesKeepExclusive(cfg, s, es, n - 1);
      SurgeriesKeepInv(cfg, s, es, n - 1);
      assert es[n - 1] in es;
      PlacedAndFilled(cfg, SurgeryN(cfg, s, es, n - 1));
      SurgeryExclusive(cfg, SurgeryN(cfg, s, es, n - 1), es[n - 1]);
    }
  }

  lemma PlacedAndFilled(cfg: Config, s: State)
    requires Inv(cfg, s)
    ensures Placed(cfg, s) && Filled(cfg, s)
  {
    hide CoreInv, ScoredExactly, AllIntact, EventsSafe, Counted, Tracked, Placed, Filled;
  }

  lemma SurgeryExclusive(cfg: Config, s: State, e: Entry)
    requires Placed(cfg, s) && Filled(cfg, s) && Exclusive(s) && EntrySafe(cfg, s, e) && cfg.trueFree
    ensures Exclusive(Surgery(cfg, s, e))
  {
    hide Full;
    var s' := Surgery(cfg, s, e);
    if s' != s {
      ReboundEntries(s.tables, e.ref, cfg.nullPage);
      forall r, k | r in s.core.table.blocks && !s.core.table.blocks[r].complete
        && HasEntry(s'.tables, r) && BoundTo(s'.tables, k, EntryOf(s'.tables, r))
        ensures k == r
      {
        assert s.core.table.blocks[r].residency == GPU;
        assert r != e.ref && EntryOf(s.tables, r) != cfg.nullPage;
        assert BoundTo(s.tables, k, EntryOf(s.tables, r));
      }
    }
  }

  lemma OrderlyKeepsExclusive(cfg: Config, s: State, a: Action, s': State)
    requires ConfigOk(cfg) && Inv(cfg, s) && Exclusive(s) && Orderly(cfg, s, a) && Step(cfg, s, a, s')
    ensures Exclusive(s')
  {
    hide Inv, NoStaleHit, Sync, Write, Trigger, Stage, Release, Complete, CleanedCore, Exclusive, Extended, FreezesBut,
         Holders, Orderly, PageShape, AllAtHome;
    match a
    case Allocate(q, p) => AllocKeepsExclusive(cfg, s, q, p, s');
    case ShareHit(q, p) => ShareKeepsExclusive(cfg, s, q, p, s');
    case SyncRequest(q, computed) => SyncKeepsExclusive(cfg, s, q, computed, s');
    case CompleteStore(k) => CompleteKeepsExclusive(cfg, s, k, s');
    case _ =>
      OthersKeepExclusive(cfg, s, a, s');
  }

  lemma AllocKeepsExclusive(cfg: Config, s: State, q: string, p: nat, s': State)
    requires Inv(cfg, s) && Exclusive(s) && Alloc(cfg, s, q, p, s')
    ensures Exclusive(s')
  {
    hide CoreInv, Filled, ScoredExactly, AllIntact, EventsSafe, Tracked, Counted, Placed, Exclusive;
    PlacedEntries(cfg, s);
    forall r | r in s.core.table.blocks && HasEntry(s.tables, r) ensures !BoundTo(s.tables, r, p) {
      UnreferencedPage(cfg, s, p, r);
    }
    BindKeepsExclusive(s, q, p, s');
  }

  lemma ShareKeepsExclusive(cfg: Config, s: State, q: string, p: nat, s': State)
    requires Inv(cfg, s) && Exclusive(s) && Share(cfg, s, q, p, s') && Orderly(cfg, s, ShareHit(q, p))
    ensures Exclusive(s')
  {
    hide CoreInv, Filled, ScoredExactly, AllIntact, EventsSafe, Tracked, Counted, Placed, Exclusive;
    PlacedEntries(cfg, s);
    BindKeepsExclusive(s, q, p, s');
  }

  lemma OthersKeepExclusive(cfg: Config, s: State, a: Action, s': State)
    requires ConfigOk(cfg) && Inv(cfg, s) && Exclusive(s) && Step(cfg, s, a, s')
    requires !a.Allocate? && !a.ShareHit? && !a.SyncRequest? && !a.CompleteStore?
    ensures Exclusive(s')
  {
    hide Inv, Exclusive, FreezesBut, Gated, Step;
    StepKeepsInv(cfg, s, a, s');
    StepGated(cfg, s, a, s');
    OtherTables(cfg, s, a, s');
    LogicalKeys(cfg, s);
    LogicalKeys(cfg, s');
    forall r | r in s'.core.table.blocks ensures r in s.core.table.blocks {
      StepStores(cfg, s, a, s', r);
    }
    QuietKeepsExclusive(s, a, s');
  }

  lemma OtherTables(cfg: Config, s: State, a: Action, s': State)
    requires Step(cfg, s, a, s') && !a.Allocate? && !a.ShareHit? && !a.SyncRequest? && !a.CompleteStore?
    ensures forall r :: HasEntry(s'.tables, r) ==>
      HasEntry(s.tables, r) && EntryOf(s'.tables, r) == EntryOf(s.tables, r)
  {
    hide CleanedCore, Offloaded, NothingOffloaded, CanOffload, FractionChoice, Candidates, EnsurePost, Holders,
         ReleasedCore, PageShape, EntriesFor, Full, WrittenTo, AllAtHome;
  }

  lemma StartIsExclusive(cfg: Config, s: State)
    requires Init(cfg, s)
    ensures Exclusive(s)
  {
    hide PageShape;
  }

  lemma {:induction false} OrderlyPrefix(cfg: Config, states: seq<State>, acts: seq<Action>, n: nat)
    requires OrderlyRun(cfg, states, acts) && n < |states|
    ensures Inv(cfg, states[n]) && Exclusive(states[n])
    ensures n < |acts| ==> Step(cfg, states[n], acts[n], states[n + 1])
  {
    hide Inv, Exclusive, OrderlyStep, Init, Step;
    if n == 0 {
      InitEstablishesInv(cfg, states[0]);
      StartIsExclusive(cfg, states[0]);
    } else {
      OrderlyPrefix(cfg, states, acts, n - 1);
      StepKeepsInv(cfg, states[n - 1], acts[n - 1], states[n]);
      StepIsOrderly(cfg, states[n - 1], acts[n - 1], states[n]);
      OrderlyKeepsExclusive(cfg, states[n - 1], acts[n - 1], states[n]);
    }
    if n < |acts| {
      OrderlyStepIsStep(cfg, states[n], acts[n], states[n + 1]);
    }
  }

  lemma StepIsOrderly(cfg: Config, s: State, a: Action, s': State)
    requires OrderlyStep(cfg, s, a, s')
    ensures Orderly(cfg, s, a)
  {
    hide Orderly, Act, Timely;
  }

  /** An orderly run is a run, with its writes in time, and a block being filled always has its page to itself. */
  lemma OrderlyRunIsRun(cfg: Config, states: seq<State>, acts: seq<Action>)
    requires OrderlyRun(cfg, states, acts)
    ensures Run(cfg, states, acts) && forall i :: 0 <= i < |states| ==> Exclusive(states[i])
  {
    hide Inv, Exclusive, OrderlyStep, Init, Step;
    forall i | 0 <= i < |states|
      ensures Exclusive(states[i])
      ensures i < |acts| ==> Step(cfg, states[i], acts[i], states[i + 1])
    {
      OrderlyPrefix(cfg, states, acts, i);
    }
  }

  /** In an orderly run nobody writes to a full block's page. */
  lemma OrderlyWritesMissFullBlocks(cfg: Config, s: State, a: Action, s': State, r: BlockRef)
    requires Inv(cfg, s) && Exclusive(s) && Step(cfg, s, a, s') && IsComplete(s.core.table, r)
    ensures !Touches(s, a, r)
  {
    hide Inv, Exclusive, PageShape, Timely;
    if a.WriteTokens? {
      PlacedAndFilled(cfg, s);
      FillingPage(cfg, s, a.ref);
      OnlyItself(s, a.ref, r);
    }
  }

  lemma OnlyItself(s: State, r: BlockRef, k: BlockRef)
    requires Exclusive(s) && r in s.core.table.blocks && !s.core.table.blocks[r].complete && HasEntry(s.tables, r)
    ensures BoundTo(s.tables, k, EntryOf(s.tables, r)) ==> k == r
  {
  }

  lemma {:induction false} NoFinalWrite(cfg: Config, states: seq<State>, acts: seq<Action>, i: nat, j: nat, r: BlockRef)
    requires OrderlyRun(cfg, states, acts) && Run(cfg, states, acts) && i <= j < |states|
    requires TrackedThroughout(states, i, j, r) && IsComplete(states[i].core.table, r)
    ensures FinalWrite(states, acts, r, i, j) == None
    decreases j
  {
    hide Inv, Exclusive, OrderlyStep, Init, Step, Touches;
    if i < j {
      NoFinalWrite(cfg, states, acts, i, j - 1, r);
      FullBlocksAreFrozen(cfg, states, acts, i, j - 1, r);
      OrderlyPrefix(cfg, states, acts, j - 1);
      OrderlyWritesMissFullBlocks(cfg, states[j - 1], acts[j - 1], states[j], r);
    }
  }

  /** Data integrity of orderly runs: a block full at i and tracked up to j holds at j, wherever it is by
      then, exactly the contents it had at i. */
  lemma OrderlyDataIntegrity(cfg: Config, states: seq<State>, acts: seq<Action>, i: nat, j: nat, r: BlockRef, v: Page)
    requires OrderlyRun(cfg, states, acts) && i <= j < |states|
    requires TrackedThroughout(states, i, j, r) && IsComplete(states[i].core.table, r)
    requires Holds(cfg, states[i].core, r, v)
    ensures Holds(cfg, states[j].core, r, v)
  {
    hide OrderlyStep, Step, Init, Holds, Exclusive;
    OrderlyRunIsRun(cfg, states, acts);
    NoFinalWrite(cfg, states, acts, i, j, r);
    DataIntegrity(cfg, states, acts, i, j, r, v);
  }
}
