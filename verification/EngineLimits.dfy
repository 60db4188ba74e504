/** Where the engine's promises need a condition: late store completions, preemption without cleanup,
    and what pending store events say about blocks. Each condition is exact. */
module EngineLimits {
  import opened Blocks
  import opened Residencies
  import opened Layout
  import opened Offloading
  import opened Staging
  import opened Engine
  import opened EngineTables
  import opened EngineSync
  import opened EngineFinish
  import opened EngineRuns
  import opened EnginePages
  import opened EngineEnabled
  import opened EngineTheorems

  // ------------------------------------------------------------------ late store completions

  /** A page has been bound to the very position a pending store event names it for. */
  ghost predicate BoundLate(cfg: Config, s: State, q: string, p: nat, s1: State) {
    && cfg.trueFree && !NoStaleHit(s, q, p) && p < cfg.base && p < |s.refCnt| && p != cfg.nullPage
    && s1 == s.(tables := Extended(s.tables, q, p), refCnt := s.refCnt[p := s.refCnt[p] + 1])
  }

  /** The request syncs: the block at that position is now tracked, on the GPU, on that page. */
  lemma LateSync(cfg: Config, s: State, q: string, p: nat, s1: State) returns (computed: nat, s2: State)
    requires ConfigOk(cfg) && Inv(cfg, s) && BoundLate(cfg, s, q, p, s1)
    ensures Sync(cfg, s1, q, computed, s2)
    ensures var r := NextRef(s.tables, q);
      && Resides(s2.core.table, r, GPU) && s2.core.table.blocks[r].gpu == Some(p)
      && HasEntry(s2.tables, r) && EntryOf(s2.tables, r) == p && Recorded(s2, Entry(r, p))
    ensures TablesOk(cfg, s2) && s2.tables == s1.tables && s2.refCnt == s1.refCnt
    ensures forall e :: Recorded(s2, e) ==> e.page != cfg.nullPage
    ensures forall k :: k in s2.pending ==> k < s2.nextEvent
  {
    hide CoreInv, Filled, ScoredExactly, AllIntact, Counted, Tracked, Placed, Extended, Full, SyncedTable, Holders,
         EventsSafe;
    var r := NextRef(s.tables, q);
    LateEvents(cfg, s, q, p);
    ExtendedEntries(s.tables, q, p);
    ExtendedKeepsPlacement(cfg, s, q, p, s1);
    ExtendedCounts(cfg, s, q, p, s1);
    NotTrackedYet(cfg, s, r);
    assert q in s1.tables by { assert HasEntry(s1.tables, r); }
    computed := EnoughTokens(cfg, |s1.tables[q]|, if q in s1.computed then s1.computed[q] else 0);
    s2 := SyncExists(cfg, s1, q, computed);
    hide Sync;
    SyncedAt(cfg, s1.core.table, q, s1.tables[q], computed, r);
    CountsUnchanged(cfg, s1, s2);
    PlacedBelow(cfg, s1);
  }

  lemma PlacedBelow(cfg: Config, s: State)
    requires Placed(cfg, s)
    ensures EntriesBelow(cfg, s.tables)
  {
  }

  lemma NotTrackedYet(cfg: Config, s: State, r: BlockRef)
    requires Placed(cfg, s) && !HasEntry(s.tables, r)
    ensures r !in s.core.table.blocks
  {
  }

  lemma LateEvents(cfg: Config, s: State, q: string, p: nat)
    requires EventsSafe(cfg, s) && !NoStaleHit(s, q, p)
    ensures !IsWarmup(q) && (forall e :: Recorded(s, e) ==> e.page != cfg.nullPage)
    ensures forall k :: k in s.pending ==> k < s.nextEvent
  {
    var e := Entry(NextRef(s.tables, q), p);
    assert Recorded(s, e);
    assert EntrySafe(cfg, s, e);
    forall e2 | Recorded(s, e2) ensures e2.page != cfg.nullPage {
      assert EntrySafe(cfg, s, e2);
    }
  }

  /** If the entry is still in the accumulator, it is flushed. */
  lemma LateFlush(s: State, e: Entry) returns (ls: seq<Later>, k: nat, s': State)
    requires Recorded(s, e) && forall j :: j in s.pending ==> j < s.nextEvent
    ensures k in s'.pending && e in s'.pending[k]
    ensures s' == s.(acc := s'.acc, pending := s'.pending, nextEvent := s'.nextEvent)
    ensures forall x :: Recorded(s', x) ==> Recorded(s, x)
    ensures (ls == [] && s' == s) || (ls == [Does(FlushStores)] && Flush(s, s'))
  {
    if e in s.acc {
      s' := s.(acc := [], pending := s.pending[s.nextEvent := s.acc], nextEvent := s.nextEvent + 1);
      k, ls := s.nextEvent, [Does(FlushStores)];
      forall x | Recorded(s', x) ensures Recorded(s, x) {
      }
    } else {
      var j :| j in s.pending && e in s.pending[j];
      s', k, ls := s, j, [];
    }
  }

  /** The completion takes the entry away; the block stays on the GPU. */
  lemma LateCompletion(cfg: Config, s: State, e: Entry, k: nat) returns (s': State)
    requires ConfigOk(cfg) && cfg.trueFree && TablesOk(cfg, s) && k in s.pending && e in s.pending[k]
    requires forall x :: Recorded(s, x) ==> x.page != cfg.nullPage
    requires HasEntry(s.tables, e.ref)
    ensures Complete(cfg, s, k, s') && s'.core == s.core && TablesOk(cfg, s')
    ensures HasEntry(s'.tables, e.ref) && EntryOf(s'.tables, e.ref) != e.page
    ensures forall r :: HasEntry(s'.tables, r) ==>
      HasEntry(s.tables, r) && (EntryOf(s'.tables, r) == EntryOf(s.tables, r) || EntryOf(s'.tables, r) == cfg.nullPage)
  {
    hide TablesOk;
    var s1, es := s.(pending := s.pending - {k}), s.pending[k];
    TablesUnchanged(cfg, s, s1);
    forall x | x in es ensures x.page != cfg.nullPage {
      assert Recorded(s, x);
    }
    s' := SurgeryN(cfg, s1, es, |es|);
    var i :| 0 <= i < |es| && es[i] == e;
    SurgeriesKeepTables(cfg, s1, es, |es|);
    SurgeryNIsThorough(cfg, s1, es, |es|, i);
    SurgeryNOnly(cfg, s1, es, |es|);
    hide SurgeryN;
    forall r ensures HasEntry(s'.tables, r) <==> HasEntry(s.tables, r)
      ensures HasEntry(s.tables, r) && EntryOf(s'.tables, r) != EntryOf(s.tables, r) ==>
        EntryOf(s'.tables, r) == cfg.nullPage
    {
      SurgeryNEntries(cfg, s1, es, |es|, r);
    }
  }

  lemma TablesUnchanged(cfg: Config, s: State, s': State)
    requires TablesOk(cfg, s) && s'.tables == s.tables && s'.refCnt == s.refCnt
    ensures TablesOk(cfg, s')
  {
    hide Counted;
    CountsUnchanged(cfg, s, s');
  }

  ghost predicate Unreferenced(s: State, p: nat) {
    p < |s.refCnt| && s.refCnt[p] == 0
  }

  /** A way to go on that ends with a block on the GPU whose table entry is not its page, and, if so
      claimed, on a page nobody holds. */
  ghost predicate Breaks(cfg: Config, s: State, lost: bool, states: seq<State>, ls: seq<Later>) {
    && From(cfg, s, states, ls)
    && !Owned(cfg, states[|ls|]) && (lost ==> !PagesHeld(cfg, states[|ls|]))
  }

  /** So from a late binding the engine can go on to a state in which a block on the GPU has lost its
      table entry; and if the page was free before, nobody holds the page any more. */
  lemma LateBindingBreaks(cfg: Config, s: State, q: string, p: nat, s1: State)
    returns (states: seq<State>, ls: seq<Later>)
    requires ConfigOk(cfg) && Inv(cfg, s) && BoundLate(cfg, s, q, p, s1)
    ensures Breaks(cfg, s1, Unreferenced(s, p), states, ls)
  {
    hide Inv, Sync, Complete, TablesOk, Flush, Owned, PagesHeld;
    var r := NextRef(s.tables, q);
    var computed, s2 := LateSync(cfg, s, q, p, s1);
    var flush, k, s3 := LateFlush(s2, Entry(r, p));
    TablesUnchanged(cfg, s2, s3);
    var s4 := LateCompletion(cfg, s3, Entry(r, p), k);
    assert Resides(s4.core.table, r, GPU) && s4.core.table.blocks[r].gpu == Some(p);
    LostEntry(cfg, s, q, p, s1, s4);
    ls := [Does(SyncRequest(q, computed))] + flush + [Does(CompleteStore(k))];
    states := if flush == [] then [s1, s2, s4] else [s1, s2, s3, s4];
    assert Step(cfg, s1, SyncRequest(q, computed), s2) && Step(cfg, s3, CompleteStore(k), s4);
    assert flush != [] ==> Step(cfg, s2, FlushStores, s3);
  }

  lemma LostEntry(cfg: Config, s: State, q: string, p: nat, s1: State, s4: State)
    requires ConfigOk(cfg) && Inv(cfg, s) && BoundLate(cfg, s, q, p, s1) && TablesOk(cfg, s4)
    requires var r := NextRef(s.tables, q);
      && Resides(s4.core.table, r, GPU) && s4.core.table.blocks[r].gpu == Some(p)
      && HasEntry(s4.tables, r) && EntryOf(s4.tables, r) != p
    requires forall k :: HasEntry(s4.tables, k) ==>
      HasEntry(s1.tables, k)
          && (EntryOf(s4.tables, k) == EntryOf(s1.tables, k) || EntryOf(s4.tables, k) == cfg.nullPage)
    ensures !Owned(cfg, s4)
    ensures Unreferenced(s, p) ==> !PagesHeld(cfg, s4)
  {
    hide CoreInv, Filled, ScoredExactly, AllIntact, Tracked, Placed, Extended, EventsSafe;
    ExtendedEntries(s.tables, q, p);
    if s.refCnt[p] == 0 {
      assert Holders(s4.tables, p) == {} by {
        forall k | k in Holders(s4.tables, p) ensures false {
          UnreferencedPage(cfg, s, p, k);
        }
      }
      assert s4.refCnt[p] == 0;
    }
  }

  /** Binding a free page is safe for ever if and only if there is no true freeing, or no store event
      still names that position and page. */
  lemma AllocSafeIff(cfg: Config, s: State, q: string, p: nat, s': State)
    requires ConfigOk(cfg) && Inv(cfg, s) && Alloc(cfg, s, q, p, s')
    ensures AlwaysHeld(cfg, s') <==> (!cfg.trueFree || NoStaleHit(s, q, p))
  {
    hide Inv, Owned, PagesHeld, NoStaleHit, PageInv, AlwaysOwned;
    if !cfg.trueFree || NoStaleHit(s, q, p) {
      AllocKeepsInv(cfg, s, q, p, s');
      InvIsPageInv(cfg, s');
      PageInvIsForever(cfg, s');
    } else {
      InvTablesOk(cfg, s);
      FreeIsNormal(cfg, s, p);
      assert BoundLate(cfg, s, q, p, s');
      var states, ls := LateBindingBreaks(cfg, s, q, p, s');
    }
  }

  lemma FreeIsNormal(cfg: Config, s: State, p: nat)
    requires TablesOk(cfg, s) && p < |s.refCnt| && p != cfg.nullPage && s.refCnt[p] == 0
    ensures p < cfg.base
  {
    hide Holders;
  }

  /** Binding a shared page keeps every GPU block's table entry right for ever under the same condition. */
  lemma ShareSafeIff(cfg: Config, s: State, q: string, p: nat, s': State)
    requires ConfigOk(cfg) && Inv(cfg, s) && Share(cfg, s, q, p, s')
    ensures AlwaysOwned(cfg, s') <==> (!cfg.trueFree || NoStaleHit(s, q, p))
  {
    hide Inv, Owned, PagesHeld, NoStaleHit, PageInv, AlwaysHeld, Holders;
    if !cfg.trueFree || NoStaleHit(s, q, p) {
      ShareKeepsInv(cfg, s, q, p, s');
      InvIsPageInv(cfg, s');
      PageInvIsForever(cfg, s');
    } else {
      assert BoundLate(cfg, s, q, p, s');
      var states, ls := LateBindingBreaks(cfg, s, q, p, s');
    }
  }

  // ------------------------------------------------------------------ a run that leaves an event behind

  /** A start state, a request and a page to try it with. */
  ghost predicate Scene(cfg: Config, s: State, q: string, p: nat) {
    && ConfigOk(cfg) && Init(cfg, s) && 0 < cfg.cpuSlots
    && p < cfg.base && p != cfg.nullPage && !IsWarmup(q)
  }

  function BlankPage(d: Dims): (page: Page)
    ensures PageShape(d, page)
  {
    seq(d.layers, _ => seq(d.heads, _ => seq(d.tokens, _ => seq(2 * d.channels, _ => 0.0))))
  }

  function FirstN(n: nat): (s: seq<nat>)
    ensures |s| == n && forall i :: 0 <= i < n ==> s[i] == i
  {
    seq(n, i => i)
  }

  /** Every configuration with a CPU slot has such a starting point, for every request and normal page. */
  lemma SceneExists(cfg: Config, q: string, p: nat) returns (s: State)
    requires ConfigOk(cfg) && 0 < cfg.cpuSlots && p < cfg.base && p != cfg.nullPage && !IsWarmup(q)
    ensures Scene(cfg, s, q, p)
  {
    hide PageShape, BlankPage, IsWarmup, FirstN;
    var gpu := seq(cfg.numPages, _ => BlankPage(cfg.d));
    var core := Core(Table([], map[], 0), Pool([], map[], FirstN(cfg.stagingSlots)), FirstN(cfg.cpuSlots), map[], {},
                     map[], gpu, seq(cfg.cpuSlots, _ => []));
    var counts: seq<nat> := seq(cfg.numPages, i => if i >= cfg.base then 1 else 0);
    s := State(core, map[], map[], counts, map[], [], map[], 0, map[]);
    FirstNFacts(cfg.stagingSlots);
    FirstNFacts(cfg.cpuSlots);
    BlankPageFacts(cfg.d);
  }

  lemma FirstNFacts(n: nat)
    ensures Distinct(FirstN(n)) && forall x :: x in FirstN(n) <==> 0 <= x < n
  {
    forall x | 0 <= x < n ensures x in FirstN(n) {
      assert FirstN(n)[x] == x;
    }
  }

  lemma BlankPageFacts(d: Dims)
    ensures PageShape(d, BlankPage(d))
  {
  }

  lemma SceneAllocates(cfg: Config, s: State, q: string, p: nat) returns (s': State)
    requires Scene(cfg, s, q, p)
    ensures Step(cfg, s, Allocate(q, p), s') && Inv(cfg, s')
    ensures s' == s.(tables := map[q := [p]], refCnt := s'.refCnt) && p < |s'.refCnt| && s'.refCnt[p] == 1
  {
    hide Inv, PageShape;
    InitEstablishesInv(cfg, s);
    s' := s.(tables := Extended(s.tables, q, p), refCnt := s.refCnt[p := 1]);
    assert [] + [p] == [p];
    assert !Recorded(s, Entry(NextRef(s.tables, q), p));
    assert Step(cfg, s, Allocate(q, p), s');
    hide Init;
    StepKeepsInv(cfg, s, Allocate(q, p), s');
  }

  lemma SceneSyncs(cfg: Config, s: State, q: string, p: nat) returns (s': State)
    requires ConfigOk(cfg) && Inv(cfg, s) && s.tables == map[q := [p]] && !IsWarmup(q) && s.computed == map[]
    requires s.mirror == map[]
    requires s.core.table.blocks == map[] && p < |s.refCnt| && s.refCnt[p] == 1
    ensures Step(cfg, s, SyncRequest(q, cfg.pageSize), s') && Inv(cfg, s')
    ensures var r := BlockRef(q, 0);
      && s'.core.table.blocks == map[r := Location(GPU, Some(p), None, None, true)]
      && SoleOwned(s'.core.table.blocks, s'.refCnt)(r)
    ensures s'.tables == s.tables && s'.acc == s.acc && s'.pending == s.pending && s'.nextEvent == s.nextEvent
    ensures s'.core.cpuFree == s.core.cpuFree
  {
    hide CoreInv, Filled, ScoredExactly, AllIntact, EventsSafe, Counted, Tracked, Placed, SyncedTable, Act;
    var r := BlockRef(q, 0);
    assert Full(cfg, 0, cfg.pageSize);
    s' := SyncExists(cfg, s, q, cfg.pageSize);
    forall k ensures k in s'.core.table.blocks <==> k == r {
      SyncedAt(cfg, s.core.table, q, [p], cfg.pageSize, k);
    }
    SyncedAt(cfg, s.core.table, q, [p], cfg.pageSize, r);
    SyncIsStep(cfg, s, q, cfg.pageSize, s');
    hide Inv, Sync;
    StepKeepsInv(cfg, s, SyncRequest(q, cfg.pageSize), s');
  }

  lemma SyncIsStep(cfg: Config, s: State, q: string, computed: nat, s': State)
    requires Sync(cfg, s, q, computed, s')
    ensures Step(cfg, s, SyncRequest(q, computed), s')
  {
    hide Sync;
  }

  lemma SceneOffloads(cfg: Config, s: State, r: BlockRef, p: nat) returns (s3: State, s4: State)
    requires ConfigOk(cfg) && Inv(cfg, s) && s.core.cpuFree != [] && s.acc == []
    requires s.core.table.blocks == map[r := Location(GPU, Some(p), None, None, true)]
    requires SoleOwned(s.core.table.blocks, s.refCnt)(r)
    ensures Step(cfg, s, Offload(0.5, true), s3) && Step(cfg, s3, FlushStores, s4) && Inv(cfg, s4)
    ensures s4 == s.(core := s4.core, pending := s.pending[s.nextEvent := [Entry(r, p)]], nextEvent := s.nextEvent + 1)
  {
    hide Inv, Trigger;
    s3 := TriggerExists(cfg, s, r);
    assert Step(cfg, s, Offload(0.5, true), s3);
    StepKeepsInv(cfg, s, Offload(0.5, true), s3);
    assert [] + [Entry(r, p)] == [Entry(r, p)];
    s4 := s3.(acc := [], pending := s3.pending[s3.nextEvent := s3.acc], nextEvent := s3.nextEvent + 1);
    assert Step(cfg, s3, FlushStores, s4);
    StepKeepsInv(cfg, s3, FlushStores, s4);
  }

  lemma SceneFinishes(cfg: Config, s: State, q: string, p: nat) returns (s': State)
    requires ConfigOk(cfg) && Inv(cfg, s) && s.tables == map[q := [p]] && p < cfg.base && p != cfg.nullPage
    ensures Step(cfg, s, FinishRequest(q), s') && Inv(cfg, s')
    ensures s'.tables == map[] && s'.acc == s.acc && s'.pending == s.pending && q !in s'.computed && q !in s'.mirror
    ensures Unreferenced(s', p)
  {
    hide Inv, CleanedCore, Holders, TablesOk;
    InvTablesOk(cfg, s);
    TablesCounted(cfg, s);
    s' := FinishExists(cfg, s, q);
    assert Step(cfg, s, FinishRequest(q), s');
    StepKeepsInv(cfg, s, FinishRequest(q), s');
    InvTablesOk(cfg, s');
    NoTablesNoCounts(cfg, s', p);
  }

  lemma TablesCounted(cfg: Config, s: State)
    requires TablesOk(cfg, s)
    ensures Counted(cfg, s)
  {
  }

  lemma NoTablesNoCounts(cfg: Config, s: State, p: nat)
    requires ConfigOk(cfg) && TablesOk(cfg, s) && s.tables == map[] && p < cfg.base && p != cfg.nullPage
    ensures Unreferenced(s, p)
  {
    assert Holders(s.tables, p) == {};
  }

  /** The run: a request is admitted, synced, offloaded, its store event flushed, and the request
      finishes before the event completes. */
  ghost predicate LeavesEvent(cfg: Config, q: string, p: nat, states: seq<State>, acts: seq<Action>) {
    && Run(cfg, states, acts) && |states| == 6
    && acts == [Allocate(q, p), SyncRequest(q, cfg.pageSize), Offload(0.5, true), FlushStores, FinishRequest(q)]
    && EventPending(cfg, states[5], q, p)
  }

  ghost predicate EventPending(cfg: Config, s: State, q: string, p: nat) {
    && Inv(cfg, s) && s.tables == map[] && q !in s.computed && q !in s.mirror && s.acc == [] && Unreferenced(s, p)
    && (exists k :: k in s.pending && s.pending[k] == [Entry(BlockRef(q, 0), p)])
    && (forall e :: Recorded(s, e) ==> e == Entry(BlockRef(q, 0), p))
  }

  lemma RunOfFive(cfg: Config, s0: State, a0: Action, s1: State, a1: Action, s2: State, a2: Action, s3: State,
                  a3: Action, s4: State, a4: Action, s5: State)
    requires ConfigOk(cfg) && Init(cfg, s0)
    requires Step(cfg, s0, a0, s1) && Step(cfg, s1, a1, s2) && Step(cfg, s2, a2, s3) && Step(cfg, s3, a3, s4)
    requires Step(cfg, s4, a4, s5)
    ensures Run(cfg, [s0, s1, s2, s3, s4, s5], [a0, a1, a2, a3, a4])
  {
    hide Step, Init;
    var states, acts := [s0, s1, s2, s3, s4, s5], [a0, a1, a2, a3, a4];
    forall i | 0 <= i < |acts| ensures Step(cfg, states[i], acts[i], states[i + 1]) {
      if i == 0 {} else if i == 1 {} else if i == 2 {} else if i == 3 {} else {}
    }
  }

  /** A request with one full block on a page of its own, nothing recorded yet. */
  ghost predicate Admitted(cfg: Config, s: State, q: string, p: nat) {
    && Inv(cfg, s) && s.tables == map[q := [p]] && s.acc == [] && s.pending == map[] && s.core.cpuFree != []
    && s.core.table.blocks == map[BlockRef(q, 0) := Location(GPU, Some(p), None, None, true)]
    && SoleOwned(s.core.table.blocks, s.refCnt)(BlockRef(q, 0))
  }

  lemma SceneAdmits(cfg: Config, s: State, q: string, p: nat) returns (s1: State, s2: State)
    requires Scene(cfg, s, q, p)
    ensures Step(cfg, s, Allocate(q, p), s1) && Step(cfg, s1, SyncRequest(q, cfg.pageSize), s2)
    ensures Admitted(cfg, s2, q, p)
  {
    hide Inv, Step, Init, SoleOwned, IsWarmup;
    SceneFacts(cfg, s, q, p);
    s1 := SceneAllocates(cfg, s, q, p);
    s2 := SceneSyncs(cfg, s1, q, p);
  }

  lemma SceneLeaves(cfg: Config, s: State, q: string, p: nat) returns (s3: State, s4: State, s5: State)
    requires ConfigOk(cfg) && p < cfg.base && p != cfg.nullPage && Admitted(cfg, s, q, p)
    ensures Step(cfg, s, Offload(0.5, true), s3) && Step(cfg, s3, FlushStores, s4)
    ensures Step(cfg, s4, FinishRequest(q), s5)
    ensures EventPending(cfg, s5, q, p)
  {
    hide Inv, Step, SoleOwned;
    s3, s4 := SceneOffloads(cfg, s, BlockRef(q, 0), p);
    s5 := SceneFinishes(cfg, s4, q, p);
    assert s.nextEvent in s5.pending && s5.pending[s.nextEvent] == [Entry(BlockRef(q, 0), p)];
  }

  lemma EventLeftBehind(cfg: Config, s: State, q: string, p: nat) returns (states: seq<State>, acts: seq<Action>)
    requires Scene(cfg, s, q, p)
    ensures LeavesEvent(cfg, q, p, states, acts) && states[0] == s
  {
    hide Step, Init, Run, Admitted, EventPending, IsWarmup;
    var s1, s2 := SceneAdmits(cfg, s, q, p);
    var s3, s4, s5 := SceneLeaves(cfg, s2, q, p);
    states := [s, s1, s2, s3, s4, s5];
    acts := [Allocate(q, p), SyncRequest(q, cfg.pageSize), Offload(0.5, true), FlushStores, FinishRequest(q)];
    RunOfFive(cfg, s, acts[0], s1, acts[1], s2, acts[2], s3, acts[3], s4, acts[4], s5);
  }

  lemma SceneFacts(cfg: Config, s: State, q: string, p: nat)
    requires Scene(cfg, s, q, p)
    ensures s.core.cpuFree != [] && s.core.table.blocks == map[] && s.computed == map[] && s.mirror == map[]
    ensures s.acc == []
    ensures s.pending == map[]
  {
    assert 0 in s.core.cpuFree;
  }

  /** From every start state, with true freeing: a request is admitted, offloaded and finished, its name
      comes back, is given the same page, syncs, and then the old store event completes. The block is on
      the GPU, on a page nobody holds. Of the eight steps only the second binding is untimely. */
  lemma LateCompletionRun(cfg: Config, s: State, q: string, p: nat)
    returns (states: seq<State>, acts: seq<Action>, bound: State, later: seq<State>, ls: seq<Later>)
    requires Scene(cfg, s, q, p) && cfg.trueFree
    ensures LeavesEvent(cfg, q, p, states, acts) && states[0] == s
    ensures Alloc(cfg, states[5], q, p, bound) && Breaks(cfg, bound, true, later, ls)
  {
    hide Init, Inv, Breaks, Run;
    states, acts := EventLeftBehind(cfg, s, q, p);
    var s5 := states[5];
    bound := s5.(tables := Extended(s5.tables, q, p), refCnt := s5.refCnt[p := 1]);
    var k :| k in s5.pending && s5.pending[k] == [Entry(BlockRef(q, 0), p)];
    assert Entry(BlockRef(q, 0), p) in s5.pending[k];
    assert Recorded(s5, Entry(NextRef(s5.tables, q), p));
    later, ls := LateBindingBreaks(cfg, s5, q, p, bound);
  }

  // ------------------------------------------------------------------ preemption without cleanup

  /** The pages are given up and the orchestrator is told nothing: what happens to a preempted request
      when nobody calls the cleanup hook. */
  ghost predicate PreemptSilently(cfg: Config, s: State, q: string, s': State) {
    && q in s.tables
    && |s'.refCnt| == |s.refCnt|
    && (forall p :: 0 <= p < |s.refCnt| && p != cfg.nullPage ==>
          s'.refCnt[p] == s.refCnt[p] - |set r | r in Holders(s.tables, p) && r.req == q|)
    && s' == s.(tables := s.tables - {q}, refCnt := s'.refCnt)
  }

  lemma PreemptedCounts(cfg: Config, s: State, q: string, s': State)
    requires Counted(cfg, s) && PreemptSilently(cfg, s, q, s')
    ensures Counted(cfg, s')
  {
    hide Holders;
    forall p | 0 <= p < |s'.refCnt| && p != cfg.nullPage
      ensures s'.refCnt[p] == |Holders(s'.tables, p)| + (if p >= cfg.base then 1 else 0)
    {
      HoldersWithout(s.tables, q, p);
    }
  }

  lemma PreemptKeepsPages(cfg: Config, s: State, q: string, s': State)
    requires PageInv(cfg, s) && PreemptSilently(cfg, s, q, s')
    requires forall r :: Resides(s.core.table, r, GPU) ==> r.req != q
    ensures PageInv(cfg, s')
  {
    hide Counted, Holders, EventsSafe;
    PreemptedCounts(cfg, s, q, s');
    forall r | HasEntry(s'.tables, r)
      ensures HasEntry(s.tables, r) && EntryOf(s'.tables, r) == EntryOf(s.tables, r) && r.req != q
    {
    }
    forall r | Resides(s.core.table, r, GPU)
      ensures HasEntry(s'.tables, r) && EntryOf(s'.tables, r) == EntryOf(s.tables, r)
    {
      assert HasEntry(s.tables, r);
    }
    FinishKeepsEvents(cfg, s, s');
  }

  /** A block on the GPU whose request has no block table any more. */
  ghost predicate Orphan(cfg: Config, s: State, r: BlockRef, p: nat) {
    && |s.refCnt| == cfg.numPages && Counted(cfg, s) && GpuListed(s.core)
    && Resides(s.core.table, r, GPU) && s.core.table.blocks[r].gpu == Some(p) && p < cfg.base && p != cfg.nullPage
    && r.req !in s.tables
  }

  lemma OrphanSurvivesFinish(cfg: Config, s: State, r: BlockRef, p: nat, q: string, s': State)
    requires Orphan(cfg, s, r, p) && Finish(cfg, s, q, s')
    ensures Orphan(cfg, s', r, p) && s'.tables == s.tables - {q}
  {
    hide Counted, Holders, CleanedCore;
    FinishedCounts(cfg, s, q, s');
    FinishedTable(s.core, q);
  }

  /** Once every other request has finished, nobody holds the page the orphan sits on. */
  lemma {:induction false} OrphanEndsUnheld(cfg: Config, s: State, r: BlockRef, p: nat)
    returns (states: seq<State>, ls: seq<Later>)
    requires ConfigOk(cfg) && Orphan(cfg, s, r, p)
    ensures From(cfg, s, states, ls) && !PagesHeld(cfg, states[|ls|])
    decreases |s.tables|
  {
    hide PagesHeld, Finish, Orphan, LaterStep;
    if s.tables == map[] {
      OrphanUnheld(cfg, s, r, p);
      states, ls := [s], [];
    } else {
      var q :| q in s.tables;
      OrphanCounted(cfg, s, r, p);
      var s1 := FinishExists(cfg, s, q);
      OrphanSurvivesFinish(cfg, s, r, p, q, s1);
      assert |s1.tables| < |s.tables| by { assert s1.tables.Keys == s.tables.Keys - {q}; }
      var states1, ls1 := OrphanEndsUnheld(cfg, s1, r, p);
      states, ls := [s] + states1, [Does(FinishRequest(q))] + ls1;
      FinishIsStep(cfg, s, q, s1);
      FromPrepended(cfg, s, Does(FinishRequest(q)), s1, states1, ls1);
      assert states[|ls|] == states1[|ls1|];
    }
  }

  lemma OrphanCounted(cfg: Config, s: State, r: BlockRef, p: nat)
    requires Orphan(cfg, s, r, p)
    ensures Counted(cfg, s)
  {
  }

  lemma FromPrepended(cfg: Config, s: State, l: Later, s1: State, states: seq<State>, ls: seq<Later>)
    requires LaterStep(cfg, s, l, s1) && From(cfg, s1, states, ls)
    ensures From(cfg, s, [s] + states, [l] + ls)
  {
    hide LaterStep;
    var all, more := [s] + states, [l] + ls;
    forall i | 0 <= i < |more| ensures LaterStep(cfg, all[i], more[i], all[i + 1]) {
      if i > 0 {
        assert all[i] == states[i - 1] && more[i] == ls[i - 1] && all[i + 1] == states[i];
      }
    }
  }

  /** Giving up a request's pages without cleanup is safe for ever if and only if the request has no
      block on the GPU. */
  lemma SilentPreemptSafeIff(cfg: Config, s: State, q: string, s': State)
    requires ConfigOk(cfg) && Inv(cfg, s) && PreemptSilently(cfg, s, q, s')
    ensures AlwaysHeld(cfg, s') <==> forall r :: Resides(s.core.table, r, GPU) ==> r.req != q
  {
    hide Inv, AlwaysOwned, PagesHeld, PreemptSilently, PageInv;
    InvIsPageInv(cfg, s);
    if forall r :: Resides(s.core.table, r, GPU) ==> r.req != q {
      PreemptKeepsPages(cfg, s, q, s');
      PageInvIsForever(cfg, s');
    } else {
      var r :| Resides(s.core.table, r, GPU) && r.req == q;
      PreemptOrphans(cfg, s, q, s', r);
      var states, ls := OrphanEndsUnheld(cfg, s', r, s.core.table.blocks[r].gpu.value);
    }
  }

  lemma PreemptOrphans(cfg: Config, s: State, q: string, s': State, r: BlockRef)
    requires PageInv(cfg, s) && PreemptSilently(cfg, s, q, s') && Resides(s.core.table, r, GPU) && r.req == q
    ensures s.core.table.blocks[r].gpu.Some? && Orphan(cfg, s', r, s.core.table.blocks[r].gpu.value)
  {
    hide Counted, Holders, EventsSafe, GpuMirrored;
    PreemptedCounts(cfg, s, q, s');
  }

  /** Sharing the page only puts the failure off: from every start state, a second request shares the
      page, the first is preempted silently, which leaves all pages held, and then the second finishes. */
  lemma SharedThenFinished(cfg: Config, s: State, q: string, q2: string, p: nat)
    returns (s1: State, s2: State, s3: State, s4: State, s5: State)
    requires Scene(cfg, s, q, p) && q2 != q
    ensures Step(cfg, s, Allocate(q, p), s1) && Step(cfg, s1, SyncRequest(q, cfg.pageSize), s2)
    ensures Step(cfg, s2, ShareHit(q2, p), s3) && Inv(cfg, s3)
    ensures PreemptSilently(cfg, s3, q, s4) && PagesHeld(cfg, s4)
    ensures Step(cfg, s4, FinishRequest(q2), s5) && !PagesHeld(cfg, s5)
  {
    hide Inv, Init, PagesHeld, Finish, PreemptSilently, PageInv, Holders, Share, Counted, Orphan, Act, SoleOwned,
         IsWarmup;
    s1, s2 := SceneAdmits(cfg, s, q, p);
    s3 := SharedScene(cfg, s2, q, q2, p);
    InvIsPageInv(cfg, s3);
    s4 := PreemptExists(cfg, s3, q);
    SharedStillHeld(cfg, s3, q, q2, p, s4);
    var r := BlockRef(q, 0);
    PreemptOrphans(cfg, s3, q, s4, r);
    OrphanCounted(cfg, s4, r, p);
    PreemptedTables(cfg, s3, q, s4);
    s5 := FinishExists(cfg, s4, q2);
    FinishIsStep(cfg, s4, q2, s5);
    OrphanSurvivesFinish(cfg, s4, r, p, q2, s5);
    assert s5.tables == map[];
    OrphanUnheld(cfg, s5, r, p);
  }

  lemma FinishIsStep(cfg: Config, s: State, q: string, s': State)
    requires Finish(cfg, s, q, s')
    ensures Step(cfg, s, FinishRequest(q), s') && LaterStep(cfg, s, Does(FinishRequest(q)), s')
  {
    hide Finish;
  }

  lemma SharedScene(cfg: Config, s: State, q: string, q2: string, p: nat) returns (s': State)
    requires ConfigOk(cfg) && Admitted(cfg, s, q, p) && q2 != q && p < cfg.base && p != cfg.nullPage
    ensures Step(cfg, s, ShareHit(q2, p), s') && Inv(cfg, s') && s'.tables == map[q := [p], q2 := [p]]
    ensures s'.core == s.core
  {
    hide CoreInv, Filled, ScoredExactly, AllIntact, EventsSafe, Counted, Tracked, Placed;
    var r := BlockRef(q, 0);
    s' := s.(tables := Extended(s.tables, q2, p), refCnt := s.refCnt[p := s.refCnt[p] + 1]);
    assert [] + [p] == [p];
    assert !Recorded(s, Entry(NextRef(s.tables, q2), p));
    assert Step(cfg, s, ShareHit(q2, p), s');
    hide Inv, Share;
    StepKeepsInv(cfg, s, ShareHit(q2, p), s');
  }

  lemma PreemptExists(cfg: Config, s: State, q: string) returns (s': State)
    requires Inv(cfg, s) && q in s.tables
    ensures PreemptSilently(cfg, s, q, s')
  {
    hide Inv, Holders, Counted;
    InvTablesOk(cfg, s);
    TablesCounted(cfg, s);
    DroppedCountsFacts(cfg, s, q);
    s' := s.(tables := s.tables - {q}, refCnt := DroppedCounts(cfg, s, q));
  }

  lemma PreemptedTables(cfg: Config, s: State, q: string, s': State)
    requires PreemptSilently(cfg, s, q, s')
    ensures s'.tables == s.tables - {q} && s'.core == s.core
  {
  }

  lemma SharedStillHeld(cfg: Config, s: State, q: string, q2: string, p: nat, s': State)
    requires ConfigOk(cfg) && PageInv(cfg, s) && PreemptSilently(cfg, s, q, s') && q2 != q && p < cfg.base
    requires p != cfg.nullPage
    requires s.tables == map[q := [p], q2 := [p]]
    requires s.core.table.blocks == map[BlockRef(q, 0) := Location(GPU, Some(p), None, None, true)]
    ensures PagesHeld(cfg, s')
  {
    hide EventsSafe, GpuMirrored, GpuListed, Owned, NullsAreOffloaded;
    PreemptedCounts(cfg, s, q, s');
    assert BlockRef(q2, 0) in Holders(s'.tables, p);
  }

  lemma OrphanUnheld(cfg: Config, s: State, r: BlockRef, p: nat)
    requires ConfigOk(cfg) && Orphan(cfg, s, r, p) && s.tables == map[]
    ensures !PagesHeld(cfg, s)
  {
    assert Holders(s.tables, p) == {};
  }

  // ------------------------------------------------------------------ store events and full blocks

  /** A recorded block of a request that is tracked now has all its tokens computed. */
  ghost predicate EntryFull(cfg: Config, s: State, e: Entry) {
    e.ref.req in s.computed ==> Full(cfg, e.ref.idx, s.computed[e.ref.req])
  }

  ghost predicate EventsFull(cfg: Config, s: State) {
    forall e :: Recorded(s, e) ==> EntryFull(cfg, s, e)
  }

  /** A request that starts to be tracked is synced with enough tokens for every block that a store
      event of an earlier request of that name still records. */
  ghost predicate SyncCovers(cfg: Config, s: State, a: Action) {
    match a
    case SyncRequest(q, computed) =>
      q in s.computed || forall e :: Recorded(s, e) && e.ref.req == q ==> Full(cfg, e.ref.idx, computed)
    case _ => true
  }

  /** Each step keeps every recorded block full if and only if it is not a sync that falls short. */
  lemma StepKeepsEventsFullIff(cfg: Config, s: State, a: Action, s': State)
    requires ConfigOk(cfg) && Inv(cfg, s) && Step(cfg, s, a, s') && EventsFull(cfg, s)
    ensures EventsFull(cfg, s') <==> SyncCovers(cfg, s, a)
  {
    hide Inv, NoStaleHit, Extended, PageShape, EnsurePost, SyncedCore, Holders, CleanedCore, NewPages, ReleasedCore,
         SurgeryN, Trigger;
    match a
    case SyncRequest(q, computed) => SyncEventsFullIff(cfg, s, q, computed, s');
    case Offload(fraction, copied) => TriggerKeepsEventsFull(cfg, s, fraction, copied, s');
    case CompleteStore(k) =>
      SurgeryNOnly(cfg, s.(pending := s.pending - {k}), s.pending[k], |s.pending[k]|);
      SameComputed(cfg, s, s');
    case FinishRequest(q) => FinishKeepsEventsFull(cfg, s, q, s');
    case FlushStores => SameComputed(cfg, s, s');
    case _ => SameComputed(cfg, s, s');
  }

  lemma SameComputed(cfg: Config, s: State, s': State)
    requires EventsFull(cfg, s) && s'.computed == s.computed && forall e :: Recorded(s', e) ==> Recorded(s, e)
    ensures EventsFull(cfg, s')
  {
    hide Full;
    forall e | Recorded(s', e) ensures EntryFull(cfg, s', e) {
      assert EntryFull(cfg, s, e);
    }
  }

  lemma FinishKeepsEventsFull(cfg: Config, s: State, q: string, s': State)
    requires EventsFull(cfg, s) && Finish(cfg, s, q, s')
    ensures EventsFull(cfg, s')
  {
    hide Full, CleanedCore, Holders;
    forall e | Recorded(s', e) ensures EntryFull(cfg, s', e) {
      assert Recorded(s, e);
      assert EntryFull(cfg, s, e);
    }
  }

  lemma SyncEventsFullIff(cfg: Config, s: State, q: string, computed: nat, s': State)
    requires Sync(cfg, s, q, computed, s') && EventsFull(cfg, s)
    ensures EventsFull(cfg, s') <==> SyncCovers(cfg, s, SyncRequest(q, computed))
  {
    hide SyncedCore, NewPages;
    forall e ensures Recorded(s', e) <==> Recorded(s, e) {
    }
    assert s'.computed == s.computed[q := computed];
    if SyncCovers(cfg, s, SyncRequest(q, computed)) {
      forall e | Recorded(s', e) ensures EntryFull(cfg, s', e) {
        assert EntryFull(cfg, s, e);
      }
    } else {
      var e :| Recorded(s, e) && e.ref.req == q && !Full(cfg, e.ref.idx, computed);
      assert Recorded(s', e) && !EntryFull(cfg, s', e);
    }
  }

  lemma TriggerKeepsEventsFull(cfg: Config, s: State, fraction: real, copied: bool, s': State)
    requires Inv(cfg, s) && Trigger(cfg, s, fraction, copied, s') && EventsFull(cfg, s)
    ensures EventsFull(cfg, s')
  {
    hide CoreInv, Filled, ScoredExactly, AllIntact, Counted, Tracked, Placed, EventsSafe, Candidates, FractionChoice,
         CanOffload, Offloaded, EntriesFor, NothingOffloaded, Full;
    TriggerOnlyRecords(cfg, s, fraction, copied, s');
    forall e | Recorded(s', e) ensures EntryFull(cfg, s', e) {
      if Recorded(s, e) {
        assert EntryFull(cfg, s, e);
      } else {
        TriggerEntryFull(cfg, s, fraction, copied, s', e);
      }
    }
  }

  lemma TriggerEntryFull(cfg: Config, s: State, fraction: real, copied: bool, s': State, e: Entry)
    requires Inv(cfg, s) && Trigger(cfg, s, fraction, copied, s') && e in s'.acc && e !in s.acc
    ensures EntryFull(cfg, s', e)
  {
    hide CoreInv, Filled, ScoredExactly, AllIntact, Counted, Tracked, Placed, EventsSafe, Candidates, FractionChoice,
         CanOffload, Offloaded, EntriesFor, NothingOffloaded;
    TriggerOnlyRecords(cfg, s, fraction, copied, s');
    TriggerRecordsFullBlocks(cfg, s, fraction, copied, s', e);
  }

  lemma TriggerOnlyRecords(cfg: Config, s: State, fraction: real, copied: bool, s': State)
    requires Trigger(cfg, s, fraction, copied, s')
    ensures s'.computed == s.computed && s'.pending == s.pending
  {
    hide Candidates, FractionChoice, CanOffload, Offloaded, EntriesFor, NothingOffloaded;
  }

  /** Over whole runs: every block in every store event is full at every point if and only if no sync of
      the run starts tracking a request with fewer tokens than a pending event of that name needs. */
  lemma EventsFullIff(cfg: Config, states: seq<State>, acts: seq<Action>)
    requires Run(cfg, states, acts)
    ensures (forall i :: 0 <= i < |states| ==> EventsFull(cfg, states[i]))
      <==> (forall i :: 0 <= i < |acts| ==> SyncCovers(cfg, states[i], acts[i]))
  {
    hide Inv, Step, Init, EventsFull, SyncCovers;
    if forall i :: 0 <= i < |states| ==> EventsFull(cfg, states[i]) {
      forall i | 0 <= i < |acts| ensures SyncCovers(cfg, states[i], acts[i]) {
        RunKeepsInv(cfg, states, acts, i);
        assert EventsFull(cfg, states[i]) && EventsFull(cfg, states[i + 1]);
        StepKeepsEventsFullIff(cfg, states[i], acts[i], states[i + 1]);
      }
    }
    if forall i :: 0 <= i < |acts| ==> SyncCovers(cfg, states[i], acts[i]) {
      forall i | 0 <= i < |states| ensures EventsFull(cfg, states[i]) {
        CoveredRunIsFull(cfg, states, acts, i);
      }
    }
  }

  lemma {:induction false} CoveredRunIsFull(cfg: Config, states: seq<State>, acts: seq<Action>, i: nat)
    requires Run(cfg, states, acts) && i < |states|
    requires forall j :: 0 <= j < |acts| ==> SyncCovers(cfg, states[j], acts[j])
    ensures EventsFull(cfg, states[i])
  {
    hide Inv, Step, Init, EventsFull, SyncCovers;
    if i == 0 {
      NothingRecorded(cfg, states[0]);
    } else {
      CoveredRunIsFull(cfg, states, acts, i - 1);
      RunKeepsInv(cfg, states, acts, i - 1);
      StepKeepsEventsFullIff(cfg, states[i - 1], acts[i - 1], states[i]);
    }
  }

  lemma NothingRecorded(cfg: Config, s: State)
    requires Init(cfg, s)
    ensures EventsFull(cfg, s)
  {
    forall e ensures !Recorded(s, e) {
    }
  }

  /** In any run, a block stays full from when it was recorded for as long as its request is tracked. */
  lemma {:induction false} RecordedStaysFull(cfg: Config, states: seq<State>, acts: seq<Action>, i: nat, j: nat,
                                             r: BlockRef)
    requires Run(cfg, states, acts) && i <= j < |states|
    requires forall k :: i <= k <= j ==> r.req in states[k].computed
    requires Full(cfg, r.idx, states[i].computed[r.req])
    ensures Full(cfg, r.idx, states[j].computed[r.req])
    decreases j
  {
    hide Step, Init;
    if i < j {
      RecordedStaysFull(cfg, states, acts, i, j - 1, r);
      StepGrows(cfg, states[j - 1], acts[j - 1], states[j], r.req);
    }
  }

  lemma StepGrows(cfg: Config, s: State, a: Action, s': State, q: string)
    requires Step(cfg, s, a, s') && q in s.computed && q in s'.computed
    ensures s.computed[q] <= s'.computed[q]
  {
    hide NoStaleHit, Extended, PageShape, EnsurePost, SyncedCore, Holders, CleanedCore, NewPages, ReleasedCore,
         SurgeryN, Candidates, FractionChoice, CanOffload, Offloaded, EntriesFor, NothingOffloaded, Full;
    if a.CompleteStore? {
      SurgeryNOnly(cfg, s.(pending := s.pending - {a.event}), s.pending[a.event], |s.pending[a.event]|);
    }
  }

  /** With true freeing, an entry that still matches the block table is full in every reachable state. */
  lemma MatchingEntryIsFull(cfg: Config, s: State, e: Entry)
    requires Inv(cfg, s) && cfg.trueFree && Recorded(s, e) && HasEntry(s.tables, e.ref)
    requires EntryOf(s.tables, e.ref) == e.page
    ensures e.ref.req in s.computed && Full(cfg, e.ref.idx, s.computed[e.ref.req])
  {
    hide CoreInv, ScoredExactly, AllIntact, Counted, Tracked, Placed, Full;
    assert EntrySafe(cfg, s, e);
  }

  /** The property can fail: from every start state a run leaves an event behind, the name comes back on
      another page, and is synced before it has computed anything. */
  lemma LateEventNamesUnfilledBlock(cfg: Config, s: State, q: string, p: nat, p2: nat)
    returns (states: seq<State>, acts: seq<Action>, s6: State, s7: State)
    requires Scene(cfg, s, q, p) && 0 < cfg.pageSize && p2 != p && p2 < cfg.base && p2 != cfg.nullPage
    ensures LeavesEvent(cfg, q, p, states, acts) && states[0] == s
    ensures Step(cfg, states[5], Allocate(q, p2), s6) && Step(cfg, s6, SyncRequest(q, 0), s7)
    ensures Inv(cfg, s7) && !EventsFull(cfg, s7)
  {
    hide Init, Inv, Run, Step, EventsFull, IsWarmup;
    states, acts := EventLeftBehind(cfg, s, q, p);
    s6 := ReturnsElsewhere(cfg, states[5], q, p, p2);
    s7 := SyncsEmpty(cfg, s6, q, p, p2);
  }

  lemma ReturnsElsewhere(cfg: Config, s: State, q: string, p: nat, p2: nat) returns (s': State)
    requires ConfigOk(cfg) && EventPending(cfg, s, q, p) && !IsWarmup(q) && p2 != p && p2 < cfg.base
    requires p2 != cfg.nullPage
    ensures Step(cfg, s, Allocate(q, p2), s') && Inv(cfg, s') && s'.tables == map[q := [p2]]
    ensures s' == s.(tables := s'.tables, refCnt := s'.refCnt)
  {
    hide Inv;
    InvTablesOk(cfg, s);
    NoTablesNoCounts(cfg, s, p2);
    s' := s.(tables := Extended(s.tables, q, p2), refCnt := s.refCnt[p2 := 1]);
    assert [] + [p2] == [p2];
    assert Step(cfg, s, Allocate(q, p2), s');
    StepKeepsInv(cfg, s, Allocate(q, p2), s');
  }

  lemma SyncsEmpty(cfg: Config, s: State, q: string, p: nat, p2: nat) returns (s': State)
    requires ConfigOk(cfg) && Inv(cfg, s) && s.tables == map[q := [p2]] && q !in s.computed && q !in s.mirror
    requires !IsWarmup(q)
    requires 0 < cfg.pageSize && Recorded(s, Entry(BlockRef(q, 0), p))
    ensures Step(cfg, s, SyncRequest(q, 0), s') && Inv(cfg, s') && !EventsFull(cfg, s')
  {
    hide CoreInv, Filled, ScoredExactly, AllIntact, EventsSafe, Counted, Tracked, Placed, SyncedTable;
    var e := Entry(BlockRef(q, 0), p);
    s' := SyncExists(cfg, s, q, 0);
    assert Recorded(s', e) && !EntryFull(cfg, s', e);
    hide Sync, Inv;
    SyncIsStep(cfg, s, q, 0, s');
    StepKeepsInv(cfg, s, SyncRequest(q, 0), s');
  }
}
