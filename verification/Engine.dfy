/** The whole engine as one state machine: requests, pages, slots, staging, store events.
    `logical` is a bookkeeping copy: per block, what its page held when it was first tracked, then every
    write the model made to it. */
module Engine {
  import opened Blocks
  import opened Residencies
  import opened Layout
  import opened Scores
  import opened Scoring
  import opened Moves
  import opened Offloading
  import opened Staging

  /** Sizes and switches; meter and decay: how pages are measured and how a score follows what is measured. */
  datatype Config = Config(
    d: Dims, pageSize: nat, numPages: nat, base: nat, stagingSlots: nat, cpuSlots: nat, nullPage: nat,
    trueFree: bool, meter: Measure, decay: real)

  ghost predicate ConfigOk(cfg: Config) {
    cfg.base + cfg.stagingSlots == cfg.numPages && cfg.nullPage < cfg.base && 0 < cfg.stagingSlots
  }

  /** The orchestrator's side: residency, staging, CPU slots, scores, request lists, and the caches. */
  datatype Core = Core(
    table: Table, pool: Pool, cpuFree: seq<nat>, scores: map<BlockRef, real>, scored: set<BlockRef>,
    reqBlocks: map<string, seq<BlockRef>>, gpu: seq<Page>, cpu: seq<Slab>)

  /** A block recorded for a store event, with the page it was copied from. */
  datatype Entry = Entry(ref: BlockRef, page: nat)

  /** tables: each request's block table (req_to_blocks); mirror: the connector's copy of it;
      refCnt: references per page; computed: tokens computed per tracked request. */
  datatype State = State(
    core: Core, tables: map<string, seq<nat>>, mirror: map<string, seq<nat>>, refCnt: seq<nat>,
    computed: map<string, nat>, acc: seq<Entry>, pending: map<nat, seq<Entry>>, nextEvent: nat,
    logical: map<BlockRef, Page>)

  predicate Full(cfg: Config, idx: nat, computed: nat) {
    (idx + 1) * cfg.pageSize <= computed
  }

  predicate HasEntry(tables: map<string, seq<nat>>, r: BlockRef) {
    r.req in tables && r.idx < |tables[r.req]|
  }

  function EntryOf(tables: map<string, seq<nat>>, r: BlockRef): (p: nat)
    requires HasEntry(tables, r)
  {
    tables[r.req][r.idx]
  }

  ghost function AllEntries(tables: map<string, seq<nat>>): (s: set<BlockRef>) {
    set q, i | q in tables && 0 <= i < |tables[q]| :: BlockRef(q, i)
  }

  /** The block-table entries that point at a page. */
  ghost function Holders(tables: map<string, seq<nat>>, p: nat): (s: set<BlockRef>)
    ensures forall r :: r in s <==> HasEntry(tables, r) && EntryOf(tables, r) == p
  {
    var all := AllEntries(tables);
    assert forall r :: r in all <==> HasEntry(tables, r) by {
      forall r | HasEntry(tables, r) ensures r in all {
        assert r == BlockRef(r.req, r.idx);
      }
    }
    set r | r in all && EntryOf(tables, r) == p
  }

  // ------------------------------------------------------------------ invariants

  /** CPU slots: free list and the slots of blocks with a copy partition [0, n). */
  ghost predicate CopiesPartition(blocks: map<BlockRef, Location>, free: seq<nat>, n: nat) {
    && SlotsWithin(free, n)
    && (forall r :: r in blocks && blocks[r].cpuSlot.Some? ==>
          blocks[r].cpuSlot.value < n && blocks[r].cpuSlot.value !in free)
    && (forall r, k :: r in blocks && k in blocks && blocks[r].cpuSlot.Some? && blocks[r].cpuSlot == blocks[k].cpuSlot
          ==> r == k)
    && (forall s :: 0 <= s < n && s !in free ==> exists r :: r in blocks && blocks[r].cpuSlot == Some(s))
  }

  /** Blocks on the GPU hold no CPU slot. */
  ghost predicate GpuHoldsNoCopy(blocks: map<BlockRef, Location>) {
    forall r :: r in blocks && blocks[r].residency == GPU ==> blocks[r].cpuSlot == None
  }

  ghost predicate Sized(cfg: Config, s: State) {
    |s.core.gpu| == cfg.numPages == |s.refCnt| && |s.core.cpu| == cfg.cpuSlots
  }

  /** The tracked blocks are exactly the blocks of the tracked requests' lists. */
  ghost predicate Members(c: Core) {
    forall r :: r in c.table.blocks <==> r.req in c.reqBlocks && r.idx < |c.reqBlocks[r.req]|
  }

  /** Every list is contiguous from 0 and no longer than the request's block table. */
  ghost predicate Listed(c: Core, tables: map<string, seq<nat>>) {
    forall q :: q in c.reqBlocks ==>
      && c.reqBlocks[q] == RefsOf(q, |c.reqBlocks[q]|)
      && !IsWarmup(q)
      && q in tables && |c.reqBlocks[q]| <= |tables[q]|
  }

  /** The connector's copy of a block table is the tracked part of it. */
  ghost predicate Mirrored(s: State) {
    && s.mirror.Keys == s.core.reqBlocks.Keys
    && (forall q :: q in s.mirror ==>
          && q in s.tables && q in s.core.reqBlocks && |s.core.reqBlocks[q]| <= |s.tables[q]|
          && s.mirror[q] == s.tables[q][..|s.core.reqBlocks[q]|])
  }

  ghost predicate Tracked(s: State) {
    && Members(s.core)
    && Listed(s.core, s.tables)
    && Mirrored(s)
    && s.computed.Keys == s.core.reqBlocks.Keys
    && s.logical.Keys == s.core.table.blocks.Keys
  }

  /** A tracked block is complete exactly when its tokens are computed, and only complete blocks are
      anywhere but on their own GPU page. */
  ghost predicate Filled(cfg: Config, s: State) {
    forall r :: r in s.core.table.blocks ==>
      && r.req in s.computed
      && (s.core.table.blocks[r].complete <==> Full(cfg, r.idx, s.computed[r.req]))
      && (s.core.table.blocks[r].residency != GPU ==> s.core.table.blocks[r].complete)
  }

  ghost predicate IsComplete(t: Table, r: BlockRef) {
    r in t.blocks && t.blocks[r].complete
  }

  /** The scored blocks, the scorer's keys and the complete tracked blocks are the same. */
  ghost predicate ScoredExactly(c: Core) {
    && (forall r :: r in c.scored <==> IsComplete(c.table, r))
    && (forall r :: r in c.scores <==> IsComplete(c.table, r))
  }

  /** Block-table entries against residency: an entry is a normal page; it is the block's own page,
      or the null page once an offloaded block's page has been given up. */
  ghost predicate Placed(cfg: Config, s: State) {
    && (forall r :: r in s.core.table.blocks ==>
          && HasEntry(s.tables, r)
          && s.core.table.blocks[r].gpu.Some?
          && s.core.table.blocks[r].gpu.value != cfg.nullPage && s.core.table.blocks[r].gpu.value < cfg.base
          && (EntryOf(s.tables, r) == s.core.table.blocks[r].gpu.value
              || (EntryOf(s.tables, r) == cfg.nullPage && s.core.table.blocks[r].residency != GPU)))
    && (forall r :: HasEntry(s.tables, r) ==> EntryOf(s.tables, r) < cfg.base)
    && (forall r :: HasEntry(s.tables, r) && EntryOf(s.tables, r) == cfg.nullPage ==>
          r in s.core.table.blocks && s.core.table.blocks[r].residency != GPU)
  }

  /** Every non-null page's reference count is the number of table entries that point at it, plus one
      for a reserved tail page. */
  ghost predicate Counted(cfg: Config, s: State) {
    forall p :: 0 <= p < |s.refCnt| && p != cfg.nullPage ==>
      s.refCnt[p] == |Holders(s.tables, p)| + (if p >= cfg.base then 1 else 0)
  }

  /** The recorded location of every tracked block holds its contents. */
  ghost predicate Intact(cfg: Config, c: Core, tables: map<string, seq<nat>>, logical: map<BlockRef, Page>,
                         r: BlockRef) {
    && r in c.table.blocks && r in logical
    && PageShape(cfg.d, logical[r])
    && (HasEntry(tables, r) && EntryOf(tables, r) != cfg.nullPage ==>
          EntryOf(tables, r) < |c.gpu| && c.gpu[EntryOf(tables, r)] == logical[r])
    && (c.table.blocks[r].residency != GPU ==>
          && c.table.blocks[r].cpuSlot.Some? && c.table.blocks[r].cpuSlot.value < |c.cpu|
          && Unpack(cfg.d, c.cpu[c.table.blocks[r].cpuSlot.value]) == logical[r])
    && (c.table.blocks[r].residency == STAGING ==>
          && c.table.blocks[r].stagingSlot.Some? && cfg.base + c.table.blocks[r].stagingSlot.value < |c.gpu|
          && c.gpu[cfg.base + c.table.blocks[r].stagingSlot.value] == logical[r])
  }

  ghost predicate AllIntact(cfg: Config, s: State) {
    && (forall p :: 0 <= p < |s.core.gpu| ==> PageShape(cfg.d, s.core.gpu[p]))
    && (forall r :: r in s.core.table.blocks ==> Intact(cfg, s.core, s.tables, s.logical, r))
  }

  ghost predicate Recorded(s: State, e: Entry) {
    e in s.acc || exists k :: k in s.pending && e in s.pending[k]
  }

  /** With true freeing, a recorded entry that still matches the block table names a block that has left
      the GPU. (Without it a completion frees nothing, whatever the entry says.) */
  ghost predicate EntrySafe(cfg: Config, s: State, e: Entry) {
    && e.page != cfg.nullPage && !IsWarmup(e.ref.req)
    && (cfg.trueFree && HasEntry(s.tables, e.ref) && EntryOf(s.tables, e.ref) == e.page ==>
          e.ref in s.core.table.blocks && s.core.table.blocks[e.ref].residency != GPU)
  }

  ghost predicate EventsSafe(cfg: Config, s: State) {
    && (forall e :: e in s.acc ==> EntrySafe(cfg, s, e))
    && (forall k, e :: k in s.pending && e in s.pending[k] ==> EntrySafe(cfg, s, e))
    && (forall k :: k in s.pending ==> k < s.nextEvent)
  }

  ghost predicate CoreInv(cfg: Config, s: State) {
    && TableOk(s.core.table)
    && CopiesPartition(s.core.table.blocks, s.core.cpuFree, cfg.cpuSlots)
    && GpuHoldsNoCopy(s.core.table.blocks)
    && Settled(s.core.pool, s.core.table, cfg.stagingSlots)
  }

  ghost predicate Inv(cfg: Config, s: State) {
    && Sized(cfg, s)
    && CoreInv(cfg, s)
    && Tracked(s)
    && Filled(cfg, s)
    && ScoredExactly(s.core)
    && Placed(cfg, s)
    && Counted(cfg, s)
    && AllIntact(cfg, s)
    && EventsSafe(cfg, s)
  }

  // ------------------------------------------------------------------ steps

  /** The request's next block-table position. */
  function NextRef(tables: map<string, seq<nat>>, q: string): (r: BlockRef) {
    BlockRef(q, if q in tables then |tables[q]| else 0)
  }

  function Extended(tables: map<string, seq<nat>>, q: string, p: nat): (t: map<string, seq<nat>>) {
    tables[q := (if q in tables then tables[q] else []) + [p]]
  }

  /** No recorded entry names the very position and page that are about to be bound. */
  ghost predicate NoStaleHit(s: State, q: string, p: nat) {
    !Recorded(s, Entry(NextRef(s.tables, q), p))
  }

  /** A page from the free queue is bound to the request's next position. */
  ghost predicate Alloc(cfg: Config, s: State, q: string, p: nat, s': State) {
    && p < |s.refCnt| && p != cfg.nullPage && s.refCnt[p] == 0
    && s' == s.(tables := Extended(s.tables, q, p), refCnt := s.refCnt[p := 1])
  }

  /** A prefix hit: a live page is bound once more. */
  ghost predicate Share(cfg: Config, s: State, q: string, p: nat, s': State) {
    && p < cfg.base && p < |s.refCnt| && p != cfg.nullPage && s.refCnt[p] > 0
    && s' == s.(tables := Extended(s.tables, q, p), refCnt := s.refCnt[p := s.refCnt[p] + 1])
  }

  /** Where sync_request_blocks leaves one block. */
  function SyncLocation(blocks: map<BlockRef, Location>, r: BlockRef, page: nat, full: bool): (l: Location) {
    if r in blocks && blocks[r].residency != GPU then blocks[r].(complete := blocks[r].complete || full)
    else if r !in blocks || blocks[r].gpu != Some(page) then
      Location(GPU, Some(page), if r in blocks then blocks[r].cpuSlot else None, None, full)
    else blocks[r].(complete := blocks[r].complete || full)
  }

  function SyncLocations(cfg: Config, blocks: map<BlockRef, Location>, q: string, ids: seq<nat>, computed: nat)
    : (locs: seq<Location>)
    ensures |locs| == |ids|
    ensures forall i :: 0 <= i < |ids| ==>
      locs[i] == SyncLocation(blocks, BlockRef(q, i), ids[i], Full(cfg, i, computed))
  {
    seq(|ids|, i requires 0 <= i < |ids| => SyncLocation(blocks, BlockRef(q, i), ids[i], Full(cfg, i, computed)))
  }

  function SyncedTable(cfg: Config, t: Table, q: string, ids: seq<nat>, computed: nat): (t': Table) {
    PutN(t, RefsOf(q, |ids|), SyncLocations(cfg, t.blocks, q, ids, computed), |ids|)
  }

  predicate NeedsScore(blocks: map<BlockRef, Location>, scored: set<BlockRef>, r: BlockRef) {
    r in blocks && blocks[r].complete && blocks[r].residency == GPU && r !in scored
  }

  /** The blocks of the request that a sync scores. */
  ghost function NewlyScored(blocks: map<BlockRef, Location>, scored: set<BlockRef>, q: string, n: nat)
    : (r: set<BlockRef>)
  {
    set r | r in RefsOf(q, n) && NeedsScore(blocks, scored, r)
  }

  /** The block's score follows the score of the page its location names. A page without a layer, head or
      token has none. */
  ghost predicate ScoredByPage(cfg: Config, t: Table, gpu: seq<Page>, was: map<BlockRef, real>, r: BlockRef, x: real) {
    && r in t.blocks && t.blocks[r].gpu.Some? && t.blocks[r].gpu.value < |gpu|
    && (Measurable(cfg.d, gpu[t.blocks[r].gpu.value]) ==>
          x == Observed(was, cfg.decay, r, PageScore(cfg.meter, cfg.d, gpu[t.blocks[r].gpu.value]))[r])
  }

  /** Each of the blocks is scored by its own page; all other scores stay. */
  ghost predicate Rescored(cfg: Config, t: Table, gpu: seq<Page>, was: map<BlockRef, real>, refs: set<BlockRef>,
                           scores: map<BlockRef, real>) {
    && scores.Keys == was.Keys + refs
    && (forall r :: r in was && r !in refs ==> scores[r] == was[r])
    && (forall r :: r in refs ==> ScoredByPage(cfg, t, gpu, was, r, scores[r]))
  }

  ghost predicate SyncedCore(cfg: Config, c: Core, q: string, ids: seq<nat>, computed: nat, c': Core) {
    var t' := SyncedTable(cfg, c.table, q, ids, computed);
    var newly := NewlyScored(t'.blocks, c.scored, q, |ids|);
    && c'.scores.Keys == c.scores.Keys + newly
    && Rescored(cfg, t', c.gpu, c.scores, newly, c'.scores)
    && c' == c.(table := t', scores := c'.scores, scored := c.scored + newly,
                reqBlocks := c.reqBlocks[q := RefsOf(q, |ids|)])
  }

  /** The connector's copy of a request's block table. */
  function Known(mirror: map<string, seq<nat>>, q: string): (ids: seq<nat>) {
    if q in mirror then mirror[q] else []
  }

  function NewPages(tables: map<string, seq<nat>>, q: string, known: nat): (ids: seq<nat>) {
    if q in tables && known <= |tables[q]| then tables[q][known..] else []
  }

  /** The connector appends the new page ids to its copy of the block table and syncs the full list.
      Token counts only grow. */
  ghost predicate Sync(cfg: Config, s: State, q: string, computed: nat, s': State) {
    var known := Known(s.mirror, q);
    var ids := known + NewPages(s.tables, q, |known|);
    && q in s.tables && !IsWarmup(q)
    && (q in s.computed ==> s.computed[q] <= computed)
    && SyncedCore(cfg, s.core, q, ids, computed, s'.core)
    && s'.logical.Keys == s.logical.Keys + ToSet(RefsOf(q, |ids|))
    && (forall r :: r in s.logical ==> s'.logical[r] == s.logical[r])
    && (forall i :: 0 <= i < |ids| && BlockRef(q, i) !in s.logical ==>
          ids[i] < |s.core.gpu| && s'.logical[BlockRef(q, i)] == s.core.gpu[ids[i]])
    && s' == s.(core := s'.core, logical := s'.logical, mirror := s.mirror[q := ids],
                computed := s.computed[q := computed])
  }

  predicate BoundTo(tables: map<string, seq<nat>>, r: BlockRef, p: nat) {
    HasEntry(tables, r) && EntryOf(tables, r) == p
  }

  /** A write to a page is meant for every block bound to it. */
  ghost function WrittenTo(tables: map<string, seq<nat>>, logical: map<BlockRef, Page>, p: nat, page: Page)
    : (m: map<BlockRef, Page>)
  {
    map r | r in logical :: if BoundTo(tables, r, p) then page else logical[r]
  }

  /** The model writes tokens into a tracked block that is not full. */
  ghost predicate Write(cfg: Config, s: State, r: BlockRef, page: Page, s': State) {
    && r in s.core.table.blocks && r.req in s.computed && !Full(cfg, r.idx, s.computed[r.req])
    && HasEntry(s.tables, r) && EntryOf(s.tables, r) < |s.core.gpu| && PageShape(cfg.d, page)
    && s' == s.(core := s.core.(gpu := s.core.gpu[EntryOf(s.tables, r) := page]),
                logical := WrittenTo(s.tables, s.logical, EntryOf(s.tables, r), page))
  }

  /** Every tracked block bound to the page is on it, and not copied away. */
  ghost predicate AllAtHome(s: State, p: nat) {
    forall r :: r in s.core.table.blocks && BoundTo(s.tables, r, p) ==> s.core.table.blocks[r].residency == GPU
  }

  /** Anything may be written to a page nobody references, or to the null page. */
  ghost predicate ScribblePage(cfg: Config, s: State, p: nat, page: Page, s': State) {
    && p < |s.refCnt| == |s.core.gpu| && (s.refCnt[p] == 0 || p == cfg.nullPage) && PageShape(cfg.d, page)
    && s' == s.(core := s.core.(gpu := s.core.gpu[p := page]))
  }

  ghost predicate ScribbleStaging(cfg: Config, s: State, slot: nat, page: Page, s': State) {
    && slot in s.core.pool.free && cfg.base + slot < |s.core.gpu| && PageShape(cfg.d, page)
    && s' == s.(core := s.core.(gpu := s.core.gpu[cfg.base + slot := page]))
  }

  ghost predicate ScribbleCpu(s: State, slot: nat, slab: Slab, s': State) {
    && slot in s.core.cpuFree && slot < |s.core.cpu|
    && s' == s.(core := s.core.(cpu := s.core.cpu[slot := slab]))
  }

  function SoleOwned(blocks: map<BlockRef, Location>, refCnt: seq<nat>): (keep: BlockRef -> bool) {
    r => r in blocks && blocks[r].gpu.Some? && blocks[r].gpu.value < |refCnt| && refCnt[blocks[r].gpu.value] == 1
  }

  /** The candidates of an offload trigger: complete GPU blocks; with true freeing, sole-owned ones. */
  function Candidates(cfg: Config, s: State): (refs: seq<BlockRef>) {
    var all := GpuBlocks(s.core.table, true);
    if cfg.trueFree then Filter(SoleOwned(s.core.table.blocks, s.refCnt), all) else all
  }

  function StoreOf(c: Core): (st: Store) {
    Store(c.table, c.cpuFree, c.cpu)
  }

  function EntriesFor(t: Table, refs: seq<BlockRef>): (es: seq<Entry>)
    requires forall i :: 0 <= i < |refs| ==> refs[i] in t.blocks && t.blocks[refs[i]].gpu.Some?
    ensures |es| == |refs|
    ensures forall i :: 0 <= i < |refs| ==> es[i] == Entry(refs[i], t.blocks[refs[i]].gpu.value)
  {
    seq(|refs|, i requires 0 <= i < |refs| => Entry(refs[i], t.blocks[refs[i]].gpu.value))
  }

  /** Rescore all candidates, each by its own page, pick the coldest fraction, copy and publish them all or none, record
      what left for this step's store event. */
  ghost predicate Trigger(cfg: Config, s: State, fraction: real, copied: bool, s': State) {
    var c, c' := s.core, s'.core;
    var cands := Candidates(cfg, s);
    var scored := c.scored + ToSet(cands);
    var choice := FractionChoice(c.table.blocks, c'.scores, cands, fraction, scored);
    && c'.scores.Keys == c.scores.Keys + ToSet(cands)
    && Rescored(cfg, c.table, c.gpu, c.scores, ToSet(cands), c'.scores)
    && c' == c.(scores := c'.scores, scored := scored, table := c'.table, cpuFree := c'.cpuFree, cpu := c'.cpu)
    && if choice.Ok? && 0 < |choice.value| <= |c.cpuFree| && copied then
         && CanOffload(StoreOf(c), c.gpu, choice.value)
         && StoreOf(c') == Offloaded(cfg.d, c.gpu, StoreOf(c), choice.value)
         && s' == s.(core := c', acc := s.acc + EntriesFor(c.table, choice.value))
       else
         && NothingOffloaded(StoreOf(c), StoreOf(c'))
         && s' == s.(core := c')
  }

  /** All of a step's batches become one store event. */
  ghost predicate Flush(s: State, s': State) {
    && s.acc != []
    && s' == s.(acc := [], pending := s.pending[s.nextEvent := s.acc], nextEvent := s.nextEvent + 1)
  }

  /** tables[r] = p, where the request has that position. */
  function Rebound(tables: map<string, seq<nat>>, r: BlockRef, p: nat): (t: map<string, seq<nat>>) {
    if HasEntry(tables, r) then
      var row: seq<nat> := tables[r.req][r.idx := p];
      tables[r.req := row]
    else tables
  }

  /** Block-table surgery for one recorded entry. */
  function Surgery(cfg: Config, s: State, e: Entry): (s': State) {
    if HasEntry(s.tables, e.ref) && EntryOf(s.tables, e.ref) == e.page && e.page < |s.refCnt|
       && s.refCnt[e.page] > 0 then
      s.(tables := Rebound(s.tables, e.ref, cfg.nullPage),
         mirror := Rebound(s.mirror, e.ref, cfg.nullPage),
         refCnt := s.refCnt[e.page := s.refCnt[e.page] - 1])
    else s
  }

  function SurgeryN(cfg: Config, s: State, es: seq<Entry>, n: nat): (s': State)
    requires n <= |es|
  {
    if n == 0 then s else Surgery(cfg, SurgeryN(cfg, s, es, n - 1), es[n - 1])
  }

  /** Store completion: the event is consumed; with true freeing its pages are given up. */
  ghost predicate Complete(cfg: Config, s: State, k: nat, s': State) {
    && k in s.pending
    && var s1 := s.(pending := s.pending - {k});
       s' == if cfg.trueFree then SurgeryN(cfg, s1, s.pending[k], |s.pending[k]|) else s1
  }

  /** Any list of blocks is staged, with whatever scores currently rank the occupants. */
  ghost predicate Stage(cfg: Config, s: State, refs: seq<BlockRef>, copied: bool, s': State) {
    && (forall p :: 0 <= p < |s'.core.gpu| ==> PageShape(cfg.d, s'.core.gpu[p]))
    && (exists res :: EnsurePost(KeyOf(s.core.scores), cfg.d, cfg.base, s.core.pool, s.core.table, s.core.gpu,
                                 s.core.cpu, refs, copied, res, s'.core.pool, s'.core.table, s'.core.gpu))
    && s' == s.(core := s.core.(pool := s'.core.pool, table := s'.core.table, gpu := s'.core.gpu))
  }

  function ReleasedCore(c: Core, r: BlockRef): (c': Core) {
    c.(pool := ReleasedPool(c.pool, r), table := ReleasedTable(c.pool, c.table, r))
  }

  function FreedCore(c: Core, r: BlockRef): (c': Core) {
    c.(table := Removed(c.table, r), cpuFree := c.cpuFree + SlotList(c.table.blocks, r), scores := c.scores - {r},
       scored := c.scored - {r})
  }

  function CleanedN(c: Core, refs: seq<BlockRef>, n: nat): (c': Core)
    requires n <= |refs|
  {
    if n == 0 then c else FreedCore(ReleasedCore(CleanedN(c, refs, n - 1), refs[n - 1]), refs[n - 1])
  }

  /** _cleanup_request: drop every block of the request from staging, CPU pool, table and scorer. */
  function CleanedCore(c: Core, q: string): (c': Core) {
    var refs := if q in c.reqBlocks then c.reqBlocks[q] else [];
    CleanedN(c.(reqBlocks := c.reqBlocks - {q}), refs, |refs|)
  }

  /** The request ends or is preempted: cleanup, then its pages lose the references it held. Nobody keeps
      count of the null page. */
  ghost predicate Finish(cfg: Config, s: State, q: string, s': State) {
    && q in s.tables
    && |s'.refCnt| == |s.refCnt|
    && (forall p :: 0 <= p < |s.refCnt| && p != cfg.nullPage ==>
          s'.refCnt[p] == s.refCnt[p] - |set r | r in Holders(s.tables, p) && r.req == q|)
    && s' == s.(core := CleanedCore(s.core, q), tables := s.tables - {q}, mirror := s.mirror - {q},
                computed := s.computed - {q}, refCnt := s'.refCnt,
                logical := s.logical - (set r | r in s.logical && r.req == q))
  }
}
