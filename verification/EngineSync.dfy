/** Syncing a request: newly bound blocks become tracked, filled blocks become complete and scored. */
module EngineSync {
  import opened Blocks
  import opened Residencies
  import opened Layout
  import opened Moves
  import opened Offloading
  import opened Staging
  import opened Engine
  import opened EngineTables

  ghost predicate SyncEffect(cfg: Config, s: State, q: string, n: nat, computed: nat, t': Table) {
    var b, b' := s.core.table.blocks, t'.blocks;
    && q in s.tables && n == |s.tables[q]|
    && t'.version == s.core.table.version
    && (forall r :: r in b && r.req == q ==> r.idx < n)
    && (forall r :: r in b' <==> r in b || (r.req == q && r.idx < n))
    && (forall r :: r in b && r.req != q ==> b'[r] == b[r])
    && (forall r :: r in b && r.req == q ==> b'[r] == b[r].(complete := b[r].complete || Full(cfg, r.idx, computed)))
    && (forall r :: r in b' && r !in b ==>
          b'[r] == Location(GPU, Some(s.tables[q][r.idx]), None, None, Full(cfg, r.idx, computed)))
  }

  /** The connector's copy plus the new ids is the block table itself. */
  lemma SyncSeesTheTable(s: State, q: string)
    requires Tracked(s) && q in s.tables
    ensures var known := Known(s.mirror, q);
      known + NewPages(s.tables, q, |known|) == s.tables[q]
      && |known| == (if q in s.core.reqBlocks then |s.core.reqBlocks[q]| else 0)
  {
    if q in s.mirror {
      assert q in s.core.reqBlocks;
    } else {
      assert q !in s.core.reqBlocks;
    }
  }

  lemma RefsAreDistinct(q: string, n: nat)
    ensures Distinct(RefsOf(q, n))
    ensures forall r :: r in RefsOf(q, n) <==> r.req == q && r.idx < n
  {
    forall r: BlockRef | r.req == q && r.idx < n ensures r in RefsOf(q, n) {
      assert RefsOf(q, n)[r.idx] == r;
    }
  }

  /** What a sync of any list does to one block. */
  lemma SyncedAt(cfg: Config, t: Table, q: string, ids: seq<nat>, computed: nat, r: BlockRef)
    ensures var b' := SyncedTable(cfg, t, q, ids, computed).blocks;
      if r.req == q && r.idx < |ids|
      then r in b' && b'[r] == SyncLocation(t.blocks, r, ids[r.idx], Full(cfg, r.idx, computed))
      else (r in b' <==> r in t.blocks) && (r in t.blocks ==> b'[r] == t.blocks[r])
  {
    var n, refs := |ids|, RefsOf(q, |ids|);
    var locs := SyncLocations(cfg, t.blocks, q, ids, computed);
    RefsAreDistinct(q, n);
    if r.req == q && r.idx < n {
      assert refs[r.idx] == r;
      PutNWrites(t, refs, locs, n, r.idx);
    } else {
      assert refs[..n] == refs;
      PutNKeeps(t, refs, locs, n, r);
    }
  }

  /** A block that is tracked already is never bound to another page by a sync. */
  lemma SyncNeverRebinds(cfg: Config, s: State, q: string, i: nat, full: bool)
    requires Tracked(s) && Placed(cfg, s) && q in s.tables && i < |s.tables[q]|
    ensures var r, b := BlockRef(q, i), s.core.table.blocks;
      SyncLocation(b, r, s.tables[q][i], full) ==
        if r in b then b[r].(complete := b[r].complete || full)
          else Location(GPU, Some(s.tables[q][i]), None, None, full)
  {
    var r := BlockRef(q, i);
    if r in s.core.table.blocks {
      assert HasEntry(s.tables, r) && EntryOf(s.tables, r) == s.tables[q][i];
    }
  }

  lemma SyncAt(cfg: Config, s: State, q: string, computed: nat, r: BlockRef)
    requires Tracked(s) && Placed(cfg, s) && q in s.tables
    ensures var b, b' := s.core.table.blocks, SyncedTable(cfg, s.core.table, q, s.tables[q], computed).blocks;
      && (r in b && r.req == q ==> r.idx < |s.tables[q]|)
      && (r in b' <==> r in b || (r.req == q && r.idx < |s.tables[q]|))
      && (r in b && r.req != q ==> b'[r] == b[r])
      && (r in b && r.req == q ==> b'[r] == b[r].(complete := b[r].complete || Full(cfg, r.idx, computed)))
      && (r in b' && r !in b ==>
            b'[r] == Location(GPU, Some(s.tables[q][r.idx]), None, None, Full(cfg, r.idx, computed)))
  {
    var ids, t := s.tables[q], s.core.table;
    var n, refs := |ids|, RefsOf(q, |ids|);
    var locs := SyncLocations(cfg, t.blocks, q, ids, computed);
    RefsAreDistinct(q, n);
    if r.req == q && r.idx < n {
      assert refs[r.idx] == r;
      PutNWrites(t, refs, locs, n, r.idx);
      SyncNeverRebinds(cfg, s, q, r.idx, Full(cfg, r.idx, computed));
    } else {
      assert refs[..n] == refs;
      PutNKeeps(t, refs, locs, n, r);
    }
  }

  lemma SyncTableEffect(cfg: Config, s: State, q: string, computed: nat)
    requires Tracked(s) && Placed(cfg, s) && q in s.tables
    ensures SyncEffect(cfg, s, q, |s.tables[q]|, computed, SyncedTable(cfg, s.core.table, q, s.tables[q], computed))
  {
    hide Placed, Tracked, Full;
    SyncVersion(cfg, s, q, computed);
    hide SyncedTable;
    forall r {
      SyncAt(cfg, s, q, computed, r);
    }
  }

  lemma SyncVersion(cfg: Config, s: State, q: string, computed: nat)
    requires Tracked(s) && Placed(cfg, s) && q in s.tables
    ensures SyncedTable(cfg, s.core.table, q, s.tables[q], computed).version == s.core.table.version
  {
    hide Placed, Tracked, Full, PutN;
    var ids, t := s.tables[q], s.core.table;
    var n, refs := |ids|, RefsOf(q, |ids|);
    var locs := SyncLocations(cfg, t.blocks, q, ids, computed);
    RefsAreDistinct(q, n);
    PutNVersion(t, refs, locs, n);
    forall i | 0 <= i < n ensures Resides(t, refs[i], CPU) <==> locs[i].residency == CPU {
      SyncNeverRebinds(cfg, s, q, i, Full(cfg, i, computed));
    }
    SyncFlips(t, refs, locs, n);
  }

  lemma {:induction false} SyncFlips(t: Table, refs: seq<BlockRef>, locs: seq<Location>, n: nat)
    requires n <= |refs| == |locs|
    requires forall i :: 0 <= i < n ==> (Resides(t, refs[i], CPU) <==> locs[i].residency == CPU)
    ensures Flips(t, refs, locs, n) == 0
  {
    if n > 0 { SyncFlips(t, refs, locs, n - 1); }
  }

  lemma SyncedTableOk(cfg: Config, s: State, q: string, computed: nat)
    requires Tracked(s) && Placed(cfg, s) && TableOk(s.core.table) && q in s.tables
    ensures TableOk(SyncedTable(cfg, s.core.table, q, s.tables[q], computed))
  {
    hide Placed, Tracked;
    var ids := s.tables[q];
    var locs := SyncLocations(cfg, s.core.table.blocks, q, ids, computed);
    forall i | 0 <= i < |ids| ensures LocationOk(locs[i]) {
      SyncNeverRebinds(cfg, s, q, i, Full(cfg, i, computed));
    }
    PutNTableOk(s.core.table, RefsOf(q, |ids|), locs, |ids|);
  }

  lemma SyncedCopies(cfg: Config, s: State, q: string, n: nat, computed: nat, t': Table)
    requires SyncEffect(cfg, s, q, n, computed, t')
    requires CopiesPartition(s.core.table.blocks, s.core.cpuFree, cfg.cpuSlots)
    ensures CopiesPartition(t'.blocks, s.core.cpuFree, cfg.cpuSlots)
  {
    hide Full;
    var b, b' := s.core.table.blocks, t'.blocks;
    forall r | r in b' && b'[r].cpuSlot.Some? ensures r in b && b[r].cpuSlot == b'[r].cpuSlot {
    }
    forall x | 0 <= x < cfg.cpuSlots && x !in s.core.cpuFree ensures exists r :: r in b' && b'[r].cpuSlot == Some(x) {
      var r :| r in b && b[r].cpuSlot == Some(x);
      assert r in b' && b'[r].cpuSlot == Some(x);
    }
  }

  lemma SyncedCoreInv(cfg: Config, s: State, q: string, n: nat, computed: nat, s': State)
    requires CoreInv(cfg, s) && SyncEffect(cfg, s, q, n, computed, s'.core.table) && TableOk(s'.core.table)
    requires s'.core.pool == s.core.pool && s'.core.cpuFree == s.core.cpuFree
    ensures CoreInv(cfg, s')
  {
    hide TableOk, Partition, Full, CopiesPartition;
    SyncedCopies(cfg, s, q, n, computed, s'.core.table);
    forall r ensures Resides(s'.core.table, r, STAGING) <==> Resides(s.core.table, r, STAGING) {
    }
  }

  lemma SyncedFilled(cfg: Config, s: State, q: string, n: nat, computed: nat, s': State)
    requires Filled(cfg, s) && SyncEffect(cfg, s, q, n, computed, s'.core.table)
    requires (q in s.computed ==> s.computed[q] <= computed) && s'.computed == s.computed[q := computed]
    ensures Filled(cfg, s')
  {
    forall r | r in s.core.table.blocks && r.req == q
      ensures Full(cfg, r.idx, s.computed[q]) ==> Full(cfg, r.idx, computed)
    {
    }
  }

  lemma SyncedScored(cfg: Config, s: State, q: string, n: nat, computed: nat, s': State)
    requires Filled(cfg, s) && ScoredExactly(s.core) && SyncEffect(cfg, s, q, n, computed, s'.core.table)
    requires var newly := NewlyScored(s'.core.table.blocks, s.core.scored, q, n);
      s'.core.scored == s.core.scored + newly && s'.core.scores.Keys == s.core.scores.Keys + newly
    ensures ScoredExactly(s'.core)
  {
    hide Full;
    RefsAreDistinct(q, n);
    var t, t' := s.core.table, s'.core.table;
    var newly := NewlyScored(t'.blocks, s.core.scored, q, n);
    forall r ensures IsComplete(t', r) <==> IsComplete(t, r) || r in newly {
      if IsComplete(t', r) && !IsComplete(t, r) {
        assert r.req == q && r.idx < n;
        assert r in RefsOf(q, n);
      }
    }
  }

  lemma SyncedTracked(cfg: Config, s: State, q: string, computed: nat, s': State)
    requires Tracked(s) && q in s.tables && !IsWarmup(q)
    requires SyncEffect(cfg, s, q, |s.tables[q]|, computed, s'.core.table)
    requires s'.core.reqBlocks == s.core.reqBlocks[q := RefsOf(q, |s.tables[q]|)]
    requires s'.tables == s.tables && s'.mirror == s.mirror[q := s.tables[q]]
    requires s'.computed == s.computed[q := computed]
    requires s'.logical.Keys == s.logical.Keys + ToSet(RefsOf(q, |s.tables[q]|))
    ensures Tracked(s')
  {
    hide SyncEffect, Members, Listed, Mirrored;
    SyncedLogicalKeys(cfg, s, q, |s.tables[q]|, computed, s'.core.table);
    SyncedMembers(cfg, s, q, computed, s');
    SyncedLists(s, q, s');
  }

  lemma SyncedLists(s: State, q: string, s': State)
    requires Listed(s.core, s.tables) && Mirrored(s) && q in s.tables && !IsWarmup(q)
    requires s'.core.reqBlocks == s.core.reqBlocks[q := RefsOf(q, |s.tables[q]|)]
    requires s'.tables == s.tables && s'.mirror == s.mirror[q := s.tables[q]]
    ensures Listed(s'.core, s'.tables) && Mirrored(s')
  {
    assert s.tables[q][..|s.tables[q]|] == s.tables[q];
  }

  lemma SyncedLogicalKeys(cfg: Config, s: State, q: string, n: nat, computed: nat, t': Table)
    requires SyncEffect(cfg, s, q, n, computed, t') && s.logical.Keys == s.core.table.blocks.Keys
    ensures s.logical.Keys + ToSet(RefsOf(q, n)) == t'.blocks.Keys
  {
    hide Full;
    RefsAreDistinct(q, n);
  }

  lemma SyncedMembers(cfg: Config, s: State, q: string, computed: nat, s': State)
    requires q in s.tables && SyncEffect(cfg, s, q, |s.tables[q]|, computed, s'.core.table)
    requires Members(s.core) && s'.core.reqBlocks == s.core.reqBlocks[q := RefsOf(q, |s.tables[q]|)]
    ensures Members(s'.core)
  {
    hide Full;
  }

  lemma SyncedPlaced(cfg: Config, s: State, q: string, computed: nat, s': State)
    requires Tracked(s) && Placed(cfg, s) && q in s.tables && s'.tables == s.tables
    requires SyncEffect(cfg, s, q, |s.tables[q]|, computed, s'.core.table)
    ensures Placed(cfg, s')
  {
    hide Full, Tracked;
    forall r | r in s'.core.table.blocks && r !in s.core.table.blocks
      ensures HasEntry(s.tables, r) && EntryOf(s.tables, r) == s.tables[q][r.idx]
      ensures EntryOf(s.tables, r) != cfg.nullPage
    {
    }
  }

  lemma SyncedIntact(cfg: Config, s: State, q: string, computed: nat, s': State)
    requires AllIntact(cfg, s) && s.logical.Keys == s.core.table.blocks.Keys && q in s.tables && s'.tables == s.tables
    requires SyncEffect(cfg, s, q, |s.tables[q]|, computed, s'.core.table)
    requires s'.core.gpu == s.core.gpu && s'.core.cpu == s.core.cpu
    requires forall r :: r in s.logical ==> r in s'.logical && s'.logical[r] == s.logical[r]
    requires forall i :: 0 <= i < |s.tables[q]| && BlockRef(q, i) !in s.logical ==>
      && BlockRef(q, i) in s'.logical
      && s.tables[q][i] < |s.core.gpu| && s'.logical[BlockRef(q, i)] == s.core.gpu[s.tables[q][i]]
    ensures AllIntact(cfg, s')
  {
    hide Full, Unpack, PageShape, Intact;
    forall r | r in s'.core.table.blocks ensures Intact(cfg, s'.core, s'.tables, s'.logical, r) {
      if r in s.core.table.blocks {
        OldIntact(cfg, s, q, computed, s', r);
      } else {
        assert r == BlockRef(q, r.idx) && r !in s.logical.Keys;
        NewIntact(cfg, s, q, computed, s', r);
      }
    }
  }

  lemma OldIntact(cfg: Config, s: State, q: string, computed: nat, s': State, r: BlockRef)
    requires Intact(cfg, s.core, s.tables, s.logical, r) && q in s.tables && s'.tables == s.tables
    requires SyncEffect(cfg, s, q, |s.tables[q]|, computed, s'.core.table)
    requires s'.core.gpu == s.core.gpu && s'.core.cpu == s.core.cpu
    requires r in s'.logical && s'.logical[r] == s.logical[r]
    ensures Intact(cfg, s'.core, s'.tables, s'.logical, r)
  {
    hide Full, Unpack, PageShape;
  }

  lemma NewIntact(cfg: Config, s: State, q: string, computed: nat, s': State, r: BlockRef)
    requires r in s'.core.table.blocks && r !in s.core.table.blocks && q in s.tables && s'.tables == s.tables
    requires SyncEffect(cfg, s, q, |s.tables[q]|, computed, s'.core.table) && s'.core.gpu == s.core.gpu
    requires r.req == q && r.idx < |s.tables[q]| && s.tables[q][r.idx] < |s.core.gpu|
    requires r in s'.logical && s'.logical[r] == s.core.gpu[s.tables[q][r.idx]]
    requires PageShape(cfg.d, s.core.gpu[s.tables[q][r.idx]])
    ensures Intact(cfg, s'.core, s'.tables, s'.logical, r)
  {
    hide Full, Unpack, PageShape;
  }

  lemma SyncedEvents(cfg: Config, s: State, q: string, n: nat, computed: nat, s': State)
    requires EventsSafe(cfg, s) && SyncEffect(cfg, s, q, n, computed, s'.core.table)
    requires s'.acc == s.acc && s'.pending == s.pending && s'.nextEvent == s.nextEvent && s'.tables == s.tables
    ensures EventsSafe(cfg, s')
  {
    hide Full;
    forall e | e in s.acc ensures EntrySafe(cfg, s', e) {
      assert EntrySafe(cfg, s, e);
    }
    forall k, e | k in s.pending && e in s.pending[k] ensures EntrySafe(cfg, s', e) {
      assert EntrySafe(cfg, s, e);
    }
  }

  lemma SyncKeepsInv(cfg: Config, s: State, q: string, computed: nat, s': State)
    requires Inv(cfg, s) && Sync(cfg, s, q, computed, s')
    ensures Inv(cfg, s')
  {
    hide CoreInv, Filled, ScoredExactly, AllIntact, EventsSafe, Counted, Tracked, Placed, SyncEffect, Full, SyncedTable,
         NewlyScored, NewPages, Holders;
    SyncSeesTheTable(s, q);
    var n := |s.tables[q]|;
    SyncTableEffect(cfg, s, q, computed);
    CoreTableOk(cfg, s);
    SyncedTableOk(cfg, s, q, computed);
    SyncedCoreInv(cfg, s, q, n, computed, s');
    SyncedFilled(cfg, s, q, n, computed, s');
    SyncedScored(cfg, s, q, n, computed, s');
    SyncedTracked(cfg, s, q, computed, s');
    SyncedPlaced(cfg, s, q, computed, s');
    SyncedNewLogical(s, q, n, s');
    LogicalIsTracked(s);
    SyncedIntact(cfg, s, q, computed, s');
    SyncedEvents(cfg, s, q, n, computed, s');
    CountsUnchanged(cfg, s, s');
  }

  lemma LogicalIsTracked(s: State)
    requires Tracked(s)
    ensures s.logical.Keys == s.core.table.blocks.Keys
  {
  }

  lemma SyncedNewLogical(s: State, q: string, n: nat, s': State)
    requires s'.logical.Keys == s.logical.Keys + ToSet(RefsOf(q, n))
    ensures forall i :: 0 <= i < n ==> BlockRef(q, i) in s'.logical
  {
    RefsAreDistinct(q, n);
  }
}
