/** Binding pages to requests, and giving them up again after an offload. */
module EngineTables {
  import opened Blocks
  import opened Residencies
  import opened Staging
  import opened Engine

  lemma CoreTableOk(cfg: Config, s: State)
    requires CoreInv(cfg, s)
    ensures TableOk(s.core.table)
  {
  }

  lemma CountsUnchanged(cfg: Config, s: State, s': State)
    requires Counted(cfg, s) && s'.tables == s.tables && s'.refCnt == s.refCnt
    ensures Counted(cfg, s')
  {
    hide Holders;
  }

  lemma ExtendedEntries(tables: map<string, seq<nat>>, q: string, p: nat)
    ensures var t', n := Extended(tables, q, p), NextRef(tables, q);
      && !HasEntry(tables, n) && HasEntry(t', n) && EntryOf(t', n) == p
      && (forall r :: r != n ==> (HasEntry(t', r) <==> HasEntry(tables, r)))
      && (forall r :: HasEntry(tables, r) ==> HasEntry(t', r) && EntryOf(t', r) == EntryOf(tables, r))
  {
    var t', n := Extended(tables, q, p), NextRef(tables, q);
    forall r | r != n ensures HasEntry(t', r) <==> HasEntry(tables, r) {
      assert r.req == q && r.idx == n.idx ==> r == n;
    }
  }

  lemma HoldersExtended(tables: map<string, seq<nat>>, q: string, p: nat, x: nat)
    ensures |Holders(Extended(tables, q, p), x)| == |Holders(tables, x)| + (if x == p then 1 else 0)
  {
    ExtendedEntries(tables, q, p);
    var before, after, n := Holders(tables, x), Holders(Extended(tables, q, p), x), NextRef(tables, q);
    hide Extended, NextRef, Holders;
    forall r ensures r in after <==> r in before || (x == p && r == n) {
    }
    if x == p {
      assert after == before + {n};
    } else {
      assert after == before;
    }
  }

  /** Binding a page counts one more reference to it. */
  lemma ExtendedCounts(cfg: Config, s: State, q: string, p: nat, s': State)
    requires Counted(cfg, s) && p < |s.refCnt| && p != cfg.nullPage
    requires s'.tables == Extended(s.tables, q, p) && s'.refCnt == s.refCnt[p := s.refCnt[p] + 1]
    ensures Counted(cfg, s')
  {
    hide Extended, Holders;
    forall x | 0 <= x < |s'.refCnt| && x != cfg.nullPage
      ensures s'.refCnt[x] == |Holders(s'.tables, x)| + (if x >= cfg.base then 1 else 0)
    {
      HoldersExtended(s.tables, q, p, x);
    }
  }

  lemma UnreferencedPage(cfg: Config, s: State, p: nat, r: BlockRef)
    requires Counted(cfg, s) && p < |s.refCnt| && p != cfg.nullPage && s.refCnt[p] == 0
    ensures p < cfg.base && !(HasEntry(s.tables, r) && EntryOf(s.tables, r) == p)
  {
    assert Holders(s.tables, p) == {};
  }

  /** Extending a table disturbs no block that is tracked already. */
  lemma ExtendedKeepsPlacement(cfg: Config, s: State, q: string, p: nat, s': State)
    requires Tracked(s) && Placed(cfg, s) && p < cfg.base && p != cfg.nullPage
    requires s' == s.(tables := Extended(s.tables, q, p), refCnt := s'.refCnt)
    ensures Tracked(s') && Placed(cfg, s')
    ensures forall r :: r in s.core.table.blocks ==>
      HasEntry(s'.tables, r) && EntryOf(s'.tables, r) == EntryOf(s.tables, r)
  {
    ExtendedEntries(s.tables, q, p);
    forall k | k in s.mirror ensures s'.mirror[k] == s'.tables[k][..|s.core.reqBlocks[k]|] {
      assert k in s.core.reqBlocks;
    }
  }

  lemma ExtendedKeepsIntact(cfg: Config, s: State, s': State)
    requires AllIntact(cfg, s) && s' == s.(tables := s'.tables, refCnt := s'.refCnt)
    requires forall r :: r in s.core.table.blocks ==>
      HasEntry(s.tables, r) && HasEntry(s'.tables, r) && EntryOf(s'.tables, r) == EntryOf(s.tables, r)
    ensures AllIntact(cfg, s')
  {
    forall r | r in s'.core.table.blocks ensures Intact(cfg, s'.core, s'.tables, s'.logical, r) {
      assert Intact(cfg, s.core, s.tables, s.logical, r);
    }
  }

  lemma ExtendedKeepsEvents(cfg: Config, s: State, q: string, p: nat, s': State)
    requires EventsSafe(cfg, s) && (cfg.trueFree ==> NoStaleHit(s, q, p))
    requires s' == s.(tables := Extended(s.tables, q, p), refCnt := s'.refCnt)
    ensures EventsSafe(cfg, s')
  {
    hide Extended;
    ExtendedEntries(s.tables, q, p);
    var n := NextRef(s.tables, q);
    forall e | e in s.acc ensures EntrySafe(cfg, s', e) {
      assert EntrySafe(cfg, s, e);
      assert e == Entry(e.ref, e.page);
    }
    forall k, e | k in s.pending && e in s.pending[k] ensures EntrySafe(cfg, s', e) {
      assert EntrySafe(cfg, s, e);
      assert e == Entry(e.ref, e.page);
    }
  }

  lemma AllocKeepsInv(cfg: Config, s: State, q: string, p: nat, s': State)
    requires Inv(cfg, s) && Alloc(cfg, s, q, p, s') && (cfg.trueFree ==> NoStaleHit(s, q, p))
    ensures Inv(cfg, s')
  {
    hide CoreInv, Filled, ScoredExactly, AllIntact, EventsSafe, Counted, Tracked, Placed, NoStaleHit;
    UnreferencedPage(cfg, s, p, NextRef(s.tables, q));
    ExtendedKeepsPlacement(cfg, s, q, p, s');
    PlacedEntries(cfg, s);
    ExtendedKeepsIntact(cfg, s, s');
    ExtendedKeepsEvents(cfg, s, q, p, s');
    ExtendedCounts(cfg, s, q, p, s');
    CoreUnchanged(cfg, s, s');
  }

  lemma PlacedEntries(cfg: Config, s: State)
    requires Placed(cfg, s)
    ensures forall r :: r in s.core.table.blocks ==> HasEntry(s.tables, r)
  {
  }

  lemma CoreUnchanged(cfg: Config, s: State, s': State)
    requires CoreInv(cfg, s) && Filled(cfg, s) && ScoredExactly(s.core)
    requires s'.core.table == s.core.table && s'.core.pool == s.core.pool && s'.core.cpuFree == s.core.cpuFree
    requires s'.core.scored == s.core.scored && s'.core.scores == s.core.scores && s'.computed == s.computed
    ensures CoreInv(cfg, s') && Filled(cfg, s') && ScoredExactly(s'.core)
  {
    hide TableOk, CopiesPartition, Settled, GpuHoldsNoCopy;
  }

  lemma ShareKeepsInv(cfg: Config, s: State, q: string, p: nat, s': State)
    requires Inv(cfg, s) && Share(cfg, s, q, p, s') && (cfg.trueFree ==> NoStaleHit(s, q, p))
    ensures Inv(cfg, s')
  {
    hide CoreInv, Filled, ScoredExactly, AllIntact, EventsSafe, Counted, Tracked, Placed, NoStaleHit;
    ExtendedKeepsPlacement(cfg, s, q, p, s');
    PlacedEntries(cfg, s);
    ExtendedKeepsIntact(cfg, s, s');
    ExtendedKeepsEvents(cfg, s, q, p, s');
    ExtendedCounts(cfg, s, q, p, s');
    CoreUnchanged(cfg, s, s');
  }

  lemma ReboundEntries(tables: map<string, seq<nat>>, r: BlockRef, p: nat)
    requires HasEntry(tables, r)
    ensures var t' := Rebound(tables, r, p);
      && HasEntry(t', r) && EntryOf(t', r) == p
      && (forall k :: HasEntry(t', k) <==> HasEntry(tables, k))
      && (forall k :: k != r && HasEntry(tables, k) ==> EntryOf(t', k) == EntryOf(tables, k))
      && t'.Keys == tables.Keys && (forall q :: q in tables ==> |t'[q]| == |tables[q]|)
  {
    var t' := Rebound(tables, r, p);
    forall k | k != r && HasEntry(tables, k) ensures EntryOf(t', k) == EntryOf(tables, k) {
      assert k.req == r.req && k.idx == r.idx ==> k == r;
    }
  }

  lemma HoldersRebound(tables: map<string, seq<nat>>, r: BlockRef, p: nat, x: nat)
    requires HasEntry(tables, r) && x != p
    ensures |Holders(Rebound(tables, r, p), x)| == |Holders(tables, x)| - (if EntryOf(tables, r) == x then 1 else 0)
  {
    ReboundEntries(tables, r, p);
    var before, after := Holders(tables, x), Holders(Rebound(tables, r, p), x);
    if EntryOf(tables, r) == x {
      assert after == before - {r};
    } else {
      assert after == before;
    }
  }

  lemma SurgeryCounts(cfg: Config, s: State, e: Entry)
    requires Counted(cfg, s) && e.page != cfg.nullPage
    ensures Counted(cfg, Surgery(cfg, s, e))
  {
    hide Rebound, Holders;
    var s' := Surgery(cfg, s, e);
    if s' != s {
      forall x | 0 <= x < |s'.refCnt| && x != cfg.nullPage
        ensures s'.refCnt[x] == |Holders(s'.tables, x)| + (if x >= cfg.base then 1 else 0)
      {
        HoldersRebound(s.tables, e.ref, cfg.nullPage, x);
      }
    }
  }

  lemma SurgeryMirrored(cfg: Config, s: State, e: Entry)
    requires Mirrored(s)
    ensures Mirrored(Surgery(cfg, s, e))
  {
    var s' := Surgery(cfg, s, e);
    if s' != s {
      forall q | q in s'.mirror ensures s'.mirror[q] == s'.tables[q][..|s.core.reqBlocks[q]|] {
        assert s.mirror[q] == s.tables[q][..|s.core.reqBlocks[q]|];
        if q == e.ref.req && e.ref.idx < |s.mirror[q]| {
          assert HasEntry(s.mirror, e.ref);
        }
      }
    }
  }

  lemma SurgeryTracked(cfg: Config, s: State, e: Entry)
    requires Tracked(s)
    ensures Tracked(Surgery(cfg, s, e))
  {
    hide Mirrored, Members, RefsOf;
    SurgeryMirrored(cfg, s, e);
    var s' := Surgery(cfg, s, e);
    if s' != s {
      ReboundEntries(s.tables, e.ref, cfg.nullPage);
      hide Rebound;
    }
  }

  /** The surgery only ever gives up the entry of a block that has left the GPU. */
  lemma SurgeryPlaced(cfg: Config, s: State, e: Entry)
    requires Placed(cfg, s) && EntrySafe(cfg, s, e) && ConfigOk(cfg) && cfg.trueFree
    ensures Placed(cfg, Surgery(cfg, s, e))
  {
    var s' := Surgery(cfg, s, e);
    if s' != s {
      ReboundEntries(s.tables, e.ref, cfg.nullPage);
    }
  }

  lemma SurgeryIntact(cfg: Config, s: State, e: Entry)
    requires AllIntact(cfg, s)
    ensures AllIntact(cfg, Surgery(cfg, s, e))
  {
    var s' := Surgery(cfg, s, e);
    if s' != s {
      ReboundEntries(s.tables, e.ref, cfg.nullPage);
      forall r | r in s'.core.table.blocks ensures Intact(cfg, s'.core, s'.tables, s'.logical, r) {
        assert Intact(cfg, s.core, s.tables, s.logical, r);
      }
    }
  }

  lemma SurgeryEntrySafe(cfg: Config, s: State, e: Entry, e2: Entry)
    requires EntrySafe(cfg, s, e2)
    ensures EntrySafe(cfg, Surgery(cfg, s, e), e2)
  {
    var s' := Surgery(cfg, s, e);
    if s' != s {
      ReboundEntries(s.tables, e.ref, cfg.nullPage);
    }
  }

  lemma SurgeryEvents(cfg: Config, s: State, e: Entry)
    requires EventsSafe(cfg, s)
    ensures EventsSafe(cfg, Surgery(cfg, s, e))
  {
    hide EntrySafe;
    var s' := Surgery(cfg, s, e);
    forall e2 | e2 in s.acc ensures EntrySafe(cfg, s', e2) {
      SurgeryEntrySafe(cfg, s, e, e2);
    }
    forall k, e2 | k in s.pending && e2 in s.pending[k] ensures EntrySafe(cfg, s', e2) {
      SurgeryEntrySafe(cfg, s, e, e2);
    }
  }

  lemma SurgeryKeepsInv(cfg: Config, s: State, e: Entry)
    requires ConfigOk(cfg) && cfg.trueFree && Inv(cfg, s) && EntrySafe(cfg, s, e)
    ensures Inv(cfg, Surgery(cfg, s, e))
  {
    hide CoreInv, Filled, ScoredExactly, AllIntact, EventsSafe, Counted, Tracked, Placed, EntrySafe;
    EntryNotNull(cfg, s, e);
    SurgeryCounts(cfg, s, e);
    SurgeryTracked(cfg, s, e);
    SurgeryPlaced(cfg, s, e);
    SurgeryIntact(cfg, s, e);
    SurgeryEvents(cfg, s, e);
    CoreUnchanged(cfg, s, Surgery(cfg, s, e));
  }

  lemma EntryNotNull(cfg: Config, s: State, e: Entry)
    requires EntrySafe(cfg, s, e)
    ensures e.page != cfg.nullPage
  {
  }

  lemma {:induction false} SurgeriesKeepInv(cfg: Config, s: State, es: seq<Entry>, n: nat)
    requires ConfigOk(cfg) && cfg.trueFree && Inv(cfg, s) && n <= |es| && forall e :: e in es ==> EntrySafe(cfg, s, e)
    ensures Inv(cfg, SurgeryN(cfg, s, es, n))
    ensures forall e :: e in es ==> EntrySafe(cfg, SurgeryN(cfg, s, es, n), e)
  {
    hide Inv, EntrySafe, Surgery;
    if n > 0 {
      SurgeriesKeepInv(cfg, s, es, n - 1);
      var s1 := SurgeryN(cfg, s, es, n - 1);
      assert es[n - 1] in es;
      SurgeryKeepsInv(cfg, s1, es[n - 1]);
      forall e | e in es ensures EntrySafe(cfg, Surgery(cfg, s1, es[n - 1]), e) {
        SurgeryEntrySafe(cfg, s1, es[n - 1], e);
      }
    }
  }

  lemma FlushKeepsInv(cfg: Config, s: State, s': State)
    requires Inv(cfg, s) && Flush(s, s')
    ensures Inv(cfg, s')
  {
    hide CoreInv, Filled, ScoredExactly, AllIntact, Counted, Tracked, Placed;
    RestUnchanged(cfg, s, s');
    forall e | e in s.acc ensures EntrySafe(cfg, s', e) {
      assert EntrySafe(cfg, s, e);
    }
    forall k, e | k in s'.pending && e in s'.pending[k] ensures EntrySafe(cfg, s', e) {
      assert EntrySafe(cfg, s, e);
    }
  }

  /** Invariants that do not read the store events survive a change to them. */
  lemma RestUnchanged(cfg: Config, s: State, s': State)
    requires Inv(cfg, s) && s' == s.(acc := s'.acc, pending := s'.pending, nextEvent := s'.nextEvent)
    ensures Sized(cfg, s') && CoreInv(cfg, s') && Filled(cfg, s') && ScoredExactly(s'.core)
    ensures Counted(cfg, s') && Tracked(s') && Placed(cfg, s') && AllIntact(cfg, s')
  {
    hide TableOk, CopiesPartition, Settled, GpuHoldsNoCopy, EventsSafe, Intact, Holders;
  }

  /** Taking an event off the pending list keeps the invariant, and its entries are still safe. */
  lemma EventTaken(cfg: Config, s: State, k: nat)
    requires Inv(cfg, s) && k in s.pending
    ensures var s1 := s.(pending := s.pending - {k});
      Inv(cfg, s1) && forall e :: e in s.pending[k] ==> EntrySafe(cfg, s1, e)
  {
    hide CoreInv, Filled, ScoredExactly, AllIntact, Counted, Tracked, Placed;
    var s1 := s.(pending := s.pending - {k});
    RestUnchanged(cfg, s, s1);
    forall e | EntrySafe(cfg, s, e) ensures EntrySafe(cfg, s1, e) {
    }
  }

  lemma CompleteKeepsInv(cfg: Config, s: State, k: nat, s': State)
    requires ConfigOk(cfg) && Inv(cfg, s) && Complete(cfg, s, k, s')
    ensures Inv(cfg, s')
  {
    hide Inv, EntrySafe, SurgeryN;
    EventTaken(cfg, s, k);
    if cfg.trueFree {
      SurgeriesKeepInv(cfg, s.(pending := s.pending - {k}), s.pending[k], |s.pending[k]|);
    }
  }

  /** Surgery rewrites block tables and counts and nothing else. */
  lemma {:induction false} SurgeryNOnly(cfg: Config, s: State, es: seq<Entry>, n: nat)
    requires n <= |es|
    ensures var s' := SurgeryN(cfg, s, es, n);
      s' == s.(tables := s'.tables, mirror := s'.mirror, refCnt := s'.refCnt)
  {
    if n > 0 { SurgeryNOnly(cfg, s, es, n - 1); }
  }
}
