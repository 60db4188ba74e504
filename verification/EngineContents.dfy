/** What a block should hold, told by the writes of a run alone, and that it does hold it. */
module EngineContents {
  import opened Blocks
  import opened Layout
  import opened Offloading
  import opened Staging
  import opened Engine
  import opened EngineSync
  import opened EngineRuns
  import opened EngineTheorems

  /** How one action changes what block r should hold: a write to the page r is bound to sets it; the sync
      that first tracks r takes over what that page holds; the end of the request forgets it. Nothing else
      does anything: offloading, staging, releasing, store completions and writes elsewhere are invisible. */
  ghost function AfterAction(s: State, a: Action, r: BlockRef, held: Option<Page>): (now: Option<Page>) {
    match a
    case WriteTokens(_, page) => if held.Some? && Touches(s, a, r) then Some(page) else held
    case SyncRequest(q, _) =>
      if held.None? && r.req == q && HasEntry(s.tables, r) && EntryOf(s.tables, r) < |s.core.gpu|
      then Some(s.core.gpu[EntryOf(s.tables, r)]) else held
    case FinishRequest(q) => if r.req == q then None else held
    case _ => held
  }

  ghost function LastWritten(states: seq<State>, acts: seq<Action>, r: BlockRef, n: nat): (held: Option<Page>)
    requires n <= |acts| < |states|
  {
    if n == 0 then None else AfterAction(states[n - 1], acts[n - 1], r, LastWritten(states, acts, r, n - 1))
  }

  ghost function Stored(s: State, r: BlockRef): (held: Option<Page>) {
    if r in s.logical then Some(s.logical[r]) else None
  }

  lemma SyncStores(cfg: Config, s: State, q: string, computed: nat, s': State, r: BlockRef)
    requires Inv(cfg, s) && Sync(cfg, s, q, computed, s')
    ensures Stored(s', r) == AfterAction(s, SyncRequest(q, computed), r, Stored(s, r))
  {
    hide CoreInv, Filled, ScoredExactly, AllIntact, EventsSafe, Counted, Placed, SyncedCore, NewPages, Tracked;
    SyncSeesTheTable(s, q);
    RefsAreDistinct(q, |s.tables[q]|);
    if r !in s.logical && r.req == q && HasEntry(s.tables, r) {
      assert r == BlockRef(q, r.idx);
    }
  }

  lemma StepStores(cfg: Config, s: State, a: Action, s': State, r: BlockRef)
    requires Inv(cfg, s) && Step(cfg, s, a, s')
    ensures Stored(s', r) == AfterAction(s, a, r, Stored(s, r))
  {
    hide Inv, Sync, CleanedCore, Offloaded, NothingOffloaded, CanOffload, FractionChoice, Candidates, EnsurePost,
         SurgeryN, Holders, ReleasedCore, PageShape, EntriesFor;
    match a
    case SyncRequest(q, computed) => SyncStores(cfg, s, q, computed, s', r);
    case CompleteStore(k) =>
      if cfg.trueFree { SurgeryNStores(cfg, s.(pending := s.pending - {k}), s.pending[k], |s.pending[k]|); }
    case WriteTokens(k, page) => WriteStores(cfg, s, k, page, s', r);
    case _ =>
  }

  lemma WriteStores(cfg: Config, s: State, k: BlockRef, page: Page, s': State, r: BlockRef)
    requires Write(cfg, s, k, page, s')
    ensures Stored(s', r) == AfterAction(s, WriteTokens(k, page), r, Stored(s, r))
  {
    hide PageShape, Full;
  }

  lemma {:induction false} SurgeryNStores(cfg: Config, s: State, es: seq<Entry>, n: nat)
    requires n <= |es|
    ensures SurgeryN(cfg, s, es, n).logical == s.logical
  {
    if n > 0 { SurgeryNStores(cfg, s, es, n - 1); }
  }

  lemma {:induction false} LastWrittenIsStored(cfg: Config, states: seq<State>, acts: seq<Action>, r: BlockRef, n: nat)
    requires Run(cfg, states, acts) && n < |states|
    ensures LastWritten(states, acts, r, n) == Stored(states[n], r)
  {
    hide Step, Inv, AfterAction;
    if n > 0 {
      LastWrittenIsStored(cfg, states, acts, r, n - 1);
      RunKeepsInv(cfg, states, acts, n - 1);
      StepStores(cfg, states[n - 1], acts[n - 1], states[n], r);
    }
  }

  /** At every point of every run a block is tracked exactly when the writes so far give it contents, and
      then those are what its recorded location holds, wherever the block has been moved since. */
  lemma HoldsLastWritten(cfg: Config, states: seq<State>, acts: seq<Action>, r: BlockRef, n: nat)
    requires Run(cfg, states, acts) && n < |states|
    ensures r in states[n].core.table.blocks <==> LastWritten(states, acts, r, n).Some?
    ensures r in states[n].core.table.blocks ==> Holds(cfg, states[n].core, r, LastWritten(states, acts, r, n).value)
  {
    hide Step, Init, Inv, Holds, LastWritten;
    LastWrittenIsStored(cfg, states, acts, r, n);
    RunKeepsInv(cfg, states, acts, n);
    LogicalKeys(cfg, states[n]);
    if r in states[n].core.table.blocks {
      HoldsLogical(cfg, states[n], r);
    }
  }

  lemma LogicalKeys(cfg: Config, s: State)
    requires Inv(cfg, s)
    ensures forall r :: r in s.core.table.blocks <==> r in s.logical
  {
    hide CoreInv, Filled, ScoredExactly, AllIntact, EventsSafe, Counted, Placed;
    assert s.logical.Keys == s.core.table.blocks.Keys;
    forall r ensures r in s.core.table.blocks <==> r in s.logical {
      assert r in s.core.table.blocks.Keys <==> r in s.logical.Keys;
    }
  }
}
