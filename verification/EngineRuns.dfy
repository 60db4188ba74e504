/** What every run of the engine keeps. */
module EngineRuns {
  import opened Blocks
  import opened Residencies
  import opened Layout
  import opened Engine
  import opened EngineTables
  import opened EngineWrites
  import opened EngineSync
  import opened EngineOffload
  import opened EngineStage
  import opened EngineFinish

  datatype Action =
    | Allocate(req: string, page: nat)
    | ShareHit(req: string, page: nat)
    | SyncRequest(req: string, computed: nat)
    | WriteTokens(ref: BlockRef, contents: Page)
    | OverwritePage(page: nat, contents: Page)
    | OverwriteStaging(slot: nat, contents: Page)
    | OverwriteCpu(slot: nat, slab: Slab)
    | Offload(fraction: real, copied: bool)
    | FlushStores
    | CompleteStore(event: nat)
    | StageBlocks(refs: seq<BlockRef>, copied: bool)
    | ReleaseBlock(ref: BlockRef)
    | FinishRequest(req: string)

  /** What each action does. */
  ghost predicate Act(cfg: Config, s: State, a: Action, s': State) {
    match a
    case Allocate(q, p) => Alloc(cfg, s, q, p, s')
    case ShareHit(q, p) => Share(cfg, s, q, p, s')
    case SyncRequest(q, computed) => Sync(cfg, s, q, computed, s')
    case WriteTokens(r, page) => Write(cfg, s, r, page, s')
    case OverwritePage(p, page) => ScribblePage(cfg, s, p, page, s')
    case OverwriteStaging(slot, page) => ScribbleStaging(cfg, s, slot, page, s')
    case OverwriteCpu(slot, slab) => ScribbleCpu(s, slot, slab, s')
    case Offload(fraction, copied) => Trigger(cfg, s, fraction, copied, s')
    case FlushStores => Flush(s, s')
    case CompleteStore(k) => Complete(cfg, s, k, s')
    case StageBlocks(refs, copied) => Stage(cfg, s, refs, copied, s')
    case ReleaseBlock(r) => Release(s, r, s')
    case FinishRequest(q) => Finish(cfg, s, q, s')
  }

  /** With true freeing, a page must not be bound to the very position a store event still names it for;
      and a page may be written only while no block bound to it has been copied away. */
  ghost predicate Timely(cfg: Config, s: State, a: Action) {
    match a
    case WriteTokens(r, _) => HasEntry(s.tables, r) ==> AllAtHome(s, EntryOf(s.tables, r))
    case Allocate(q, p) => cfg.trueFree ==> NoStaleHit(s, q, p)
    case ShareHit(q, p) => cfg.trueFree ==> NoStaleHit(s, q, p)
    case _ => true
  }

  ghost predicate Step(cfg: Config, s: State, a: Action, s': State) {
    Timely(cfg, s, a) && Act(cfg, s, a, s')
  }

  /** Right after start-up: empty tables, full pools, and the tail pages reserved for staging. */
  ghost predicate Init(cfg: Config, s: State) {
    && Sized(cfg, s)
    && s.core.table == Table([], map[], 0)
    && s.core.pool.order == [] && s.core.pool.slot == map[]
    && Distinct(s.core.pool.free) && (forall x :: x in s.core.pool.free <==> 0 <= x < cfg.stagingSlots)
    && Distinct(s.core.cpuFree) && (forall x :: x in s.core.cpuFree <==> 0 <= x < cfg.cpuSlots)
    && s.core.scores == map[] && s.core.scored == {} && s.core.reqBlocks == map[]
    && s.tables == map[] && s.mirror == map[] && s.computed == map[] && s.logical == map[]
    && s.acc == [] && s.pending == map[]
    && (forall p :: 0 <= p < |s.refCnt| && p != cfg.nullPage ==> s.refCnt[p] == if p >= cfg.base then 1 else 0)
    && (forall p :: 0 <= p < |s.core.gpu| ==> PageShape(cfg.d, s.core.gpu[p]))
  }

  lemma InitEstablishesInv(cfg: Config, s: State)
    requires Init(cfg, s)
    ensures Inv(cfg, s)
  {
    hide PageShape;
    assert ToSet<BlockRef>([]) == {};
    forall p ensures Holders(s.tables, p) == {} {
      assert forall r :: r !in Holders(s.tables, p);
    }
  }

  /** The inductive step of every theorem below. */
  lemma StepKeepsInv(cfg: Config, s: State, a: Action, s': State)
    requires ConfigOk(cfg) && Inv(cfg, s) && Step(cfg, s, a, s')
    ensures Inv(cfg, s')
  {
    hide Inv, NoStaleHit, Alloc, Share, Sync, Write, ScribblePage, ScribbleStaging, ScribbleCpu, Trigger, Flush,
         Complete, Stage, Release, Finish;
    match a
    case Allocate(q, p) => AllocKeepsInv(cfg, s, q, p, s');
    case ShareHit(q, p) => ShareKeepsInv(cfg, s, q, p, s');
    case SyncRequest(q, computed) => SyncKeepsInv(cfg, s, q, computed, s');
    case WriteTokens(r, page) => WriteKeepsInv(cfg, s, r, page, s');
    case OverwritePage(p, page) => ScribblePageKeepsInv(cfg, s, p, page, s');
    case OverwriteStaging(slot, page) => ScribbleStagingKeepsInv(cfg, s, slot, page, s');
    case OverwriteCpu(slot, slab) => ScribbleCpuKeepsInv(cfg, s, slot, slab, s');
    case Offload(fraction, copied) => TriggerKeepsInv(cfg, s, fraction, copied, s');
    case FlushStores => FlushKeepsInv(cfg, s, s');
    case CompleteStore(k) => CompleteKeepsInv(cfg, s, k, s');
    case StageBlocks(refs, copied) => StageKeepsInv(cfg, s, refs, copied, s');
    case ReleaseBlock(r) => ReleaseKeepsInv(cfg, s, r, s');
    case FinishRequest(q) => FinishKeepsInv(cfg, s, q, s');
  }

  ghost predicate Run(cfg: Config, states: seq<State>, acts: seq<Action>) {
    && |states| == |acts| + 1
    && ConfigOk(cfg) && Init(cfg, states[0])
    && (forall i :: 0 <= i < |acts| ==> Step(cfg, states[i], acts[i], states[i + 1]))
  }

  lemma {:induction false} RunKeepsInv(cfg: Config, states: seq<State>, acts: seq<Action>, i: nat)
    requires Run(cfg, states, acts) && i < |states|
    ensures Inv(cfg, states[i])
  {
    hide Step, Inv, Init;
    if i == 0 {
      InitEstablishesInv(cfg, states[0]);
    } else {
      RunKeepsInv(cfg, states, acts, i - 1);
      StepKeepsInv(cfg, states[i - 1], acts[i - 1], states[i]);
    }
  }

  // ------------------------------------------------------------------ going on

  ghost predicate Path(cfg: Config, states: seq<State>, acts: seq<Action>) {
    && |states| == |acts| + 1
    && (forall i :: 0 <= i < |acts| ==> Step(cfg, states[i], acts[i], states[i + 1]))
  }

  /** Some sequence of steps leads from s to s'. */
  ghost predicate Reaches(cfg: Config, s: State, s': State) {
    exists states, acts :: Path(cfg, states, acts) && states[0] == s && states[|acts|] == s'
  }

  lemma ReachesItself(cfg: Config, s: State)
    ensures Reaches(cfg, s, s)
  {
    assert Path(cfg, [s], []);
  }

  lemma ReachesNext(cfg: Config, s: State, s1: State, a: Action, s': State)
    requires Reaches(cfg, s, s1) && Step(cfg, s1, a, s')
    ensures Reaches(cfg, s, s')
  {
    hide Step;
    var states, acts :| Path(cfg, states, acts) && states[0] == s && states[|acts|] == s1;
    var states', acts' := states + [s'], acts + [a];
    assert Path(cfg, states', acts') && states'[0] == s && states'[|acts'|] == s';
  }

  lemma SyncReaches(cfg: Config, s: State, s1: State, q: string, computed: nat, s': State)
    requires Reaches(cfg, s, s1) && Sync(cfg, s1, q, computed, s')
    ensures Reaches(cfg, s, s')
  {
    hide Reaches, Sync;
    assert Step(cfg, s1, SyncRequest(q, computed), s');
    ReachesNext(cfg, s, s1, SyncRequest(q, computed), s');
  }

  lemma OffloadReaches(cfg: Config, s: State, s1: State, fraction: real, copied: bool, s': State)
    requires Reaches(cfg, s, s1) && Trigger(cfg, s1, fraction, copied, s')
    ensures Reaches(cfg, s, s')
  {
    hide Reaches, Trigger;
    assert Step(cfg, s1, Offload(fraction, copied), s');
    ReachesNext(cfg, s, s1, Offload(fraction, copied), s');
  }

  lemma StageReaches(cfg: Config, s: State, s1: State, refs: seq<BlockRef>, copied: bool, s': State)
    requires Reaches(cfg, s, s1) && Stage(cfg, s1, refs, copied, s')
    ensures Reaches(cfg, s, s')
  {
    hide Reaches, Stage;
    assert Step(cfg, s1, StageBlocks(refs, copied), s');
    ReachesNext(cfg, s, s1, StageBlocks(refs, copied), s');
  }

  lemma CompleteReaches(cfg: Config, s: State, s1: State, k: nat, s': State)
    requires Reaches(cfg, s, s1) && Complete(cfg, s1, k, s')
    ensures Reaches(cfg, s, s')
  {
    hide Reaches, Complete;
    assert Step(cfg, s1, CompleteStore(k), s');
    ReachesNext(cfg, s, s1, CompleteStore(k), s');
  }

  lemma FlushReaches(cfg: Config, s: State, s1: State, s': State)
    requires Reaches(cfg, s, s1) && Flush(s1, s')
    ensures Reaches(cfg, s, s') && s1.nextEvent in s'.pending
  {
    hide Reaches;
    assert Step(cfg, s1, FlushStores, s');
    ReachesNext(cfg, s, s1, FlushStores, s');
  }

  lemma PathsJoin(cfg: Config, states: seq<State>, acts: seq<Action>, more: seq<State>, macts: seq<Action>)
    requires Path(cfg, states, acts) && Path(cfg, more, macts) && more[0] == states[|acts|]
    ensures Path(cfg, states + more[1..], acts + macts) && (states + more[1..])[|acts + macts|] == more[|macts|]
  {
    hide Step;
    var states', acts' := states + more[1..], acts + macts;
    forall i | 0 <= i < |acts'| ensures Step(cfg, states'[i], acts'[i], states'[i + 1]) {
      if i < |acts| {
        assert Step(cfg, states[i], acts[i], states[i + 1]);
      } else {
        var j := i - |acts|;
        assert states'[i] == more[j] && states'[i + 1] == more[j + 1];
      }
    }
  }

  /** What can be reached from the end of a run is the end of a run. */
  lemma ReachesExtendsRun(cfg: Config, states: seq<State>, acts: seq<Action>, s': State)
    requires Run(cfg, states, acts) && Reaches(cfg, states[|acts|], s')
    ensures exists states', acts' :: Run(cfg, states', acts') && states'[|acts'|] == s'
  {
    hide Step, Init;
    var more, macts :| Path(cfg, more, macts) && more[0] == states[|acts|] && more[|macts|] == s';
    assert Path(cfg, states, acts);
    PathsJoin(cfg, states, acts, more, macts);
    var states', acts' := states + more[1..], acts + macts;
    assert Run(cfg, states', acts') && states'[|acts'|] == s';
  }
}
