/** What one scheduling step does, spelled out from what it is handed: which moves, in which order. */
module ServingScript {
  import opened Blocks
  import opened Scoring
  import opened Offloading
  import opened Staging
  import opened Engine
  import opened EngineRuns
  import opened Handovers
  import opened Orchestration
  import opened EngineLinks
  import opened Layout

  datatype ServingMove =
    | SyncMove(req: string, tokens: nat)
    | OffloadMove(copied: bool)
    | PromoteMove(req: string, copied: bool)

  /** fraction: the share of the candidates an offload takes; limit: blocks promoted per request. */
  datatype Policy = Policy(fraction: real, limit: int)

  ghost predicate NoneOnCpu(s: State, q: string) {
    forall r :: r in s.core.table.blocks && r.req == q ==> s.core.table.blocks[r].residency != CPU
  }

  /** The request's highest-scored CPU-resident blocks are staged; nothing happens if there are none. */
  ghost predicate Promote(cfg: Config, limit: int, s: State, q: string, copied: bool, s': State) {
    if limit <= 0 || NoneOnCpu(s, q) then s' == s
    else exists cold, picked ::
        && IsColdListing(s.core.table.blocks, q, cold) && GoLast(s.core.scores, cold, limit, picked)
        && Stage(cfg, s, picked, copied, s')
  }

  ghost predicate Made(cfg: Config, pol: Policy, s: State, m: ServingMove, s': State) {
    match m
    case SyncMove(q, tokens) => Sync(cfg, s, q, tokens, s')
    case OffloadMove(copied) => Trigger(cfg, s, pol.fraction, copied, s')
    case PromoteMove(q, copied) => Promote(cfg, pol.limit, s, q, copied, s')
  }

  function LastOf<T>(ms: seq<T>): (m: T)
    requires ms != []
  {
    ms[|ms| - 1]
  }

  function Earlier<T>(ms: seq<T>): (r: seq<T>)
    requires ms != []
  {
    ms[..|ms| - 1]
  }

  /** The moves, one after the other and no others, lead from s to s'. */
  ghost predicate Makes(cfg: Config, pol: Policy, s: State, ms: seq<ServingMove>, s': State)
    decreases |ms|
  {
    if ms == [] then s' == s
    else exists s1 :: Makes(cfg, pol, s, Earlier(ms), s1) && Made(cfg, pol, s1, LastOf(ms), s')
  }

  lemma MakesNothing(cfg: Config, pol: Policy, s: State)
    ensures Makes(cfg, pol, s, [], s)
  {
  }

  lemma MakesNext(cfg: Config, pol: Policy, s: State, ms: seq<ServingMove>, s1: State, m: ServingMove, s': State)
    requires Makes(cfg, pol, s, ms, s1) && Made(cfg, pol, s1, m, s')
    ensures Makes(cfg, pol, s, ms + [m], s')
  {
    hide Made;
    assert Earlier(ms + [m]) == ms && LastOf(ms + [m]) == m;
  }

  lemma MakesOffload(cfg: Config, pol: Policy, s: State, ms: seq<ServingMove>, s1: State, copied: bool, s': State)
    requires Makes(cfg, pol, s, ms, s1) && Trigger(cfg, s1, pol.fraction, copied, s')
    ensures Makes(cfg, pol, s, ms + [OffloadMove(copied)], s')
  {
    hide Makes, Trigger;
    MakesNext(cfg, pol, s, ms, s1, OffloadMove(copied), s');
  }

  lemma MakesSync(cfg: Config, pol: Policy, s: State, q: string, tokens: nat, s': State)
    requires Sync(cfg, s, q, tokens, s')
    ensures Makes(cfg, pol, s, [SyncMove(q, tokens)], s')
  {
    hide Sync, Makes;
    MakesNothing(cfg, pol, s);
    MakesNext(cfg, pol, s, [], s, SyncMove(q, tokens), s');
    assert [] + [SyncMove(q, tokens)] == [SyncMove(q, tokens)];
  }

  lemma {:induction false} MakesJoin(cfg: Config, pol: Policy, s: State, ms: seq<ServingMove>, s1: State,
                                     more: seq<ServingMove>, s': State)
    requires Makes(cfg, pol, s, ms, s1) && Makes(cfg, pol, s1, more, s')
    ensures Makes(cfg, pol, s, ms + more, s')
    decreases |more|
  {
    hide Made;
    if more == [] {
      assert ms + more == ms;
    } else {
      var n := |more| - 1;
      var s2 :| Makes(cfg, pol, s1, more[..n], s2) && Made(cfg, pol, s2, more[n], s');
      hide Makes;
      MakesJoin(cfg, pol, s, ms, s1, more[..n], s2);
      MakesNext(cfg, pol, s, ms + more[..n], s2, more[n], s');
      assert ms + more[..n] + [more[n]] == ms + more;
    }
  }

  /** Moves are steps of the engine. */
  lemma {:induction false} MakesReaches(cfg: Config, pol: Policy, s: State, ms: seq<ServingMove>, s': State)
    requires Makes(cfg, pol, s, ms, s')
    ensures Reaches(cfg, s, s')
    decreases |ms|
  {
    hide Made, Reaches;
    if ms == [] {
      ReachesItself(cfg, s);
    } else {
      var n := |ms| - 1;
      var s1 :| Makes(cfg, pol, s, ms[..n], s1) && Made(cfg, pol, s1, ms[n], s');
      MakesReaches(cfg, pol, s, ms[..n], s1);
      hide Makes;
      MoveReaches(cfg, pol, s, s1, ms[n], s');
    }
  }

  lemma MoveReaches(cfg: Config, pol: Policy, s: State, s1: State, m: ServingMove, s': State)
    requires Reaches(cfg, s, s1) && Made(cfg, pol, s1, m, s')
    ensures Reaches(cfg, s, s')
  {
    hide Reaches, Sync, Trigger, Stage, GoLast, IsColdListing, NoneOnCpu;
    match m
    case SyncMove(q, tokens) => SyncReaches(cfg, s, s1, q, tokens, s');
    case OffloadMove(copied) => OffloadReaches(cfg, s, s1, pol.fraction, copied, s');
    case PromoteMove(q, copied) =>
      if s' != s1 {
        var cold, picked :|
          && IsColdListing(s1.core.table.blocks, q, cold) && GoLast(s1.core.scores, cold, pol.limit, picked)
          && Stage(cfg, s1, picked, copied, s');
        StageReaches(cfg, s, s1, picked, copied, s');
      }
  }

  /** Nothing but offloads adds to what is to be stored, and no move numbers an event. */
  lemma {:induction false} MakesRecords(cfg: Config, pol: Policy, s: State, ms: seq<ServingMove>, s': State)
    requires Makes(cfg, pol, s, ms, s')
    ensures s.acc <= s'.acc && s'.pending == s.pending && s'.nextEvent == s.nextEvent
    ensures (forall m :: m in ms ==> !m.OffloadMove?) ==> s'.acc == s.acc
    decreases |ms|
  {
    hide Made;
    if ms != [] {
      var n := |ms| - 1;
      var s1 :| Makes(cfg, pol, s, ms[..n], s1) && Made(cfg, pol, s1, ms[n], s');
      MakesRecords(cfg, pol, s, ms[..n], s1);
      hide Makes;
      MoveRecords(cfg, pol, s1, ms[n], s');
      assert forall m :: m in ms[..n] ==> m in ms;
    }
  }

  lemma MoveRecords(cfg: Config, pol: Policy, s: State, m: ServingMove, s': State)
    requires Made(cfg, pol, s, m, s')
    ensures s.acc <= s'.acc && s'.pending == s.pending && s'.nextEvent == s.nextEvent
    ensures !m.OffloadMove? ==> s'.acc == s.acc
  {
    hide SyncedCore, NewPages, Candidates, FractionChoice, CanOffload, Offloaded, NothingOffloaded, EnsurePost,
         Rescored, GoLast, IsColdListing, NoneOnCpu, PageShape;
  }

  /** The events are completed, one after the other. */
  ghost predicate Completes(cfg: Config, s: State, ks: seq<nat>, s': State)
    decreases |ks|
  {
    if ks == [] then s' == s
    else exists s1 :: Completes(cfg, s, Earlier(ks), s1) && Complete(cfg, s1, LastOf(ks), s')
  }

  lemma CompletesNothing(cfg: Config, s: State)
    ensures Completes(cfg, s, [], s)
  {
  }

  lemma CompletesNext(cfg: Config, s: State, ks: seq<nat>, s1: State, k: nat, s': State)
    requires Completes(cfg, s, ks, s1) && Complete(cfg, s1, k, s')
    ensures Completes(cfg, s, ks + [k], s')
  {
    hide Complete;
    assert Earlier(ks + [k]) == ks && LastOf(ks + [k]) == k;
  }

  // ------------------------------------------------------------------ the script

  /** Whether a copy made for a request reaches all layers. */
  type Copies = (string, Transfer) -> bool

  function CopiedIf(layers: nat, reach: (string, Transfer) -> nat): (copied: Copies) {
    (q, what) => layers <= reach(q, what)
  }

  /** The prompt lengths known once the first n new requests have arrived. */
  function PromptsAfter(prompts: map<string, nat>, arrived: seq<NewRequest>, n: nat): (p: map<string, nat>)
    requires n <= |arrived|
  {
    if n == 0 then prompts
    else PromptsAfter(prompts, arrived, n - 1)[arrived[n - 1].req := arrived[n - 1].promptLen]
  }

  /** A known prompt, and as many tokens computed as it has. */
  predicate PromptDone(prompts: map<string, nat>, c: CachedRequest) {
    && c.handover.req in prompts
    && 0 < prompts[c.handover.req] <= c.handover.tokens
  }

  /** The requests past their prefill once the first n running ones have been served. */
  ghost function DoneCached(prompts: map<string, nat>, done: set<string>, cached: seq<CachedRequest>, n: nat)
    : (d: set<string>)
    requires n <= |cached|
  {
    done + set i | 0 <= i < n && PromptDone(prompts, cached[i]) :: cached[i].handover.req
  }

  /** The same for new requests, whose prompt may be empty. */
  ghost function DoneArrived(done: set<string>, arrived: seq<NewRequest>, n: nat): (d: set<string>)
    requires n <= |arrived|
  {
    done + set i | 0 <= i < n && arrived[i].promptLen <= arrived[i].tokens :: arrived[i].req
  }

  /** An offload when the request's prefill has just ended. */
  ghost function PrefillOffload(prompts: map<string, nat>, done: set<string>, c: CachedRequest, copied: Copies)
    : (ms: seq<ServingMove>)
  {
    var q := c.handover.req;
    if PromptDone(prompts, c) && q !in done then [OffloadMove(copied(q, AfterPrefill))] else []
  }

  /** An offload when the request is past its prefill, computes something in this step, and its interval is
      over. */
  ghost function IntervalOffload(done: set<string>, c: CachedRequest, copied: Copies): (ms: seq<ServingMove>) {
    var q := c.handover.req;
    if q in done && 0 < c.scheduled && c.due then [OffloadMove(copied(q, Interval))] else []
  }

  /** Who is past the prefill once a running request has been looked at. */
  ghost function DoneWith(prompts: map<string, nat>, done: set<string>, c: CachedRequest): (d: set<string>) {
    if PromptDone(prompts, c) then done + {c.handover.req} else done
  }

  /** What a running request sets off. */
  ghost function OffloadsFor(prompts: map<string, nat>, done: set<string>, c: CachedRequest, copied: Copies)
    : (ms: seq<ServingMove>)
  {
    PrefillOffload(prompts, done, c, copied) + IntervalOffload(DoneWith(prompts, done, c), c, copied)
  }

  ghost function ServeMoves(prompts: map<string, nat>, done: set<string>, c: CachedRequest, copied: Copies)
    : (ms: seq<ServingMove>)
  {
    [SyncMove(c.handover.req, c.handover.tokens)] + OffloadsFor(prompts, done, c, copied)
  }

  /** One sync per new request. */
  ghost function ArriveMoves(arrived: seq<NewRequest>, n: nat): (ms: seq<ServingMove>)
    requires n <= |arrived|
    ensures |ms| == n && forall i :: 0 <= i < n ==> ms[i] == SyncMove(arrived[i].req, arrived[i].tokens)
  {
    seq(n, i requires 0 <= i < n => SyncMove(arrived[i].req, arrived[i].tokens))
  }

  ghost function CachedMoves(prompts: map<string, nat>, done: set<string>, cached: seq<CachedRequest>, copied: Copies,
                             n: nat)
    : (ms: seq<ServingMove>)
    requires n <= |cached|
  {
    if n == 0 then []
    else CachedMoves(prompts, done, cached, copied, n - 1)
         + ServeMoves(prompts, DoneCached(prompts, done, cached, n - 1), cached[n - 1], copied)
  }

  /** An offload when a new request's prefill is over at once. */
  ghost function ArrivalOffload(done: set<string>, a: NewRequest, copied: Copies): (ms: seq<ServingMove>) {
    if a.promptLen <= a.tokens && a.req !in done then [OffloadMove(copied(a.req, AfterPrefill))] else []
  }

  ghost function PrefillMoves(done: set<string>, arrived: seq<NewRequest>, copied: Copies, n: nat)
    : (ms: seq<ServingMove>)
    requires n <= |arrived|
  {
    if n == 0 then []
    else PrefillMoves(done, arrived, copied, n - 1)
         + ArrivalOffload(DoneArrived(done, arrived, n - 1), arrived[n - 1], copied)
  }

  /** One promotion per running request past its prefill. */
  ghost function PromoteMoves(done: set<string>, cached: seq<CachedRequest>, copied: Copies, n: nat)
    : (ms: seq<ServingMove>)
    requires n <= |cached|
  {
    if n == 0 then []
    else
      var q := cached[n - 1].handover.req;
      PromoteMoves(done, cached, copied, n - 1) + (if q in done then [PromoteMove(q, copied(q, Promotion))] else [])
  }

  /** The first half of a step: every request is synced, and what is due is offloaded. */
  ghost function ServingMoves(prompts: map<string, nat>, done: set<string>, arrived: seq<NewRequest>,
                              cached: seq<CachedRequest>, copied: Copies)
    : (ms: seq<ServingMove>)
  {
    var known := PromptsAfter(prompts, arrived, |arrived|);
    ArriveMoves(arrived, |arrived|)
    + CachedMoves(known, done, cached, copied, |cached|)
    + PrefillMoves(DoneCached(known, done, cached, |cached|), arrived, copied, |arrived|)
  }

  /** Who is past the prefill after a step. */
  ghost function DoneAfter(prompts: map<string, nat>, done: set<string>, arrived: seq<NewRequest>,
                           cached: seq<CachedRequest>)
    : (d: set<string>)
  {
    var known := PromptsAfter(prompts, arrived, |arrived|);
    DoneArrived(DoneCached(known, done, cached, |cached|), arrived, |arrived|)
  }

  /** All moves of a step; blocks are promoted only where pages are truly freed. */
  ghost function StepMoves(cfg: Config, prompts: map<string, nat>, done: set<string>, arrived: seq<NewRequest>,
                           cached: seq<CachedRequest>, copied: Copies)
    : (ms: seq<ServingMove>)
  {
    ServingMoves(prompts, done, arrived, cached, copied)
    + (if cfg.trueFree then PromoteMoves(DoneAfter(prompts, done, arrived, cached), cached, copied, |cached|) else [])
  }

  lemma DoneCachedNext(prompts: map<string, nat>, done: set<string>, cached: seq<CachedRequest>, n: nat)
    requires n < |cached|
    ensures DoneCached(prompts, done, cached, n + 1) ==
      DoneWith(prompts, DoneCached(prompts, done, cached, n), cached[n])
  {
    hide PromptDone;
  }

  lemma DoneArrivedNext(done: set<string>, arrived: seq<NewRequest>, n: nat)
    requires n < |arrived|
    ensures DoneArrived(done, arrived, n + 1) ==
      DoneArrived(done, arrived, n) + (if arrived[n].promptLen <= arrived[n].tokens then {arrived[n].req} else {})
  {
  }

  lemma CachedMovesNext(prompts: map<string, nat>, done: set<string>, cached: seq<CachedRequest>, copied: Copies,
                        n: nat)
    requires n < |cached|
    ensures CachedMoves(prompts, done, cached, copied, n + 1) ==
      CachedMoves(prompts, done, cached, copied, n)
      + ServeMoves(prompts, DoneCached(prompts, done, cached, n), cached[n], copied)
  {
  }

  lemma {:induction false} CachedMovesGrow(prompts: map<string, nat>, done: set<string>, cached: seq<CachedRequest>,
                                           copied: Copies, n: nat, m: nat)
    requires n <= m <= |cached|
    ensures CachedMoves(prompts, done, cached, copied, n) <= CachedMoves(prompts, done, cached, copied, m)
    decreases m
  {
    hide ServeMoves, DoneCached;
    if n < m { CachedMovesGrow(prompts, done, cached, copied, n, m - 1); }
  }

  lemma {:induction false} PrefillMovesGrow(done: set<string>, arrived: seq<NewRequest>, copied: Copies, n: nat, m: nat)
    requires n <= m <= |arrived|
    ensures PrefillMoves(done, arrived, copied, n) <= PrefillMoves(done, arrived, copied, m)
    decreases m
  {
    hide DoneArrived, ArrivalOffload;
    if n < m { PrefillMovesGrow(done, arrived, copied, n, m - 1); }
  }

  /** One promotion per active request, in order. */
  ghost function Promotions(active: seq<string>, copied: Copies, n: nat): (ms: seq<ServingMove>)
    requires n <= |active|
    ensures |ms| == n && forall i :: 0 <= i < n ==> ms[i] == PromoteMove(active[i], copied(active[i], Promotion))
  {
    seq(n, i requires 0 <= i < n => PromoteMove(active[i], copied(active[i], Promotion)))
  }

  /** The active requests are the running ones past their prefill. */
  lemma {:induction false} ActivePromotions(done: set<string>, cached: seq<CachedRequest>, copied: Copies, n: nat)
    requires n <= |cached|
    ensures var active := ActiveOf(cached[..n], done);
      Promotions(active, copied, |active|) == PromoteMoves(done, cached, copied, n)
  {
    if n > 0 {
      ActivePromotions(done, cached, copied, n - 1);
      assert cached[..n][..n - 1] == cached[..n - 1];
    }
  }

  lemma PromotionsStart(active: seq<string>, copied: Copies)
    ensures Promotions(active, copied, 0) == []
  {
  }

  lemma PromotionsNext(active: seq<string>, copied: Copies, i: nat)
    requires i < |active|
    ensures Promotions(active, copied, i + 1) ==
      Promotions(active, copied, i) + [PromoteMove(active[i], copied(active[i], Promotion))]
    ensures Promotions(active, copied, i + 1) <= Promotions(active, copied, |active|)
  {
  }

  lemma IdleMove(cfg: Config, pol: Policy, s: State, q: string, copied: bool)
    requires pol.limit <= 0 || NoneOnCpu(s, q)
    ensures Made(cfg, pol, s, PromoteMove(q, copied), s)
  {
    hide NoneOnCpu, Stage;
  }

  /** Promotions that find nothing to promote change nothing. */
  lemma {:induction false} IdlePromotions(cfg: Config, pol: Policy, s: State, active: seq<string>, copied: Copies,
                                          n: nat)
    requires n <= |active| && (pol.limit <= 0 || forall q :: NoneOnCpu(s, q))
    ensures Makes(cfg, pol, s, Promotions(active, copied, n), s)
  {
    hide Makes, Made, NoneOnCpu, Promotions;
    if n == 0 {
      MakesNothing(cfg, pol, s);
      PromotionsStart(active, copied);
    } else {
      IdlePromotions(cfg, pol, s, active, copied, n - 1);
      var q := active[n - 1];
      IdleMove(cfg, pol, s, q, copied(q, Promotion));
      MakesNext(cfg, pol, s, Promotions(active, copied, n - 1), s, PromoteMove(q, copied(q, Promotion)), s);
      PromotionsNext(active, copied, n - 1);
    }
  }

  /** What promote_hot_cpu_blocks does is the move; it raises only if a copy fails. */
  lemma PromotedIsMove(cfg: Config, s: State, q: string, limit: int, copied: bool, picked: seq<BlockRef>,
                       out: Result<(map<BlockRef, nat>, seq<BlockRef>)>, res: Result<map<BlockRef, nat>>, c': Core)
    requires PromoteEffect(cfg.d, cfg.base, q, limit, copied, picked, out, s.core, res, c')
    requires forall p :: 0 <= p < |c'.gpu| ==> PageShape(cfg.d, c'.gpu[p])
    ensures Promote(cfg, limit, s, q, copied, s.(core := c'))
    ensures copied ==> res.Ok?
  {
    hide PageShape, FetchEffect, GoLast, IsColdListing, Stage;
    if limit <= 0 || NoneOnCpu(s, q) {
      assert s.(core := c') == s;
    } else {
      var cold :| IsColdListing(s.core.table.blocks, q, cold) && GoLast(s.core.scores, cold, limit, picked);
      FetchedIsStage(cfg, s, picked, copied, out, c');
      PickedAreKnown(s.core.table.blocks, s.core.scores, q, cold, limit, picked);
      KnownFetchIsOk(cfg, s, picked, copied, out, c');
    }
  }

  lemma PickedAreKnown(blocks: map<BlockRef, Location>, scores: map<BlockRef, real>, q: string, cold: seq<BlockRef>,
                       limit: nat, picked: seq<BlockRef>)
    requires IsColdListing(blocks, q, cold) && GoLast(scores, cold, limit, picked)
    ensures forall r :: r in picked ==> r in blocks
  {
    hide Distinct, ScoresAtLeast;
  }

  lemma KnownFetchIsOk(cfg: Config, s: State, refs: seq<BlockRef>, copied: bool,
                       out: Result<(map<BlockRef, nat>, seq<BlockRef>)>, c': Core)
    requires FetchEffect(cfg.d, cfg.base, refs, copied, out, s.core, c')
    requires forall r :: r in refs ==> r in s.core.table.blocks
    ensures copied ==> out.Ok?
  {
    hide ToFetch, Hits, Served, RolledBack, PlanFor;
  }
}
