/** The LRU scorer: a block's score is the tick of the last selection that contained it. */
module Lru {
  import opened Blocks
  import opened Ranking

  /** What can happen to the scorer. */
  datatype Op =
    | Note(req: string, idxs: seq<nat>)
    | Update(refs: seq<BlockRef>)
    | Forget(refs: seq<BlockRef>)

  datatype Recency = Recency(clock: nat, lastUsed: map<BlockRef, nat>)

  function Noted(s: Recency, req: string, idxs: seq<nat>, n: nat): (s': Recency)
    requires n <= |idxs|
  {
    if n == 0 then s.(clock := s.clock + 1)
    else
      var p := Noted(s, req, idxs, n - 1);
      p.(lastUsed := p.lastUsed[BlockRef(req, idxs[n - 1]) := p.clock])
  }

  function Updated(s: Recency, refs: seq<BlockRef>, n: nat): (s': Recency)
    requires n <= |refs|
  {
    if n == 0 then s
    else
      var p := Updated(s, refs, n - 1);
      if refs[n - 1] in p.lastUsed then p else p.(lastUsed := p.lastUsed[refs[n - 1] := 0])
  }

  function Forgotten(s: Recency, refs: seq<BlockRef>, n: nat): (s': Recency)
    requires n <= |refs|
  {
    if n == 0 then s
    else
      var p := Forgotten(s, refs, n - 1);
      p.(lastUsed := p.lastUsed - {refs[n - 1]})
  }

  function After(s: Recency, op: Op): (s': Recency) {
    match op
    case Note(req, idxs) => Noted(s, req, idxs, |idxs|)
    case Update(refs) => Updated(s, refs, |refs|)
    case Forget(refs) => Forgotten(s, refs, |refs|)
  }

  /** The scorer after a whole history. */
  function Replay(h: seq<Op>): (s: Recency) {
    if h == [] then Recency(0, map[]) else After(Replay(h[..|h| - 1]), h[|h| - 1])
  }

  function TickOf(s: Recency, r: BlockRef): (t: nat) {
    if r in s.lastUsed then s.lastUsed[r] else 0
  }

  // ------------------------------------------------------------------ what a score means

  predicate Selects(op: Op, r: BlockRef) {
    op.Note? && r.req == op.req && r.idx in op.idxs
  }

  predicate Forgets(op: Op, r: BlockRef) {
    op.Forget? && r in op.refs
  }

  /** How many selections a history holds. */
  function Selections(h: seq<Op>): (n: nat)
    ensures n <= |h|
  {
    if h == [] then 0 else Selections(h[..|h| - 1]) + (if h[|h| - 1].Note? then 1 else 0)
  }

  /** Event i is the last selection of r, and r has not been forgotten since. */
  ghost predicate LastSelection(h: seq<Op>, i: nat, r: BlockRef) {
    && i < |h| && Selects(h[i], r)
    && (forall j :: i < j < |h| ==> !Selects(h[j], r) && !Forgets(h[j], r))
  }

  lemma {:induction false} NotedAt(s: Recency, req: string, idxs: seq<nat>, n: nat, r: BlockRef)
    requires n <= |idxs|
    ensures Noted(s, req, idxs, n).clock == s.clock + 1
    ensures TickOf(Noted(s, req, idxs, n), r) ==
      if r.req == req && r.idx in idxs[..n] then s.clock + 1 else TickOf(s, r)
    ensures r in Noted(s, req, idxs, n).lastUsed <==> r in s.lastUsed || (r.req == req && r.idx in idxs[..n])
  {
    if n > 0 {
      NotedAt(s, req, idxs, n - 1, r);
      assert idxs[..n] == idxs[..n - 1] + [idxs[n - 1]];
    }
  }

  lemma {:induction false} UpdatedAt(s: Recency, refs: seq<BlockRef>, n: nat, r: BlockRef)
    requires n <= |refs|
    ensures Updated(s, refs, n).clock == s.clock && TickOf(Updated(s, refs, n), r) == TickOf(s, r)
    ensures r in Updated(s, refs, n).lastUsed <==> r in s.lastUsed || r in refs[..n]
  {
    if n > 0 {
      UpdatedAt(s, refs, n - 1, r);
      assert refs[..n] == refs[..n - 1] + [refs[n - 1]];
    }
  }

  lemma {:induction false} ForgottenAt(s: Recency, refs: seq<BlockRef>, n: nat, r: BlockRef)
    requires n <= |refs|
    ensures Forgotten(s, refs, n).clock == s.clock
    ensures TickOf(Forgotten(s, refs, n), r) == if r in refs[..n] then 0 else TickOf(s, r)
    ensures r in Forgotten(s, refs, n).lastUsed <==> r in s.lastUsed && r !in refs[..n]
  {
    if n > 0 {
      ForgottenAt(s, refs, n - 1, r);
      assert refs[..n] == refs[..n - 1] + [refs[n - 1]];
    }
  }

  /** One operation, seen from one block. */
  lemma AfterAt(s: Recency, op: Op, r: BlockRef)
    ensures After(s, op).clock == s.clock + if op.Note? then 1 else 0
    ensures TickOf(After(s, op), r) ==
      if Selects(op, r) then s.clock + 1 else if Forgets(op, r) then 0 else TickOf(s, r)
    ensures r in After(s, op).lastUsed <==>
      Selects(op, r) || (op.Update? && r in op.refs) || (r in s.lastUsed && !Forgets(op, r))
  {
    match op
    case Note(req, idxs) =>
      NotedAt(s, req, idxs, |idxs|, r);
      assert idxs[..|idxs|] == idxs;
    case Update(refs) =>
      UpdatedAt(s, refs, |refs|, r);
      assert refs[..|refs|] == refs;
    case Forget(refs) =>
      ForgottenAt(s, refs, |refs|, r);
      assert refs[..|refs|] == refs;
  }

  /** LRU meaning: after any history the clock counts the selections, and a block's score is the number
      of the last selection that contained it since it was forgotten, or 0 if there is none. */
  lemma {:induction false} ScoreIsLastSelection(h: seq<Op>, r: BlockRef)
    ensures Replay(h).clock == Selections(h)
    ensures forall i: nat :: LastSelection(h, i, r) ==> TickOf(Replay(h), r) == Selections(h[..i + 1]) > 0
    ensures (forall i: nat :: !LastSelection(h, i, r)) ==> TickOf(Replay(h), r) == 0
  {
    if h != [] {
      var n := |h| - 1;
      var h', op := h[..n], h[n];
      ScoreIsLastSelection(h', r);
      AfterAt(Replay(h'), op, r);
      hide Replay, After;
      assert h[..n + 1] == h;
      forall i: nat | LastSelection(h, i, r) ensures TickOf(After(Replay(h'), op), r) == Selections(h[..i + 1]) > 0 {
        if i < n {
          assert LastSelection(h', i, r) && h'[..i + 1] == h[..i + 1];
        }
      }
      if forall i: nat :: !LastSelection(h, i, r) {
        assert !Selects(op, r) by { assert !LastSelection(h, n, r); }
        if !Forgets(op, r) {
          forall i: nat ensures !LastSelection(h', i, r) {
            assert !LastSelection(h, i, r);
          }
        }
      }
    }
  }

  // ------------------------------------------------------------------ float32 ticks

  const EXACT: nat := 0x100_0000      // 2^24

  /** Distance of neighbouring float32 values around the integer n. */
  function Ulp(n: nat): (u: nat)
    ensures u > 0
  {
    if n < EXACT then 1 else 2 * Ulp(n / 2)
  }

  /** Conversion of an integer to float32: to nearest, ties to even. */
  function Float32(n: nat): (x: real) {
    var u := Ulp(n);
    var q, rem := n / u, n % u;
    (if 2 * rem < u || (2 * rem == u && q % 2 == 0) then q * u else (q + 1) * u) as real
  }

  lemma SmallTicksAreExact(n: nat)
    requires n <= EXACT
    ensures Float32(n) == n as real
  {
    if n == EXACT {
      assert Ulp(n) == 2 * Ulp(n / 2) == 2;
    }
  }

  lemma FirstInexactTick()
    ensures Float32(EXACT + 1) == EXACT as real
  {
    assert Ulp(EXACT + 1) == 2 * Ulp((EXACT + 1) / 2) == 2;
  }

  function TickKey(lastUsed: map<BlockRef, nat>): (key: BlockRef -> Score) {
    r => Fin(Float32(if r in lastUsed then lastUsed[r] else 0))
  }

  /** The eviction choice: all but `budget` blocks, oldest first. */
  function Oldest(lastUsed: map<BlockRef, nat>, ids: seq<BlockRef>, budget: nat): (r: seq<BlockRef>) {
    if |ids| <= budget then [] else Ranked(TickKey(lastUsed), ids)[..|ids| - budget]
  }

  /** No evicted block was selected more recently than a kept one. */
  ghost predicate RespectsRecency(lastUsed: map<BlockRef, nat>, ids: seq<BlockRef>, out: seq<BlockRef>) {
    forall e, k :: e in out && k in ids && k !in out && e in lastUsed && k in lastUsed ==> lastUsed[e] <= lastUsed[k]
  }

  ghost predicate TicksUpTo(lastUsed: map<BlockRef, nat>, clock: nat) {
    forall r :: r in lastUsed ==> lastUsed[r] <= clock
  }

  lemma ExactTicksRespectRecency(lastUsed: map<BlockRef, nat>, clock: nat, ids: seq<BlockRef>, budget: nat)
    requires clock <= EXACT && TicksUpTo(lastUsed, clock) && Distinct(ids)
    ensures RespectsRecency(lastUsed, ids, Oldest(lastUsed, ids, budget))
  {
    hide Float32, Ranked;
    var out := Oldest(lastUsed, ids, budget);
    if |ids| > budget {
      PrefixIsColdest(TickKey(lastUsed), ids, |ids| - budget);
      forall e, k | e in out && k in ids && k !in out && e in lastUsed && k in lastUsed
        ensures lastUsed[e] <= lastUsed[k]
      {
        assert Colder(TickKey(lastUsed), ids, e, k);
        SmallTicksAreExact(lastUsed[e]);
        SmallTicksAreExact(lastUsed[k]);
      }
    }
  }

  lemma {:induction false} TicksNeverPassClock(h: seq<Op>, r: BlockRef)
    ensures TickOf(Replay(h), r) <= Replay(h).clock == Selections(h)
  {
    if h != [] {
      TicksNeverPassClock(h[..|h| - 1], r);
      AfterAt(Replay(h[..|h| - 1]), h[|h| - 1], r);
    }
  }

  /** So after any history of at most 2^24 selections, no evicted block was selected more recently than
      a kept one. */
  lemma EvictionFollowsHistory(h: seq<Op>, ids: seq<BlockRef>, budget: nat)
    requires Selections(h) <= EXACT && Distinct(ids)
    ensures RespectsRecency(Replay(h).lastUsed, ids, Oldest(Replay(h).lastUsed, ids, budget))
  {
    hide Replay, Oldest, RespectsRecency;
    var s := Replay(h);
    forall r | r in s.lastUsed ensures s.lastUsed[r] <= Selections(h) {
      TicksNeverPassClock(h, r);
    }
    ExactTicksRespectRecency(s.lastUsed, Selections(h), ids, budget);
  }

  /** n selections of nothing at all. */
  function Idle(n: nat): (h: seq<Op>)
    ensures |h| == n && forall i :: 0 <= i < n ==> h[i] == Note("", [])
  {
    seq(n, _ => Note("", []))
  }

  lemma {:induction false} IdleTicks(n: nat)
    ensures Replay(Idle(n)) == Recency(n, map[]) && Selections(Idle(n)) == n
  {
    if n > 0 {
      IdleTicks(n - 1);
      assert Idle(n)[..n - 1] == Idle(n - 1);
    } else {
      assert Idle(n) == [];
    }
  }

  /** 2^24 - 1 selections of nothing, then block b, then block a. */
  function LongHistory(a: BlockRef, b: BlockRef): (h: seq<Op>) {
    Idle(EXACT - 1) + [Note(b.req, [b.idx]), Note(a.req, [a.idx])]
  }

  lemma LongHistoryTicks(a: BlockRef, b: BlockRef)
    requires a != b
    ensures Selections(LongHistory(a, b)) == EXACT + 1
    ensures Replay(LongHistory(a, b)).lastUsed == map[a := EXACT + 1, b := EXACT]
  {
    var h0, h2 := Idle(EXACT - 1), LongHistory(a, b);
    var h1 := h0 + [Note(b.req, [b.idx])];
    IdleTicks(EXACT - 1);
    hide Idle;
    assert h2[..|h2| - 1] == h1 && h1[..|h1| - 1] == h0;
    assert h2[|h2| - 1] == Note(a.req, [a.idx]) && h1[|h1| - 1] == Note(b.req, [b.idx]);
    NotedOnce(Replay(h0), b);
    NotedOnce(Replay(h1), a);
  }

  lemma NotedOnce(s: Recency, r: BlockRef)
    ensures After(s, Note(r.req, [r.idx])) == Recency(s.clock + 1, s.lastUsed[r := s.clock + 1])
  {
    assert Noted(s, r.req, [r.idx], 1) ==
      Noted(s, r.req, [r.idx], 0).(
        lastUsed := Noted(s, r.req, [r.idx], 0).lastUsed[BlockRef(r.req, r.idx) := s.clock + 1]);
  }

  /** One tick past 2^24 two selections in a row look the same: after this history the block selected
      last of all is the one evicted. */
  lemma LatestSelectionIsEvicted(a: BlockRef, b: BlockRef)
    requires a != b
    ensures var t := Replay(LongHistory(a, b)).lastUsed;
      Oldest(t, [a, b], 1) == [a] && !RespectsRecency(t, [a, b], [a])
  {
    LongHistoryTicks(a, b);
    FirstInexactTick();
    SmallTicksAreExact(EXACT);
    hide Replay, LongHistory, Float32;
    var lastUsed: map<BlockRef, nat> := map[a := EXACT + 1, b := EXACT];
    var key, ids := TickKey(lastUsed), [a, b];
    assert key(a) == key(b);
    assert ids[..1] == [a];
    assert ArgMin(key, [a]) == 0;
    assert ArgMin(key, ids) == 0;
    assert Ranked(key, ids)[..1] == [a];
    assert b in ids && b !in [a] && a in [a];
  }

  /** Eviction follows true recency after every history of at most `clock` selections if and only if
      `clock` is at most 2^24. */
  lemma RecencyExactIff(clock: nat)
    ensures clock <= EXACT <==>
      (forall h: seq<Op>, ids: seq<BlockRef>, budget: nat :: Selections(h) <= clock && Distinct(ids) ==>
         RespectsRecency(Replay(h).lastUsed, ids, Oldest(Replay(h).lastUsed, ids, budget)))
  {
    hide Replay, Oldest, RespectsRecency, LongHistory, Selections;
    if clock <= EXACT {
      forall h: seq<Op>, ids: seq<BlockRef>, budget: nat | Selections(h) <= clock && Distinct(ids)
        ensures RespectsRecency(Replay(h).lastUsed, ids, Oldest(Replay(h).lastUsed, ids, budget))
      {
        EvictionFollowsHistory(h, ids, budget);
      }
    } else {
      var a, b := BlockRef("q", 0), BlockRef("q", 1);
      var h := LongHistory(a, b);
      LongHistoryTicks(a, b);
      LatestSelectionIsEvicted(a, b);
      assert Selections(h) <= clock && Distinct([a, b]);
      assert !RespectsRecency(Replay(h).lastUsed, [a, b], Oldest(Replay(h).lastUsed, [a, b], 1));
    }
  }

  // ------------------------------------------------------------------ the scorer

  function Unknown(lastUsed: map<BlockRef, nat>): (p: BlockRef -> bool) {
    r => r !in lastUsed
  }

  class LRUScorer {
    var lastUsed: map<BlockRef, nat>
    var clock: nat

    ghost function View(): (s: Recency)
      reads this
    {
      Recency(clock, lastUsed)
    }

    constructor ()
      ensures View() == Replay([])
    {
      lastUsed, clock := map[], 0;
    }

    method NoteUsage(req: string, idxs: seq<nat>)
      modifies this
      ensures View() == After(old(View()), Note(req, idxs))
    {
      clock := clock + 1;
      for i := 0 to |idxs|
        invariant View() == Noted(old(View()), req, idxs, i) && clock == old(clock) + 1
      {
        lastUsed := lastUsed[BlockRef(req, idxs[i]) := clock];
      }
    }

    method Update(refs: seq<BlockRef>)
      modifies this
      ensures View() == After(old(View()), Op.Update(refs))
    {
      for i := 0 to |refs|
        invariant View() == Updated(old(View()), refs, i)
      {
        if refs[i] !in lastUsed { lastUsed := lastUsed[refs[i] := 0]; }
      }
    }

    method Forget(refs: seq<BlockRef>)
      modifies this
      ensures View() == After(old(View()), Op.Forget(refs))
    {
      for i := 0 to |refs|
        invariant View() == Forgotten(old(View()), refs, i)
      {
        lastUsed := lastUsed - {refs[i]};
      }
    }

    method SelectForEviction(ids: seq<BlockRef>, budget: int) returns (res: Result<seq<BlockRef>>)
      ensures budget < 0 ==> res == Err(ValueError)
      ensures 0 <= budget ==>
        res == if |ids| <= budget || (forall r :: r in ids ==> r in lastUsed)
               then Ok(Oldest(lastUsed, ids, budget)) else Err(AssertionError)
    {
      if budget < 0 { return Err(ValueError); }
      if |ids| <= budget { return Ok([]); }
      var unscored := Filter(Unknown(lastUsed), ids);
      FilterElements(Unknown(lastUsed), ids);
      if unscored != [] {
        assert unscored[0] in unscored;
        return Err(AssertionError);
      }
      return Ok(Ranked(TickKey(lastUsed), ids)[..|ids| - budget]);
    }
  }
}
