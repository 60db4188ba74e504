/** The paged-eviction scorer: a decayed importance per block, and the eviction choice it makes. */
module Scoring {
  import opened Blocks
  import opened Ranking
  import opened Scores

  function KeyOf(scores: map<BlockRef, real>): (key: BlockRef -> Score) {
    r => if r in scores then Fin(scores[r]) else NegInf
  }

  /** Evicted before, on the recorded scores themselves: an unscored block goes before every scored one, a
      lower score before a higher one, and what ties goes in list order. */
  ghost predicate GoesFirst(scores: map<BlockRef, real>, ids: seq<BlockRef>, a: BlockRef, b: BlockRef) {
    if a in scores then b in scores && (scores[a] < scores[b] || (scores[a] == scores[b] && Precedes(ids, a, b)))
    else b in scores || Precedes(ids, a, b)
  }

  lemma ColderGoesFirst(scores: map<BlockRef, real>, ids: seq<BlockRef>, a: BlockRef, b: BlockRef)
    ensures Colder(KeyOf(scores), ids, a, b) <==> GoesFirst(scores, ids, a, b)
  {
    hide Precedes;
  }

  /** A choice of blocks to evict: no repeats, in eviction order, and all of them before any that is kept. */
  ghost predicate GoFirst(scores: map<BlockRef, real>, ids: seq<BlockRef>, out: seq<BlockRef>) {
    && Distinct(out)
    && (forall c :: c in out ==> c in ids)
    && (forall i, j :: 0 <= i < j < |out| ==> GoesFirst(scores, ids, out[i], out[j]))
    && (forall c, k :: c in out && k in ids && k !in out ==> GoesFirst(scores, ids, c, k))
  }

  lemma AreColdestGoFirst(scores: map<BlockRef, real>, ids: seq<BlockRef>, out: seq<BlockRef>)
    requires AreColdest(KeyOf(scores), ids, out)
    ensures GoFirst(scores, ids, out)
  {
    hide Precedes, Distinct, Colder, GoesFirst, KeyOf;
    forall a, b ensures Colder(KeyOf(scores), ids, a, b) <==> GoesFirst(scores, ids, a, b) {
      ColderGoesFirst(scores, ids, a, b);
    }
  }

  /** The blocks at the top, on the recorded scores: a scored block is never passed over for a lower one, nor
      for one without a score. Ties may go either way. */
  ghost predicate GoLast(scores: map<BlockRef, real>, ids: seq<BlockRef>, limit: nat, picked: seq<BlockRef>) {
    && Distinct(picked) && |picked| == (if |ids| < limit then |ids| else limit)
    && (forall r :: r in picked ==> r in ids)
    && (forall i, j :: 0 <= i < j < |picked| ==> ScoresAtLeast(scores, picked[i], picked[j]))
    && (forall r, k :: r in picked && k in ids && k !in picked ==> ScoresAtLeast(scores, r, k))
  }

  ghost predicate ScoresAtLeast(scores: map<BlockRef, real>, a: BlockRef, b: BlockRef) {
    b in scores ==> a in scores && scores[b] <= scores[a]
  }

  /** One observation: decay 1 keeps only the newest, decay 0 only the oldest. */
  function Observed(scores: map<BlockRef, real>, decay: real, r: BlockRef, obs: real): (s: map<BlockRef, real>) {
    scores[r := if r in scores then decay * obs + (1.0 - decay) * scores[r] else obs]
  }

  /** An observation changes one score. A first one is taken as it is; later ones move the score from where it
      was towards the observation, by the decay: all the way at 1, not at all at 0. */
  lemma ObservedMoves(scores: map<BlockRef, real>, decay: real, r: BlockRef, obs: real)
    ensures var s := Observed(scores, decay, r, obs);
      && s.Keys == scores.Keys + {r}
      && (forall k :: k in scores && k != r ==> s[k] == scores[k])
      && (r !in scores ==> s[r] == obs)
      && (r in scores ==> IsMix(decay, scores[r], obs, s[r]))
      && (decay == 1.0 ==> s[r] == obs)
      && (decay == 0.0 && r in scores ==> s[r] == scores[r])
      && (0.0 <= decay <= 1.0 && r in scores && scores[r] <= obs ==> scores[r] <= s[r] <= obs)
      && (0.0 <= decay <= 1.0 && r in scores && obs <= scores[r] ==> obs <= s[r] <= scores[r])
  {
    if r in scores {
      hide IsMix;
      Mixed(decay, scores[r], obs, Observed(scores, decay, r, obs)[r]);
    }
  }

  ghost predicate IsMix(decay: real, was: real, obs: real, x: real) {
    x - was == decay * (obs - was)
  }

  lemma Mixed(decay: real, was: real, obs: real, x: real)
    requires x == decay * obs + (1.0 - decay) * was
    ensures IsMix(decay, was, obs, x)
    ensures decay == 1.0 ==> x == obs
    ensures decay == 0.0 ==> x == was
    ensures 0.0 <= decay <= 1.0 && was <= obs ==> was <= x <= obs
    ensures 0.0 <= decay <= 1.0 && obs <= was ==> obs <= x <= was
  {
    var part := decay * (obs - was);
    assert x == was + part;
    Between(decay, obs - was, part);
  }

  lemma Between(x: real, y: real, part: real)
    requires part == x * y
    ensures x == 0.0 ==> part == 0.0
    ensures x == 1.0 ==> part == y
    ensures 0.0 <= x <= 1.0 && 0.0 <= y ==> 0.0 <= part <= y
    ensures 0.0 <= x <= 1.0 && y <= 0.0 ==> y <= part <= 0.0
  {
    assert (1.0 - x) * y == y - part;
  }

  function ObservedN(scores: map<BlockRef, real>, decay: real, refs: seq<BlockRef>, obs: seq<real>, n: nat)
    : (s: map<BlockRef, real>)
    requires n <= |refs| == |obs|
  {
    if n == 0 then scores else Observed(ObservedN(scores, decay, refs, obs, n - 1), decay, refs[n - 1], obs[n - 1])
  }

  /** The lowest-scored blocks beyond the number to keep, coldest first. */
  function Coldest(scores: map<BlockRef, real>, ids: seq<BlockRef>, budget: nat): (r: seq<BlockRef>) {
    if |ids| <= budget then [] else Ranked(KeyOf(scores), ids)[..|ids| - budget]
  }

  /** The choice is optimal: it has the right size, no repeats, and every chosen block goes before every block
      that is kept: its score is lower, or the same and it comes first in the list, or it has none. */
  lemma ColdestIsOptimal(scores: map<BlockRef, real>, ids: seq<BlockRef>, budget: nat)
    requires Distinct(ids)
    ensures |Coldest(scores, ids, budget)| == (if |ids| <= budget then 0 else |ids| - budget)
    ensures AreColdest(KeyOf(scores), ids, Coldest(scores, ids, budget))
    ensures GoFirst(scores, ids, Coldest(scores, ids, budget))
    ensures forall c, k ::
      c in Coldest(scores, ids, budget) && k in ids && k !in Coldest(scores, ids, budget) && c in scores ==>
        k in scores && scores[c] <= scores[k]
  {
    hide AreColdest, Ranked, KeyOf, GoFirst;
    if |ids| <= budget {
      NothingIsColdest(KeyOf(scores), ids);
    } else {
      PrefixIsColdest(KeyOf(scores), ids, |ids| - budget);
    }
    AreColdestGoFirst(scores, ids, Coldest(scores, ids, budget));
    GoFirstIsLower(scores, ids, Coldest(scores, ids, budget));
  }

  lemma GoFirstIsLower(scores: map<BlockRef, real>, ids: seq<BlockRef>, out: seq<BlockRef>)
    requires GoFirst(scores, ids, out)
    ensures forall c, k :: c in out && k in ids && k !in out && c in scores ==>
      k in scores && scores[c] <= scores[k]
  {
    hide Precedes, Distinct, GoesFirst;
    forall c, k | c in out && k in ids && k !in out && c in scores
      ensures k in scores && scores[c] <= scores[k]
    {
      assert GoesFirst(scores, ids, c, k);
      GoesFirstIsLower(scores, ids, c, k);
    }
  }

  lemma GoesFirstIsLower(scores: map<BlockRef, real>, ids: seq<BlockRef>, a: BlockRef, b: BlockRef)
    requires GoesFirst(scores, ids, a, b) && a in scores
    ensures b in scores && scores[a] <= scores[b]
  {
    hide Precedes;
  }

  /** Norms of a batch: per block as many K as V heads, at least one, and no negative K norm. */
  ghost predicate StatsOk(v: seq<seq<real>>, k: seq<seq<real>>) {
    |v| == |k| && forall i :: 0 <= i < |v| ==> |v[i]| == |k[i]| && v[i] != [] && AllNonNegative(k[i])
  }

  /** compute_block_scores. */
  function BlockScores(eps: Pos, red: Reduction, v: seq<seq<real>>, k: seq<seq<real>>): (obs: seq<real>)
    requires StatsOk(v, k)
    ensures |obs| == |v| && forall i :: 0 <= i < |v| ==> obs[i] == BlockScore(eps, red, v[i], k[i])
  {
    seq(|v|, i requires 0 <= i < |v| => BlockScore(eps, red, v[i], k[i]))
  }

  class PagedEvictionScorer {
    const decay: real
    const eps: Pos
    const reduction: Reduction
    var scores: map<BlockRef, real>

    constructor (decay: real, eps: Pos, reduction: Reduction)
      requires 0.0 <= decay <= 1.0
      ensures scores == map[] && this.decay == decay && this.eps == eps && this.reduction == reduction
    {
      this.decay, this.eps, this.reduction, scores := decay, eps, reduction, map[];
    }

    /** One score per block from its heads' norms, then one observation per block. */
    method UpdateStats(ids: seq<BlockRef>, v: seq<seq<real>>, k: seq<seq<real>>)
      requires |ids| == |v| && StatsOk(v, k)
      modifies this
      ensures scores == ObservedN(old(scores), decay, ids, BlockScores(eps, reduction, v, k), |ids|)
    {
      var obs: seq<real> := [];
      for i := 0 to |ids|
        invariant scores == old(scores)
        invariant obs == BlockScores(eps, reduction, v, k)[..i]
      {
        obs := obs + [BlockScore(eps, reduction, v[i], k[i])];
      }
      assert obs == BlockScores(eps, reduction, v, k);
      Update(ids, obs);
    }

    method Update(ids: seq<BlockRef>, obs: seq<real>)
      requires |ids| == |obs|
      modifies this
      ensures scores == ObservedN(old(scores), decay, ids, obs, |ids|)
    {
      var i := 0;
      while i < |ids|
        invariant 0 <= i <= |ids| && scores == ObservedN(old(scores), decay, ids, obs, i)
      {
        scores := Observed(scores, decay, ids[i], obs[i]);
        i := i + 1;
      }
    }

    /** Raises on a negative budget and when a candidate was never scored. */
    method SelectForEviction(ids: seq<BlockRef>, budget: int) returns (res: Result<seq<BlockRef>>)
      ensures budget < 0 ==> res == Err(ValueError)
      ensures 0 <= budget ==>
        res == if |ids| <= budget || (forall r :: r in ids ==> r in scores)
               then Ok(Coldest(scores, ids, budget)) else Err(AssertionError)
      ensures res.Ok? && Distinct(ids) ==> |res.value| == (if |ids| <= budget then 0 else |ids| - budget)
      ensures res.Ok? && Distinct(ids) ==> GoFirst(scores, ids, res.value)
    {
      hide GoFirst;
      if 0 <= budget && Distinct(ids) { ColdestIsOptimal(scores, ids, budget); }
      if budget < 0 {
        return Err(ValueError);
      }
      if |ids| <= budget {
        return Ok([]);
      }
      var unscored := Filter(Unscored(scores), ids);
      FilterElements(Unscored(scores), ids);
      if unscored != [] {
        assert unscored[0] in unscored;
        return Err(AssertionError);
      }
      return Ok(Ranked(KeyOf(scores), ids)[..|ids| - budget]);
    }

    method Forget(ids: seq<BlockRef>)
      modifies this
      ensures scores == old(scores) - ToSet(ids)
    {
      var i := 0;
      while i < |ids|
        invariant 0 <= i <= |ids| && scores == old(scores) - ToSet(ids[..i])
      {
        scores := scores - {ids[i]};
        i := i + 1;
        assert ToSet(ids[..i]) == ToSet(ids[..i - 1]) + {ids[i - 1]};
      }
      assert ids[..i] == ids;
    }
  }

  function Unscored(scores: map<BlockRef, real>): (p: BlockRef -> bool) {
    r => r !in scores
  }
}
