/** The staging pool: GPU tail pages that hold copies of CPU-resident blocks for attention to read. */
module Staging {
  import opened Blocks
  import opened Ranking
  import opened Residencies
  import opened Layout
  import opened Memory
  import opened Moves
  import opened Offloading

  /** Occupancy in recency order, the slot of each occupant, and the free list. */
  datatype Pool = Pool(order: seq<BlockRef>, slot: map<BlockRef, nat>, free: seq<nat>)

  /** Free list and occupied slots partition [0, numSlots), without duplicates. */
  ghost predicate Partition(p: Pool, numSlots: nat) {
    && Distinct(p.order) && ToSet(p.order) == p.slot.Keys
    && SlotsWithin(p.free, numSlots)
    && (forall r :: r in p.slot ==> p.slot[r] < numSlots && p.slot[r] !in p.free)
    && (forall r, q :: r in p.slot && q in p.slot && p.slot[r] == p.slot[q] ==> r == q)
    && (forall s :: 0 <= s < numSlots && s !in p.free ==> exists r :: r in p.slot && p.slot[r] == s)
  }

  /** Occupancy is exactly the block-to-slot map of the STAGING blocks. */
  ghost predicate Mirrors(p: Pool, t: Table) {
    && (forall r :: r in p.slot <==> Resides(t, r, STAGING))
    && (forall r :: r in p.slot ==> t.blocks[r].stagingSlot == Some(p.slot[r]))
  }

  function MovedToEnd(order: seq<BlockRef>, r: BlockRef): (o: seq<BlockRef>) {
    Without(order, r) + [r]
  }

  /** Recency after a lookup pass: staged blocks move to the end, until an unknown block stops it. */
  function Touched(blocks: map<BlockRef, Location>, order: seq<BlockRef>, refs: seq<BlockRef>): (o: seq<BlockRef>)
    decreases |refs|
  {
    if refs == [] || refs[0] !in blocks then order
    else Touched(blocks, if blocks[refs[0]].residency == STAGING then MovedToEnd(order, refs[0]) else order, refs[1..])
  }

  lemma {:induction false} TouchedSameOccupants(
      blocks: map<BlockRef, Location>, order: seq<BlockRef>, refs: seq<BlockRef>)
    requires Distinct(order)
    requires forall r :: r in blocks && blocks[r].residency == STAGING ==> r in order
    ensures Distinct(Touched(blocks, order, refs))
    ensures ToSet(Touched(blocks, order, refs)) == ToSet(order)
    ensures |Touched(blocks, order, refs)| == |order|
    decreases |refs|
  {
    if refs != [] && refs[0] in blocks {
      var next := order;
      if blocks[refs[0]].residency == STAGING {
        next := MovedToEnd(order, refs[0]);
        MovedSameOccupants(order, refs[0]);
      }
      assert forall r :: r in ToSet(order) <==> r in order;
      assert forall r :: r in ToSet(next) <==> r in next;
      TouchedSameOccupants(blocks, next, refs[1..]);
    }
  }

  /** A hit becomes the most recent; all others keep their order. */
  lemma MovedKeepsOrder(order: seq<BlockRef>, r: BlockRef)
    requires Distinct(order) && r in order
    ensures var o := MovedToEnd(order, r);
      && o != [] && o[|o| - 1] == r
      && (forall a, b :: a != r && b != r ==> (Precedes(o, a, b) <==> Precedes(order, a, b)))
      && (forall a :: a in order && a != r ==> Precedes(o, a, r))
  {
    hide Precedes, Distinct;
    var i :| 0 <= i < |order| && order[i] == r;
    FirstAt(order, i);
    WithoutIsDropAt(order, i);
    DropAtDistinct(order, i);
    var rest, o := DropAt(order, i), MovedToEnd(order, r);
    forall a, b | a != r && b != r ensures Precedes(o, a, b) <==> Precedes(order, a, b) {
      PrecedesAfterDrop(order, i, a, b);
      PrecedesBeforeEnd(rest, r, a, b);
    }
    forall a | a in order && a != r ensures Precedes(o, a, r) {
      PrecedesTheEnd(rest, r, a);
    }
  }

  lemma PrecedesBeforeEnd(xs: seq<BlockRef>, r: BlockRef, a: BlockRef, b: BlockRef)
    requires a != r && b != r
    ensures Precedes(xs + [r], a, b) <==> Precedes(xs, a, b)
  {
    if Precedes(xs, a, b) {
      var i, j :| 0 <= i < j < |xs| && xs[i] == a && xs[j] == b;
      assert (xs + [r])[i] == a && (xs + [r])[j] == b;
    }
  }

  lemma PrecedesTheEnd(xs: seq<BlockRef>, r: BlockRef, a: BlockRef)
    requires a in xs
    ensures Precedes(xs + [r], a, r)
  {
    var i :| 0 <= i < |xs| && xs[i] == a;
    assert (xs + [r])[i] == a && (xs + [r])[|xs|] == r;
  }

  lemma MovedSameOccupants(order: seq<BlockRef>, r: BlockRef)
    requires Distinct(order) && r in order
    ensures Distinct(MovedToEnd(order, r)) && ToSet(MovedToEnd(order, r)) == ToSet(order)
    ensures |MovedToEnd(order, r)| == |order|
  {
    WithoutElements(order, r);
    DistinctCardinality(order);
    DistinctCardinality(MovedToEnd(order, r));
  }

  function OnCpuOnly(blocks: map<BlockRef, Location>): (p: BlockRef -> bool) {
    r => r in blocks && blocks[r].residency == CPU
  }

  /** The distinct CPU-resident blocks of a request list, in order. */
  function ToFetch(blocks: map<BlockRef, Location>, refs: seq<BlockRef>): (f: seq<BlockRef>) {
    Filter(OnCpuOnly(blocks), Dedup(refs))
  }

  /** The slots already holding blocks of the list. */
  function Hits(blocks: map<BlockRef, Location>, refs: seq<BlockRef>): (h: map<BlockRef, nat>) {
    map r | r in refs && r in blocks && blocks[r].residency == STAGING && blocks[r].stagingSlot.Some?
      :: blocks[r].stagingSlot.value
  }

  lemma HitsEmpty(blocks: map<BlockRef, Location>)
    ensures Hits(blocks, []) == map[]
  {
  }

  lemma HitsSnoc(blocks: map<BlockRef, Location>, refs: seq<BlockRef>, i: nat)
    requires i < |refs|
    ensures Hits(blocks, refs[..i + 1]) ==
      if refs[i] in blocks && blocks[refs[i]].residency == STAGING && blocks[refs[i]].stagingSlot.Some?
      then Hits(blocks, refs[..i])[refs[i] := blocks[refs[i]].stagingSlot.value] else Hits(blocks, refs[..i])
  {
    assert refs[..i + 1] == refs[..i] + [refs[i]];
  }

  lemma HitsSame(blocks: map<BlockRef, Location>, refs: seq<BlockRef>, refs': seq<BlockRef>)
    requires forall r :: r in refs <==> r in refs'
    ensures Hits(blocks, refs) == Hits(blocks, refs')
  {
  }

  /** order without the first e victims. */
  function DropEach(order: seq<BlockRef>, victims: seq<BlockRef>, e: nat): (o: seq<BlockRef>)
    requires e <= |victims|
  {
    if e == 0 then order else Without(DropEach(order, victims, e - 1), victims[e - 1])
  }

  lemma {:induction false} DropEachFacts(order: seq<BlockRef>, victims: seq<BlockRef>, e: nat)
    requires Distinct(order) && e <= |victims|
    ensures Distinct(DropEach(order, victims, e))
    ensures ToSet(DropEach(order, victims, e)) == ToSet(order) - ToSet(victims[..e])
  {
    if e > 0 {
      hide Distinct;
      DropEachFacts(order, victims, e - 1);
      var before, v := DropEach(order, victims, e - 1), victims[e - 1];
      WithoutElements(before, v);
      assert ToSet(Without(before, v)) == ToSet(before) - {v};
      assert victims[..e] == victims[..e - 1] + [v];
      assert ToSet(victims[..e]) == ToSet(victims[..e - 1]) + {v};
    } else {
      assert ToSet(victims[..0]) == {};
    }
  }

  lemma RankedAfterEviction(key: BlockRef -> Score, cur: seq<BlockRef>)
    requires Distinct(cur) && cur != []
    ensures Ranked(key, cur)[0] == cur[ArgMin(key, cur)]
    ensures Ranked(key, Without(cur, Ranked(key, cur)[0])) == Ranked(key, cur)[1..]
  {
    var m := ArgMin(key, cur);
    FirstAt(cur, m);
    WithoutIsDropAt(cur, m);
  }

  /** Evicting the coldest occupant again and again walks down the ranking of the occupants. */
  lemma {:induction false} EvictionWalksTheRanking(key: BlockRef -> Score, order: seq<BlockRef>, e: nat)
    requires Distinct(order) && e <= |order|
    ensures Ranked(key, DropEach(order, Ranked(key, order), e)) == Ranked(key, order)[e..]
  {
    hide Distinct, Ranked;
    var v := Ranked(key, order);
    if e > 0 {
      EvictionWalksTheRanking(key, order, e - 1);
      var cur := DropEach(order, v, e - 1);
      DropEachFacts(order, v, e - 1);
      assert Ranked(key, cur) == v[e - 1..];
      assert |cur| == |v[e - 1..]|;
      RankedAfterEviction(key, cur);
      assert v[e - 1..][1..] == v[e..];
    }
  }

  lemma FirstAt(s: seq<BlockRef>, m: nat)
    requires Distinct(s) && m < |s|
    ensures s[m] !in s[..m]
  {
  }

  function Min(a: nat, b: nat): (m: nat) { if a < b then a else b }

  /** How a fetch will be served: the blocks that fit, those that do not, how many slots come from
      the free list, and how many of the occupants (ranked coldest first) make room. */
  datatype Plan = Plan(order: seq<BlockRef>, taken: seq<BlockRef>, skipped: seq<BlockRef>,
                       fromFree: nat, ranking: seq<BlockRef>, evict: nat)

  function PlanFor(key: BlockRef -> Score, blocks: map<BlockRef, Location>, p: Pool, refs: seq<BlockRef>)
    : (plan: Plan)
  {
    FetchPlan(key, p.(order := Touched(blocks, p.order, Dedup(refs))), ToFetch(blocks, refs))
  }

  function SlotsOf(slot: map<BlockRef, nat>, refs: seq<BlockRef>): (s: seq<nat>)
    requires forall i :: 0 <= i < |refs| ==> refs[i] in slot
    ensures |s| == |refs|
    ensures forall i :: 0 <= i < |refs| ==> s[i] == slot[refs[i]]
  {
    seq(|refs|, i requires 0 <= i < |refs| => slot[refs[i]])
  }

  function CpuSlotsOf(t: Table, refs: seq<BlockRef>): (s: seq<nat>)
    requires forall i :: 0 <= i < |refs| ==> refs[i] in t.blocks && t.blocks[refs[i]].cpuSlot.Some?
    ensures |s| == |refs|
    ensures forall i :: 0 <= i < |refs| ==> s[i] == t.blocks[refs[i]].cpuSlot.value
  {
    seq(|refs|, i requires 0 <= i < |refs| => t.blocks[refs[i]].cpuSlot.value)
  }

  /** Occupants in recency order, each a STAGING block with a CPU copy and a slot of its own. */
  ghost predicate Occupants(p: Pool, t: Table) {
    && Distinct(p.order) && ToSet(p.order) == p.slot.Keys
    && (forall r :: r in p.slot ==> Resides(t, r, STAGING) && t.blocks[r].cpuSlot.Some?)
    && (forall r :: r in p.slot ==> p.slot[r] !in p.free)
    && (forall r, q :: r in p.slot && q in p.slot && p.slot[r] == p.slot[q] ==> r == q)
  }

  ghost predicate RankingOf(p: Pool, t: Table, v: seq<BlockRef>) {
    && Distinct(v)
    && (forall i :: 0 <= i < |v| ==>
          v[i] in p.slot && Resides(t, v[i], STAGING) && t.blocks[v[i]].cpuSlot.Some?)
  }

  lemma RankingIsOfOccupants(key: BlockRef -> Score, p: Pool, t: Table)
    requires Occupants(p, t)
    ensures RankingOf(p, t, Ranked(key, p.order))
  {
    hide Ranked, InEvictionOrder;
    var v := Ranked(key, p.order);
    RankedInEvictionOrder(key, p.order);
    RankedElements(key, p.order);
    forall i | 0 <= i < |v| ensures v[i] in p.slot {
      assert v[i] in v;
      assert v[i] in ToSet(p.order);
    }
  }

  /** Table, pool and reserved slots once the first e of the ranking have been evicted and ff free
      slots popped. Evicted blocks fall back to the CPU slots they already hold. */
  function EvictedTable(t: Table, v: seq<BlockRef>, e: nat): (t': Table)
    requires e <= |v|
    requires forall i :: 0 <= i < |v| ==> v[i] in t.blocks && t.blocks[v[i]].cpuSlot.Some?
  {
    PutN(t, v, CpuLocations(t, v, CpuSlotsOf(t, v)), e)
  }

  ghost function EvictedPool(p: Pool, v: seq<BlockRef>, ff: nat, e: nat): (p': Pool)
    requires ff <= |p.free| && e <= |v|
  {
    Pool(DropEach(p.order, v, e), p.slot - ToSet(v[..e]), p.free[..|p.free| - ff])
  }

  function ReservedSlots(p: Pool, v: seq<BlockRef>, ff: nat, e: nat): (s: seq<nat>)
    requires ff <= |p.free| && e <= |v|
    requires forall i :: 0 <= i < |v| ==> v[i] in p.slot
    ensures |s| == ff + e
  {
    Popped(p.free, ff) + SlotsOf(p.slot, v)[..e]
  }

  /** No occupant that is left holds a slot reserved in this batch, so all of them are candidates. */
  lemma RemainingAreCandidates(p: Pool, t: Table, v: seq<BlockRef>, ff: nat, e: nat)
    requires Occupants(p, t) && RankingOf(p, t, v) && ff <= |p.free| && e <= |v|
    ensures var p', t' := EvictedPool(p, v, ff, e), EvictedTable(t, v, e);
      Filter(Evictable(t'.blocks, p'.slot, ToSet(ReservedSlots(p, v, ff, e))), p'.order) == p'.order
  {
    var p', t', reserved := EvictedPool(p, v, ff, e), EvictedTable(t, v, e), ReservedSlots(p, v, ff, e);
    var keep := Evictable(t'.blocks, p'.slot, ToSet(reserved));
    DropEachFacts(p.order, v, e);
    forall r | r in p'.order ensures keep(r) {
      StillEvictable(p, t, v, ff, e, r);
    }
    FilterAll(keep, p'.order);
  }

  lemma StillEvictable(p: Pool, t: Table, v: seq<BlockRef>, ff: nat, e: nat, r: BlockRef)
    requires Occupants(p, t) && RankingOf(p, t, v) && ff <= |p.free| && e <= |v|
    requires r in DropEach(p.order, v, e)
    ensures Evictable(EvictedTable(t, v, e).blocks, EvictedPool(p, v, ff, e).slot, ToSet(ReservedSlots(p, v, ff, e)))(r)
  {
    hide Distinct, DropEach;
    DropEachFacts(p.order, v, e);
    assert r in ToSet(DropEach(p.order, v, e));
    assert r in ToSet(p.order) && r !in ToSet(v[..e]);
    PutNKeeps(t, v, CpuLocations(t, v, CpuSlotsOf(t, v)), e, r);
    var reserved := ReservedSlots(p, v, ff, e);
    forall k | 0 <= k < |reserved| ensures reserved[k] != p.slot[r] {
      if k < ff {
        assert reserved[k] in p.free;
      } else {
        assert v[k - ff] in v[..e];
      }
    }
  }

  /** The next victim is the next in the ranking. */
  lemma NextVictim(key: BlockRef -> Score, p: Pool, t: Table, ff: nat, e: nat)
    requires Occupants(p, t) && ff <= |p.free| && e < |p.order|
    ensures var v := Ranked(key, p.order);
      var q := EvictedPool(p, v, ff, e);
      && q.order != [] && q.order[ArgMin(key, q.order)] == v[e]
      && v[e] in p.slot && v[e] in q.slot && q.slot[v[e]] == p.slot[v[e]]
      && EvictedPool(p, v, ff, e + 1) == Pool(Without(q.order, v[e]), q.slot - {v[e]}, q.free)
  {
    hide Distinct, Ranked, DropEach;
    var v := Ranked(key, p.order);
    DropEachFacts(p.order, v, e);
    EvictionWalksTheRanking(key, p.order, e);
    var cur := DropEach(p.order, v, e);
    assert |Ranked(key, cur)| == |v[e..]|;
    RankedAfterEviction(key, cur);
    assert cur[ArgMin(key, cur)] in ToSet(cur);
    assert v[..e + 1] == v[..e] + [v[e]];
    assert ToSet(v[..e + 1]) == ToSet(v[..e]) + {v[e]};
    DropEachStep(p.order, v, e);
  }

  lemma ReservedSlotsStep(p: Pool, v: seq<BlockRef>, ff: nat, e: nat)
    requires ff <= |p.free| && e < |v| && forall i :: 0 <= i < |v| ==> v[i] in p.slot
    ensures ReservedSlots(p, v, ff, e + 1) == ReservedSlots(p, v, ff, e) + [p.slot[v[e]]]
  {
    assert SlotsOf(p.slot, v)[..e + 1] == SlotsOf(p.slot, v)[..e] + [p.slot[v[e]]];
  }

  lemma DropEachStep(order: seq<BlockRef>, v: seq<BlockRef>, e: nat)
    requires e < |v|
    ensures DropEach(order, v, e + 1) == Without(DropEach(order, v, e), v[e])
  {
  }

  lemma EvictStep(t: Table, p: Pool, v: seq<BlockRef>, e: nat)
    requires RankingOf(p, t, v) && e < |v|
    ensures v[e] in EvictedTable(t, v, e).blocks
    ensures EvictedTable(t, v, e).blocks[v[e]] == t.blocks[v[e]]
    ensures EvictedTable(t, v, e + 1) == MarkedCpu(EvictedTable(t, v, e), v[e], t.blocks[v[e]].cpuSlot.value)
  {
    hide Distinct;
    DistinctLast(v, e + 1);
    PutNKeeps(t, v, CpuLocations(t, v, CpuSlotsOf(t, v)), e, v[e]);
  }

  lemma ReserveStart(p: Pool, t: Table, v: seq<BlockRef>)
    requires RankingOf(p, t, v)
    ensures EvictedPool(p, v, 0, 0) == p && EvictedTable(t, v, 0) == t && ReservedSlots(p, v, 0, 0) == []
  {
    assert ToSet(v[..0]) == {};
    assert p.slot - {} == p.slot;
  }

  /** j blocks of a batch have been given slots. */
  ghost predicate Reserved(key: BlockRef -> Score, p: Pool, t: Table, j: nat, p': Pool, t': Table, slots: seq<nat>) {
    var ff, v := Min(j, |p.free|), Ranked(key, p.order);
    && j <= |p.free| + |p.order| && RankingOf(p, t, v)
    && p' == EvictedPool(p, v, ff, j - ff) && t' == EvictedTable(t, v, j - ff)
    && slots == ReservedSlots(p, v, ff, j - ff)
  }

  lemma NoneReserved(key: BlockRef -> Score, p: Pool, t: Table)
    requires Occupants(p, t)
    ensures Reserved(key, p, t, 0, p, t, [])
  {
    hide Ranked;
    RankingIsOfOccupants(key, p, t);
    ReserveStart(p, t, Ranked(key, p.order));
  }

  /** What the allocator sees midway through a batch: a free slot, or all remaining occupants. */
  lemma ReserveCandidates(key: BlockRef -> Score, p: Pool, t: Table, ff: nat, e: nat)
    requires Occupants(p, t) && ff <= |p.free| && e <= |p.order|
    ensures var v := Ranked(key, p.order);
      && RankingOf(p, t, v)
      && var p', t' := EvictedPool(p, v, ff, e), EvictedTable(t, v, e);
      && (forall r :: r in p'.order ==> r in p'.slot)
      && Filter(Evictable(t'.blocks, p'.slot, ToSet(ReservedSlots(p, v, ff, e))), p'.order) == p'.order
      && (p'.order == [] <==> e == |p.order|)
  {
    hide Distinct, Ranked, DropEach, Filter;
    var v := Ranked(key, p.order);
    RankingIsOfOccupants(key, p, t);
    RemainingAreCandidates(p, t, v, ff, e);
    DropEachFacts(p.order, v, e);
    EvictionWalksTheRanking(key, p.order, e);
    var cur := DropEach(p.order, v, e);
    assert |Ranked(key, cur)| == |v[e..]|;
    forall r | r in cur ensures r in p.slot && r !in ToSet(v[..e]) {
      assert r in ToSet(cur);
    }
  }

  /** One more reservation from the free list. */
  lemma ReserveFree(key: BlockRef -> Score, p: Pool, t: Table, j: nat, p': Pool, t': Table, slots: seq<nat>)
    requires Reserved(key, p, t, j, p', t', slots) && p'.free != []
    ensures j < |p.free| + |p.order|
    ensures Reserved(key, p, t, j + 1, p'.(free := p'.free[..|p'.free| - 1]), t', slots + [p'.free[|p'.free| - 1]])
  {
    hide Distinct, Ranked, DropEach, Filter;
    var v := Ranked(key, p.order);
    assert Popped(p.free, j + 1) == Popped(p.free, j) + [p.free[|p.free| - 1 - j]];
    assert SlotsOf(p.slot, v)[..0] == [];
  }

  /** One more reservation by evicting the coldest occupant left. */
  lemma ReserveByEviction(key: BlockRef -> Score, p: Pool, t: Table, j: nat, p': Pool, t': Table, slots: seq<nat>)
    requires Occupants(p, t) && Reserved(key, p, t, j, p', t', slots) && p'.free == [] && p'.order != []
    ensures j < |p.free| + |p.order|
    ensures var w := p'.order[ArgMin(key, p'.order)];
      && w in p'.slot && w in t'.blocks && t'.blocks[w].cpuSlot.Some?
      && Reserved(key, p, t, j + 1, Pool(Without(p'.order, w), p'.slot - {w}, []),
                  MarkedCpu(t', w, t'.blocks[w].cpuSlot.value), slots + [p'.slot[w]])
  {
    hide Distinct, Ranked, Filter, EvictedPool, EvictedTable, ReservedSlots;
    var v, f := Ranked(key, p.order), |p.free|;
    AllFreeUsed(key, p, t, j, p', t', slots);
    var e := j - f;
    NextVictim(key, p, t, f, e);
    EvictStep(t, p, v, e);
    ReservedSlotsStep(p, v, f, e);
  }

  lemma AllFreeUsed(key: BlockRef -> Score, p: Pool, t: Table, j: nat, p': Pool, t': Table, slots: seq<nat>)
    requires Occupants(p, t) && Reserved(key, p, t, j, p', t', slots) && p'.free == [] && p'.order != []
    ensures |p.free| <= j < |p.free| + |p.order| && Min(j, |p.free|) == |p.free| == Min(j + 1, |p.free|)
  {
    hide Ranked, DropEach, Filter, Occupants, EvictedTable, ReservedSlots, RankingOf;
    var ff := Min(j, |p.free|);
    ReserveCandidates(key, p, t, ff, j - ff);
  }

  lemma ReservedCandidates(key: BlockRef -> Score, p: Pool, t: Table, j: nat, p': Pool, t': Table, slots: seq<nat>)
    requires Occupants(p, t) && Reserved(key, p, t, j, p', t', slots)
    ensures forall r :: r in p'.order ==> r in p'.slot
    ensures Filter(Evictable(t'.blocks, p'.slot, ToSet(slots)), p'.order) == p'.order
    ensures p'.free == [] && p'.order == [] ==> j == |p.free| + |p.order|
  {
    hide Ranked, DropEach, Filter, Occupants, EvictedTable, ReservedSlots, RankingOf, Evictable;
    var ff := Min(j, |p.free|);
    ReserveCandidates(key, p, t, ff, j - ff);
  }

  function OccupiedBy(slot: map<BlockRef, nat>, refs: seq<BlockRef>, slots: seq<nat>, n: nat): (m: map<BlockRef, nat>)
    requires n <= |refs| == |slots|
  {
    if n == 0 then slot else OccupiedBy(slot, refs, slots, n - 1)[refs[n - 1] := slots[n - 1]]
  }

  lemma {:induction false} OccupiedKeeps(
      slot: map<BlockRef, nat>, refs: seq<BlockRef>, slots: seq<nat>, n: nat, r: BlockRef)
    requires n <= |refs| == |slots| && r !in refs[..n]
    ensures r in OccupiedBy(slot, refs, slots, n) <==> r in slot
    ensures r in slot ==> OccupiedBy(slot, refs, slots, n)[r] == slot[r]
  {
    if n > 0 {
      assert refs[..n] == refs[..n - 1] + [refs[n - 1]];
      OccupiedKeeps(slot, refs, slots, n - 1, r);
    }
  }

  lemma {:induction false} OccupiedWrites(
      slot: map<BlockRef, nat>, refs: seq<BlockRef>, slots: seq<nat>, n: nat, i: nat)
    requires i < n <= |refs| == |slots| && Distinct(refs)
    ensures refs[i] in OccupiedBy(slot, refs, slots, n) && OccupiedBy(slot, refs, slots, n)[refs[i]] == slots[i]
  {
    if i < n - 1 {
      OccupiedWrites(slot, refs, slots, n - 1, i);
      assert refs[i] != refs[n - 1];
    }
  }

  lemma OccupiedByFacts(slot: map<BlockRef, nat>, refs: seq<BlockRef>, slots: seq<nat>, n: nat)
    requires n <= |refs| == |slots| && Distinct(refs)
    ensures var m := OccupiedBy(slot, refs, slots, n);
      && m.Keys == slot.Keys + ToSet(refs[..n])
      && (forall i :: 0 <= i < n ==> m[refs[i]] == slots[i])
      && (forall r :: r in slot && r !in refs[..n] ==> m[r] == slot[r])
  {
    hide OccupiedBy, Distinct;
    var m := OccupiedBy(slot, refs, slots, n);
    forall i | 0 <= i < n ensures refs[i] in m && m[refs[i]] == slots[i] {
      OccupiedWrites(slot, refs, slots, n, i);
    }
    forall r | r !in refs[..n] ensures (r in m <==> r in slot) && (r in slot ==> m[r] == slot[r]) {
      OccupiedKeeps(slot, refs, slots, n, r);
    }
    forall r ensures r in m.Keys <==> r in slot.Keys + ToSet(refs[..n]) {
      if r in refs[..n] {
        var i :| 0 <= i < n && refs[..n][i] == r;
        assert refs[i] == r;
      }
    }
  }

  lemma OccupiedStart(slot: map<BlockRef, nat>, refs: seq<BlockRef>, slots: seq<nat>)
    requires |refs| == |slots|
    ensures OccupiedBy(slot, refs, slots, 0) == slot
  {
  }

  lemma OccupiedStep(slot: map<BlockRef, nat>, refs: seq<BlockRef>, slots: seq<nat>, n: nat)
    requires n < |refs| == |slots|
    ensures OccupiedBy(slot, refs, slots, n + 1) == OccupiedBy(slot, refs, slots, n)[refs[n] := slots[n]]
  {
  }

  /** The plan fits the pool and the table it was made for. */
  ghost predicate PlanFits(p: Pool, t: Table, plan: Plan) {
    && plan.fromFree <= |p.free| && plan.evict <= |plan.ranking|
    && |plan.taken| == plan.fromFree + plan.evict
    && RankingOf(p, t, plan.ranking)
    && Distinct(plan.taken)
    && (forall i :: 0 <= i < |plan.taken| ==>
          Resides(t, plan.taken[i], CPU) && t.blocks[plan.taken[i]].cpuSlot.Some?)
  }

  lemma PlanFitsBounds(p: Pool, t: Table, plan: Plan)
    requires PlanFits(p, t, plan)
    ensures plan.fromFree <= |p.free| && plan.evict <= |plan.ranking|
  {
  }

  ghost function PlannedSlots(p: Pool, t: Table, plan: Plan): (s: seq<nat>)
    requires PlanFits(p, t, plan)
    ensures |s| == |plan.taken|
  {
    ReservedSlots(p, plan.ranking, plan.fromFree, plan.evict)
  }

  /** Pool and table after a fetch whose copies succeeded. */
  ghost function FetchedPool(p: Pool, t: Table, plan: Plan): (p': Pool)
    requires PlanFits(p, t, plan)
  {
    var q := EvictedPool(p.(order := plan.order), plan.ranking, plan.fromFree, plan.evict);
    Pool(q.order + plan.taken,
         OccupiedBy(q.slot, plan.taken, PlannedSlots(p, t, plan), |plan.taken|), q.free)
  }

  ghost function FetchedTable(p: Pool, t: Table, plan: Plan): (t': Table)
    requires PlanFits(p, t, plan)
  {
    PutN(EvictedTable(t, plan.ranking, plan.evict), plan.taken,
         StagingLocations(t, plan.taken, PlannedSlots(p, t, plan)), |plan.taken|)
  }

  /** Pool after a fetch whose copies failed: evictions stand, every reserved slot is free again. */
  ghost function FailedPool(p: Pool, t: Table, plan: Plan): (p': Pool)
    requires PlanFits(p, t, plan)
  {
    var q := EvictedPool(p.(order := plan.order), plan.ranking, plan.fromFree, plan.evict);
    q.(free := q.free + PlannedSlots(p, t, plan))
  }

  function StagingPages(base: nat, slots: seq<nat>): (pages: seq<nat>)
    ensures |pages| == |slots|
    ensures forall i :: 0 <= i < |slots| ==> pages[i] == base + slots[i]
  {
    seq(|slots|, i requires 0 <= i < |slots| => base + slots[i])
  }

  lemma ToFetchFacts(blocks: map<BlockRef, Location>, refs: seq<BlockRef>)
    ensures Distinct(ToFetch(blocks, refs))
    ensures forall r :: r in ToFetch(blocks, refs) <==> r in refs && r in blocks && blocks[r].residency == CPU
  {
    DedupElements(refs);
    FilterElements(OnCpuOnly(blocks), Dedup(refs));
  }

  ghost predicate OnlyPages(before: seq<Page>, after: seq<Page>, pages: seq<nat>) {
    && |after| == |before|
    && (forall i :: 0 <= i < |before| && i !in pages ==> after[i] == before[i])
  }

  ghost predicate CanFetch(gpu: seq<Page>, cpu: seq<Slab>, base: nat, t: Table, taken: seq<BlockRef>, slots: seq<nat>) {
    && |taken| == |slots|
    && (forall i :: 0 <= i < |taken| ==>
          && taken[i] in t.blocks && t.blocks[taken[i]].cpuSlot.Some?
          && t.blocks[taken[i]].cpuSlot.value < |cpu|
          && base + slots[i] < |gpu|)
  }

  /** The staging pages now hold the unpacked CPU copies. */
  function FetchedPages(d: Dims, gpu: seq<Page>, cpu: seq<Slab>, base: nat, t: Table,
                        taken: seq<BlockRef>, slots: seq<nat>) : (gpu': seq<Page>)
    requires CanFetch(gpu, cpu, base, t, taken, slots)
  {
    Scatter(gpu, StagingPages(base, slots), UnpackEach(d, cpu, CpuSlotsOf(t, taken)), |slots|)
  }

  function WithSlots(slot: map<BlockRef, nat>, refs: seq<BlockRef>, slots: seq<nat>): (m: map<BlockRef, nat>)
    requires |refs| == |slots|
  {
    OccupiedBy(slot, refs, slots, |refs|)
  }

  /** The copies landed: taken blocks are staged at their slots, whose pages hold the CPU copies. */
  ghost predicate Served(d: Dims, base: nat, p: Pool, t: Table, plan: Plan, gpu: seq<Page>, cpu: seq<Slab>,
                         p': Pool, t': Table, gpu': seq<Page>) {
    && PlanFits(p, t, plan)
    && p' == FetchedPool(p, t, plan) && t' == FetchedTable(p, t, plan)
    && CanFetch(gpu, cpu, base, t, plan.taken, PlannedSlots(p, t, plan))
    && gpu' == FetchedPages(d, gpu, cpu, base, t, plan.taken, PlannedSlots(p, t, plan))
  }

  /** The copies failed: evictions stand, all reserved slots are free, only their pages may differ. */
  ghost predicate RolledBack(base: nat, p: Pool, t: Table, plan: Plan, gpu: seq<Page>,
                             p': Pool, t': Table, gpu': seq<Page>) {
    && PlanFits(p, t, plan)
    && p' == FailedPool(p, t, plan) && t' == EvictedTable(t, plan.ranking, plan.evict)
    && OnlyPages(gpu, gpu', StagingPages(base, PlannedSlots(p, t, plan)))
  }

  /** Everything ensure_resident can do, case by case. */
  ghost predicate EnsurePost(
      key: BlockRef -> Score, d: Dims, base: nat, p: Pool, t: Table, gpu: seq<Page>, cpu: seq<Slab>,
      refs: seq<BlockRef>, copied: bool,
      res: Result<(map<BlockRef, nat>, seq<BlockRef>)>, p': Pool, t': Table, gpu': seq<Page>)
  {
    var plan := PlanFor(key, t.blocks, p, refs);
    var known := forall r :: r in refs ==> r in t.blocks;
    if !known || ToFetch(t.blocks, refs) == [] then
      && res == (if known then Ok((Hits(t.blocks, refs), [])) else Err(KeyError))
      && p' == p.(order := plan.order) && t' == t && gpu' == gpu
    else if !copied then
      res == Err(CopyError) && RolledBack(base, p, t, plan, gpu, p', t', gpu')
    else
      && Served(d, base, p, t, plan, gpu, cpu, p', t', gpu')
      && res == Ok((WithSlots(Hits(t.blocks, refs), plan.taken, PlannedSlots(p, t, plan)), plan.skipped))
  }

  lemma EnsureLooksUp(key: BlockRef -> Score, d: Dims, base: nat, p: Pool, t: Table, gpu: seq<Page>, cpu: seq<Slab>,
                      refs: seq<BlockRef>, copied: bool)
    ensures var p1 := p.(order := Touched(t.blocks, p.order, Dedup(refs)));
      var known := forall r :: r in refs ==> r in t.blocks;
      && (!known ==> EnsurePost(key, d, base, p, t, gpu, cpu, refs, copied, Err(KeyError), p1, t, gpu))
      && (known && ToFetch(t.blocks, refs) == [] ==>
            EnsurePost(key, d, base, p, t, gpu, cpu, refs, copied, Ok((Hits(t.blocks, refs), [])), p1, t, gpu))
  {
    hide Touched, Dedup, ToFetch, Hits, Served, RolledBack, Ranked, PlanFits;
  }

  /** A plan depends on the pool only through its slots and free list. */
  lemma PlanIgnoresRecency(p: Pool, o: seq<BlockRef>, t: Table, plan: Plan)
    requires PlanFits(p.(order := o), t, plan)
    ensures PlanFits(p, t, plan)
    ensures PlannedSlots(p, t, plan) == PlannedSlots(p.(order := o), t, plan)
    ensures FetchedPool(p, t, plan) == FetchedPool(p.(order := o), t, plan)
    ensures FailedPool(p, t, plan) == FailedPool(p.(order := o), t, plan)
    ensures FetchedTable(p, t, plan) == FetchedTable(p.(order := o), t, plan)
  {
    hide PutN, OccupiedBy, DropEach, Distinct;
  }

  lemma EnsureFetches(key: BlockRef -> Score, d: Dims, base: nat, p: Pool, t: Table, gpu: seq<Page>, cpu: seq<Slab>,
                      refs: seq<BlockRef>, copied: bool, p': Pool, t': Table, gpu': seq<Page>)
    requires (forall r :: r in refs ==> r in t.blocks) && ToFetch(t.blocks, refs) != []
    requires var p1 := p.(order := Touched(t.blocks, p.order, Dedup(refs)));
      var plan := FetchPlan(key, p1, ToFetch(t.blocks, refs));
      if copied then Served(d, base, p1, t, plan, gpu, cpu, p', t', gpu')
      else RolledBack(base, p1, t, plan, gpu, p', t', gpu')
    ensures var p1 := p.(order := Touched(t.blocks, p.order, Dedup(refs)));
      var plan := FetchPlan(key, p1, ToFetch(t.blocks, refs));
      && PlanFits(p1, t, plan)
      && EnsurePost(key, d, base, p, t, gpu, cpu, refs, copied,
            if copied then Ok((WithSlots(Hits(t.blocks, refs), plan.taken, PlannedSlots(p1, t, plan)), plan.skipped))
            else Err(CopyError), p', t', gpu')
  {
    hide Touched, Dedup, ToFetch, Hits, Ranked, CanFetch, FetchedPages, OnlyPages, EvictedTable, PlanFits, FetchedPool,
         FailedPool, FetchedTable, PlannedSlots, OccupiedBy;
    var o := Touched(t.blocks, p.order, Dedup(refs));
    PlanIgnoresRecency(p, o, t, FetchPlan(key, p.(order := o), ToFetch(t.blocks, refs)));
  }

  /** The plan for a list of CPU-resident blocks, once the lookup pass has run. */
  function FetchPlan(key: BlockRef -> Score, p: Pool, fetch: seq<BlockRef>): (plan: Plan) {
    var m := Min(|fetch|, |p.free| + |p.order|);
    var fromFree := Min(m, |p.free|);
    Plan(p.order, fetch[..m], fetch[m..], fromFree, Ranked(key, p.order), m - fromFree)
  }

  ghost predicate Fetchable(p: Pool, t: Table, fetch: seq<BlockRef>, numSlots: nat, cpuSlots: nat) {
    && Occupants(p, t) && Distinct(fetch)
    && SlotsWithin(p.free, numSlots)
    && (forall r :: r in p.slot ==> p.slot[r] < numSlots)
    && (forall i :: 0 <= i < |fetch| ==>
          && Resides(t, fetch[i], CPU) && t.blocks[fetch[i]].cpuSlot.Some?
          && t.blocks[fetch[i]].cpuSlot.value < cpuSlots)
  }

  lemma FetchableFacts(p: Pool, t: Table, fetch: seq<BlockRef>, numSlots: nat, cpuSlots: nat)
    requires Fetchable(p, t, fetch, numSlots, cpuSlots)
    ensures Occupants(p, t)
    ensures forall i :: 0 <= i < |fetch| ==>
          && fetch[i] in t.blocks && t.blocks[fetch[i]].cpuSlot.Some?
          && t.blocks[fetch[i]].cpuSlot.value < cpuSlots
  {
  }

  /** What the reservation phase guarantees to the copy and publish phases. */
  lemma ReservedFits(key: BlockRef -> Score, p: Pool, t: Table, fetch: seq<BlockRef>, numSlots: nat, cpuSlots: nat,
                     p1: Pool, t1: Table, slots: seq<nat>)
    requires Fetchable(p, t, fetch, numSlots, cpuSlots)
    requires Reserved(key, p, t, Min(|fetch|, |p.free| + |p.order|), p1, t1, slots)
    ensures var plan := FetchPlan(key, p, fetch);
      && PlanFits(p, t, plan) && slots == PlannedSlots(p, t, plan)
      && p1 == EvictedPool(p, plan.ranking, plan.fromFree, plan.evict)
      && t1 == EvictedTable(t, plan.ranking, plan.evict)
      && Distinct(plan.taken) && |slots| == |plan.taken|
      && (forall i :: 0 <= i < |slots| ==> slots[i] < numSlots)
      && (forall i :: 0 <= i < |plan.taken| ==>
            && plan.taken[i] in t.blocks && plan.taken[i] in t1.blocks
            && t1.blocks[plan.taken[i]] == t.blocks[plan.taken[i]]
            && t.blocks[plan.taken[i]].cpuSlot.Some? && plan.taken[i] !in p1.slot)
  {
    hide Ranked, DropEach, Distinct, RankingOf, EvictedTable, EvictedPool;
    var plan := FetchPlan(key, p, fetch);
    TakenIsDistinct(fetch, |plan.taken|);
    forall i | 0 <= i < |slots| ensures slots[i] < numSlots {
      ReservedSlotWithin(key, p, t, fetch, numSlots, cpuSlots, i);
    }
    forall i | 0 <= i < |plan.taken|
      ensures plan.taken[i] in t1.blocks && t1.blocks[plan.taken[i]] == t.blocks[plan.taken[i]]
      ensures plan.taken[i] !in p1.slot
    {
      CpuBlockNotEvicted(p, t, plan.ranking, plan.fromFree, plan.evict, plan.taken[i]);
    }
  }

  lemma TakenIsDistinct(fetch: seq<BlockRef>, m: nat)
    requires Distinct(fetch) && m <= |fetch|
    ensures Distinct(fetch[..m])
  {
  }

  lemma ReservedSlotWithin(key: BlockRef -> Score, p: Pool, t: Table, fetch: seq<BlockRef>, numSlots: nat,
                           cpuSlots: nat, i: nat)
    requires Fetchable(p, t, fetch, numSlots, cpuSlots)
    requires var plan := FetchPlan(key, p, fetch);
      RankingOf(p, t, plan.ranking) && i < |ReservedSlots(p, plan.ranking, plan.fromFree, plan.evict)|
    ensures var plan := FetchPlan(key, p, fetch);
      ReservedSlots(p, plan.ranking, plan.fromFree, plan.evict)[i] < numSlots
  {
    hide Ranked, Distinct, Occupants;
    var plan := FetchPlan(key, p, fetch);
    if i < plan.fromFree {
      assert Popped(p.free, plan.fromFree)[i] in p.free;
    }
  }

  lemma CpuBlockNotEvicted(p: Pool, t: Table, v: seq<BlockRef>, ff: nat, e: nat, r: BlockRef)
    requires Occupants(p, t) && RankingOf(p, t, v) && ff <= |p.free| && e <= |v| && Resides(t, r, CPU)
    ensures r in EvictedTable(t, v, e).blocks && EvictedTable(t, v, e).blocks[r] == t.blocks[r]
    ensures r !in EvictedPool(p, v, ff, e).slot
  {
    hide Distinct;
    assert r !in v[..e];
    PutNKeeps(t, v, CpuLocations(t, v, CpuSlotsOf(t, v)), e, r);
  }

  lemma ReservedRollsBack(key: BlockRef -> Score, p: Pool, t: Table, fetch: seq<BlockRef>, numSlots: nat, cpuSlots: nat,
                          p1: Pool, t1: Table, slots: seq<nat>, base: nat, gpu: seq<Page>, gpu': seq<Page>)
    requires Fetchable(p, t, fetch, numSlots, cpuSlots)
    requires Reserved(key, p, t, Min(|fetch|, |p.free| + |p.order|), p1, t1, slots)
    requires OnlyPages(gpu, gpu', StagingPages(base, slots))
    ensures RolledBack(base, p, t, FetchPlan(key, p, fetch), gpu, p1.(free := p1.free + slots), t1, gpu')
  {
    hide Ranked, DropEach, Distinct, RankingOf, EvictedTable, Occupants, OnlyPages;
    ReservedFits(key, p, t, fetch, numSlots, cpuSlots, p1, t1, slots);
  }

  lemma ReservedIsServed(key: BlockRef -> Score, p: Pool, t: Table, fetch: seq<BlockRef>, numSlots: nat, cpuSlots: nat,
                         p1: Pool, t1: Table, slots: seq<nat>,
                         d: Dims, base: nat, gpu: seq<Page>, cpu: seq<Slab>, from: seq<nat>, gpu': seq<Page>)
    requires Fetchable(p, t, fetch, numSlots, cpuSlots)
    requires Reserved(key, p, t, Min(|fetch|, |p.free| + |p.order|), p1, t1, slots)
    requires |cpu| == cpuSlots && base + numSlots <= |gpu|
    requires var taken := FetchPlan(key, p, fetch).taken;
      && |from| == |taken| == |slots|
      && (forall i :: 0 <= i < |taken| ==> from[i] < cpuSlots && base + slots[i] < |gpu|)
      && (forall i :: 0 <= i < |taken| ==> taken[i] in t.blocks && t.blocks[taken[i]].cpuSlot == Some(from[i]))
      && gpu' == Scatter(gpu, StagingPages(base, slots), UnpackEach(d, cpu, from), |slots|)
    ensures var plan := FetchPlan(key, p, fetch);
      && AllTracked(t, plan.taken) && |slots| == |plan.taken|
      && Served(d, base, p, t, plan, gpu, cpu,
            Pool(p1.order + plan.taken, OccupiedBy(p1.slot, plan.taken, slots, |plan.taken|), p1.free),
            PutN(t1, plan.taken, StagingLocations(t, plan.taken, slots), |plan.taken|), gpu')
  {
    hide Ranked, DropEach, Distinct, RankingOf, EvictedTable, Occupants, Scatter, PutN, OccupiedBy, UnpackEach;
    ReservedFits(key, p, t, fetch, numSlots, cpuSlots, p1, t1, slots);
    var plan := FetchPlan(key, p, fetch);
    assert from == CpuSlotsOf(t, plan.taken);
  }

  lemma SettledIsFetchable(p: Pool, t: Table, refs: seq<BlockRef>, numSlots: nat, cpuSlots: nat)
    requires Settled(p, t, numSlots) && CopiesWithin(t, cpuSlots)
    requires forall r :: r in t.blocks ==> LocationOk(t.blocks[r])
    ensures var p1 := p.(order := Touched(t.blocks, p.order, Dedup(refs)));
      Fetchable(p1, t, ToFetch(t.blocks, refs), numSlots, cpuSlots)
  {
    hide Touched, Dedup, ToFetch;
    forall r | r in t.blocks && t.blocks[r].residency == STAGING ensures r in p.order {
      assert r in p.slot;
      assert r in ToSet(p.order);
    }
    TouchedSameOccupants(t.blocks, p.order, Dedup(refs));
    ToFetchFacts(t.blocks, refs);
    var fetch := ToFetch(t.blocks, refs);
    forall i | 0 <= i < |fetch| ensures Resides(t, fetch[i], CPU) {
      assert fetch[i] in fetch;
    }
  }

  /** Every block backed by a CPU copy names a slot of the CPU cache. */
  ghost predicate CopiesWithin(t: Table, numSlots: nat) {
    forall r :: r in t.blocks && t.blocks[r].cpuSlot.Some? ==> t.blocks[r].cpuSlot.value < numSlots
  }

  /** The staging state of the engine between calls. */
  ghost predicate Settled(p: Pool, t: Table, numSlots: nat) {
    Partition(p, numSlots) && Mirrors(p, t)
  }

  function Evictable(blocks: map<BlockRef, Location>, slot: map<BlockRef, nat>, exclude: set<nat>)
    : (p: BlockRef -> bool)
  {
    r => r in slot && slot[r] !in exclude && r in blocks && blocks[r].residency == STAGING
  }

  function ReleasedPool(p: Pool, r: BlockRef): (p': Pool) {
    if r in p.slot then Pool(Without(p.order, r), p.slot - {r}, p.free + [p.slot[r]]) else p
  }

  function ReleasedTable(p: Pool, t: Table, r: BlockRef): (t': Table) {
    if r in p.slot && r in t.blocks
       && t.blocks[r].residency == STAGING && t.blocks[r].stagingSlot == Some(p.slot[r]) && t.blocks[r].cpuSlot.Some?
    then MarkedCpu(t, r, t.blocks[r].cpuSlot.value) else t
  }
}
