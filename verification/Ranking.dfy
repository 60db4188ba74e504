/** Eviction order: a stable ascending sort by score, and the first minimum it repeats. */
module Ranking {
  import opened Blocks

  /** A float32 score; unscored blocks are at minus infinity. */
  datatype Score = NegInf | Fin(value: real)

  predicate Less(a: Score, b: Score) {
    match (a, b)
    case (NegInf, Fin(_)) => true
    case (Fin(x), Fin(y)) => x < y
    case (_, NegInf) => false
  }

  /** Index of the first minimum (torch.argmin). */
  function ArgMin(key: BlockRef -> Score, xs: seq<BlockRef>): (m: nat)
    requires xs != []
    ensures m < |xs|
    ensures forall j :: 0 <= j < |xs| ==> !Less(key(xs[j]), key(xs[m]))
    ensures forall j :: 0 <= j < m ==> Less(key(xs[m]), key(xs[j]))
  {
    if |xs| == 1 then 0
    else
      var m := ArgMin(key, xs[..|xs| - 1]);
      if Less(key(xs[|xs| - 1]), key(xs[m])) then |xs| - 1 else m
  }

  /** The list in eviction order, coldest first (a stable argsort applied to the list). */
  function Ranked(key: BlockRef -> Score, xs: seq<BlockRef>): (r: seq<BlockRef>)
    ensures |r| == |xs|
    ensures multiset(r) == multiset(xs)
    decreases |xs|
  {
    if xs == [] then []
    else
      var m := ArgMin(key, xs);
      [xs[m]] + Ranked(key, DropAt(xs, m))
  }

  ghost predicate Precedes(xs: seq<BlockRef>, a: BlockRef, b: BlockRef) {
    exists i, j :: 0 <= i < j < |xs| && xs[i] == a && xs[j] == b
  }

  /** Evicted before: strictly lower score, or the same score and earlier in the list. */
  ghost predicate Colder(key: BlockRef -> Score, xs: seq<BlockRef>, a: BlockRef, b: BlockRef) {
    Less(key(a), key(b)) || (key(a) == key(b) && Precedes(xs, a, b))
  }

  ghost predicate InEvictionOrder(key: BlockRef -> Score, xs: seq<BlockRef>, ys: seq<BlockRef>) {
    forall i, j :: 0 <= i < j < |ys| ==> Colder(key, xs, ys[i], ys[j])
  }

  lemma RankedElements(key: BlockRef -> Score, xs: seq<BlockRef>)
    ensures forall x :: x in Ranked(key, xs) <==> x in xs
  {
    forall x ensures x in Ranked(key, xs) <==> x in xs {
      assert x in Ranked(key, xs) <==> x in multiset(Ranked(key, xs));
      assert x in xs <==> x in multiset(xs);
    }
  }

  lemma PrecedesAfterDrop(xs: seq<BlockRef>, m: nat, a: BlockRef, b: BlockRef)
    requires m < |xs| && a != xs[m] && b != xs[m]
    ensures Precedes(DropAt(xs, m), a, b) <==> Precedes(xs, a, b)
  {
    var rest := xs[..m] + xs[m + 1..];
    if Precedes(rest, a, b) {
      var i, j :| 0 <= i < j < |rest| && rest[i] == a && rest[j] == b;
      assert xs[if i < m then i else i + 1] == a && xs[if j < m then j else j + 1] == b;
    }
    if Precedes(xs, a, b) {
      var i, j :| 0 <= i < j < |xs| && xs[i] == a && xs[j] == b;
      assert rest[if i < m then i else i - 1] == a && rest[if j < m then j else j - 1] == b;
    }
  }

  lemma FirstIsColdest(key: BlockRef -> Score, xs: seq<BlockRef>, y: BlockRef)
    requires xs != [] && y in xs && y != xs[ArgMin(key, xs)]
    ensures Colder(key, xs, xs[ArgMin(key, xs)], y)
  {
    var m := ArgMin(key, xs);
    var j :| 0 <= j < |xs| && xs[j] == y;
    if !Less(key(xs[m]), key(y)) {
      assert j > m;
      assert !Less(key(xs[j]), key(xs[m]));
      assert Precedes(xs, xs[m], xs[j]);
    }
  }

  lemma ColderInCons(key: BlockRef -> Score, xs: seq<BlockRef>, m: nat, ys: seq<BlockRef>, i: nat, j: nat)
    requires xs != [] && m == ArgMin(key, xs) && InEvictionOrder(key, DropAt(xs, m), ys)
    requires forall y :: y in ys ==> y in xs && y != xs[m]
    requires i < j < |ys| + 1
    ensures Colder(key, xs, ([xs[m]] + ys)[i], ys[j - 1])
  {
    hide Colder, DropAt, ArgMin;
    assert ys[j - 1] in ys;
    if i == 0 {
      FirstIsColdest(key, xs, ys[j - 1]);
    } else {
      assert ys[i - 1] in ys;
      ColderAfterDrop(key, xs, m, ys[i - 1], ys[j - 1]);
    }
  }

  lemma EvictionOrderCons(key: BlockRef -> Score, xs: seq<BlockRef>, m: nat, ys: seq<BlockRef>)
    requires Distinct(xs) && xs != [] && m == ArgMin(key, xs)
    requires Distinct(ys) && InEvictionOrder(key, DropAt(xs, m), ys)
    requires forall y :: y in ys ==> y in xs && y != xs[m]
    ensures Distinct([xs[m]] + ys) && InEvictionOrder(key, xs, [xs[m]] + ys)
  {
    FreshHead(xs[m], ys);
    hide Distinct, Colder, DropAt, ArgMin;
    var r := [xs[m]] + ys;
    forall i, j | 0 <= i < j < |r| ensures Colder(key, xs, r[i], r[j]) {
      ColderInCons(key, xs, m, ys, i, j);
      assert r[j] == ys[j - 1];
    }
  }

  lemma FreshHead(x: BlockRef, ys: seq<BlockRef>)
    requires Distinct(ys) && forall y :: y in ys ==> y != x
    ensures Distinct([x] + ys)
  {
    assert forall j :: 0 <= j < |ys| ==> ys[j] in ys;
  }

  lemma ColderAfterDrop(key: BlockRef -> Score, xs: seq<BlockRef>, m: nat, a: BlockRef, b: BlockRef)
    requires m < |xs| && a != xs[m] && b != xs[m] && Colder(key, DropAt(xs, m), a, b)
    ensures Colder(key, xs, a, b)
  {
    hide Precedes, DropAt;
    PrecedesAfterDrop(xs, m, a, b);
  }

  /** The ranked list is duplicate-free and every entry is colder than every later one. */
  lemma {:induction false} RankedInEvictionOrder(key: BlockRef -> Score, xs: seq<BlockRef>)
    requires Distinct(xs)
    ensures Distinct(Ranked(key, xs))
    ensures InEvictionOrder(key, xs, Ranked(key, xs))
    decreases |xs|
  {
    if xs != [] {
      var m := ArgMin(key, xs);
      DropAtDistinct(xs, m);
      RankedInEvictionOrder(key, DropAt(xs, m));
      RankedElements(key, DropAt(xs, m));
      EvictionOrderCons(key, xs, m, Ranked(key, DropAt(xs, m)));
    }
  }

  /** The first n of the ranking: no repeats, coldest first, and each colder than all that stay. */
  ghost predicate AreColdest(key: BlockRef -> Score, xs: seq<BlockRef>, out: seq<BlockRef>) {
    && Distinct(out)
    && (forall c :: c in out ==> c in xs)
    && InEvictionOrder(key, xs, out)
    && (forall c, k :: c in out && k in xs && k !in out ==> Colder(key, xs, c, k))
  }

  lemma NothingIsColdest(key: BlockRef -> Score, xs: seq<BlockRef>)
    ensures AreColdest(key, xs, [])
  {
  }

  lemma PrefixIsColdest(key: BlockRef -> Score, xs: seq<BlockRef>, n: nat)
    requires Distinct(xs) && n <= |xs|
    ensures AreColdest(key, xs, Ranked(key, xs)[..n])
  {
    hide Colder, Ranked;
    var r := Ranked(key, xs);
    RankedInEvictionOrder(key, xs);
    RankedElements(key, xs);
    var out := r[..n];
    forall c, k | c in out && k in xs && k !in out ensures Colder(key, xs, c, k) {
      var i :| 0 <= i < n && r[i] == c;
      assert k in r;
      var j :| 0 <= j < |r| && r[j] == k;
    }
  }

  lemma StableOrderHead(key: BlockRef -> Score, xs: seq<BlockRef>, ys: seq<BlockRef>)
    requires Distinct(xs) && xs != []
    requires multiset(ys) == multiset(xs)
    requires InEvictionOrder(key, xs, ys)
    ensures ys != [] && ys[0] == xs[ArgMin(key, xs)]
  {
    var m := ArgMin(key, xs);
    assert xs[m] in multiset(xs);
    assert xs[m] in multiset(ys);
    var j :| 0 <= j < |ys| && ys[j] == xs[m];
    assert ys[0] in multiset(ys);
    assert ys[0] in multiset(xs);
  }

  lemma StableOrderTail(key: BlockRef -> Score, xs: seq<BlockRef>, ys: seq<BlockRef>, m: nat)
    requires m < |xs| && ys != [] && ys[0] == xs[m] && xs[m] !in ys[1..]
    requires InEvictionOrder(key, xs, ys)
    ensures InEvictionOrder(key, DropAt(xs, m), ys[1..])
  {
    var zs := ys[1..];
    forall i, j | 0 <= i < j < |zs| ensures Colder(key, DropAt(xs, m), zs[i], zs[j]) {
      assert zs[i] == ys[i + 1] && zs[j] == ys[j + 1];
      assert Colder(key, xs, ys[i + 1], ys[j + 1]);
      PrecedesAfterDrop(xs, m, zs[i], zs[j]);
    }
  }

  lemma MultisetTail(xs: seq<BlockRef>, ys: seq<BlockRef>, m: nat)
    requires m < |xs| && Distinct(xs) && multiset(ys) == multiset(xs) && ys != [] && ys[0] == xs[m]
    ensures multiset(ys[1..]) == multiset(DropAt(xs, m))
    ensures xs[m] !in ys[1..]
  {
    assert ys == [ys[0]] + ys[1..];
    assert multiset(ys[1..]) == multiset(ys) - multiset{ys[0]};
    assert multiset(DropAt(xs, m)) == multiset(xs) - multiset{xs[m]};
    DropAtDistinct(xs, m);
    assert xs[m] !in multiset(DropAt(xs, m));
  }

  /** There is only one stable order, so any stable sort returns the ranked list. */
  lemma {:induction false} StableOrderIsUnique(key: BlockRef -> Score, xs: seq<BlockRef>, ys: seq<BlockRef>)
    requires Distinct(xs)
    requires multiset(ys) == multiset(xs)
    requires InEvictionOrder(key, xs, ys)
    ensures ys == Ranked(key, xs)
    decreases |xs|
  {
    assert |multiset(ys)| == |ys| && |multiset(xs)| == |xs|;
    if xs != [] {
      var m := ArgMin(key, xs);
      StableOrderHead(key, xs, ys);
      MultisetTail(xs, ys, m);
      StableOrderTail(key, xs, ys, m);
      DropAtDistinct(xs, m);
      StableOrderIsUnique(key, DropAt(xs, m), ys[1..]);
    }
  }
}
