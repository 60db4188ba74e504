/** Logical block identities, block locations, and facts about duplicate-free lists. */
module Blocks {
  datatype Option<+T> = None | Some(value: T)

  /** The exceptions the code raises. */
  datatype Failure = ValueError | KeyError | IndexError | RuntimeError | AssertionError | CopyError

  datatype Result<+T> = Ok(value: T) | Err(error: Failure)

  /** A request-local logical block; it outlives any physical page it is bound to. */
  datatype BlockRef = BlockRef(req: string, idx: nat)

  datatype Residency = GPU | CPU | STAGING

  datatype Location = Location(
    residency: Residency,
    gpu: Option<nat>,
    cpuSlot: Option<nat>,
    stagingSlot: Option<nat>,
    complete: bool)

  /** The logical blocks 0..n-1 of one request, in order. */
  function RefsOf(req: string, n: nat): (refs: seq<BlockRef>)
    ensures |refs| == n
    ensures forall i :: 0 <= i < n ==> refs[i] == BlockRef(req, i)
  {
    seq(n, i requires 0 <= i < n => BlockRef(req, i))
  }

  ghost predicate Distinct<T>(s: seq<T>) {
    forall i, j :: 0 <= i < j < |s| ==> s[i] != s[j]
  }

  lemma DistinctLast<T>(s: seq<T>, n: nat)
    requires 0 < n <= |s| && Distinct(s)
    ensures s[n - 1] !in s[..n - 1]
    ensures s[..n] == s[..n - 1] + [s[n - 1]]
  {
  }

  lemma ConcatDistinct<T>(a: seq<T>, b: seq<T>)
    requires Distinct(a) && Distinct(b) && forall x :: x in a ==> x !in b
    ensures Distinct(a + b)
    ensures forall x :: x in a + b <==> x in a || x in b
  {
    var c := a + b;
    forall i, j | 0 <= i < j < |c| ensures c[i] != c[j] {
      if i < |a| <= j {
        assert c[i] == a[i] && a[i] in a;
        assert c[j] == b[j - |a|] && b[j - |a|] in b;
      }
    }
  }

  /** The elements of `s` that satisfy `keep`, in their original order. */
  function Filter<T>(keep: T -> bool, s: seq<T>): (r: seq<T>)
  {
    if s == [] then []
    else
      var rest := Filter(keep, s[..|s| - 1]);
      if keep(s[|s| - 1]) then rest + [s[|s| - 1]] else rest
  }

  lemma FilterEmpty<T>(keep: T -> bool)
    ensures Filter(keep, []) == []
  {
  }

  lemma FilterSnoc<T>(keep: T -> bool, s: seq<T>, i: nat)
    requires i < |s|
    ensures Filter(keep, s[..i + 1]) == Filter(keep, s[..i]) + (if keep(s[i]) then [s[i]] else [])
  {
    assert s[..i + 1][..i] == s[..i];
  }

  lemma {:induction false} FilterElements<T>(keep: T -> bool, s: seq<T>)
    ensures forall x :: x in Filter(keep, s) <==> x in s && keep(x)
    ensures |Filter(keep, s)| <= |s|
    ensures Distinct(s) ==> Distinct(Filter(keep, s))
  {
    if s != [] {
      FilterElements(keep, s[..|s| - 1]);
      assert s == s[..|s| - 1] + [s[|s| - 1]];
    }
  }

  lemma {:induction false} FilterAll<T>(keep: T -> bool, s: seq<T>)
    requires forall x :: x in s ==> keep(x)
    ensures Filter(keep, s) == s
  {
    if s != [] {
      FilterAll(keep, s[..|s| - 1]);
      assert s == s[..|s| - 1] + [s[|s| - 1]];
    }
  }

  /** Deletes the entry at position `i`. */
  function DropAt<T>(s: seq<T>, i: nat): (r: seq<T>)
    requires i < |s|
    ensures |r| == |s| - 1
    ensures multiset(s) == multiset(r) + multiset{s[i]}
  {
    assert s == s[..i] + [s[i]] + s[i + 1..];
    s[..i] + s[i + 1..]
  }

  lemma DropAtDistinct<T>(s: seq<T>, i: nat)
    requires i < |s| && Distinct(s)
    ensures Distinct(DropAt(s, i))
    ensures forall x :: x in DropAt(s, i) <==> x in s && x != s[i]
  {
    var r := DropAt(s, i);
    forall x | x in s && x != s[i] ensures x in r {
      assert x in multiset(s);
      assert x in multiset(r);
    }
    forall x | x in r ensures x in s && x != s[i] {
      var k :| 0 <= k < |r| && r[k] == x;
      assert x == s[if k < i then k else k + 1];
    }
  }

  /** Deletes the first occurrence of `x`, if any: a dictionary pop seen from its key order. */
  function Without<T(==)>(s: seq<T>, x: T): (r: seq<T>) {
    if s == [] then []
    else if s[0] == x then s[1..]
    else [s[0]] + Without(s[1..], x)
  }

  lemma {:induction false} WithoutIsDropAt<T>(s: seq<T>, i: nat)
    requires i < |s| && s[i] !in s[..i]
    ensures Without(s, s[i]) == DropAt(s, i)
  {
    if i > 0 {
      DropAtCons(s, i);
      hide DropAt;
      assert s[..i][0] == s[0];
      assert s[1..][..i - 1] == s[..i][1..];
      WithoutIsDropAt(s[1..], i - 1);
    } else {
      assert DropAt(s, 0) == s[1..];
    }
  }

  lemma DropAtCons<T>(s: seq<T>, i: nat)
    requires 0 < i < |s|
    ensures DropAt(s, i) == [s[0]] + DropAt(s[1..], i - 1)
  {
  }

  lemma {:induction false} WithoutAbsent<T>(s: seq<T>, x: T)
    requires x !in s
    ensures Without(s, x) == s
  {
    if s != [] {
      WithoutAbsent(s[1..], x);
    }
  }

  lemma WithoutElements<T>(s: seq<T>, x: T)
    requires Distinct(s)
    ensures Distinct(Without(s, x))
    ensures forall y :: y in Without(s, x) <==> y in s && y != x
  {
    if x in s {
      var i :| 0 <= i < |s| && s[i] == x;
      WithoutIsDropAt(s, i);
      DropAtDistinct(s, i);
    } else {
      WithoutAbsent(s, x);
    }
  }

  /** First occurrences only, in order: Python's dict.fromkeys. */
  function Dedup<T(==)>(s: seq<T>): (r: seq<T>) {
    if s == [] then []
    else
      var rest := Dedup(s[..|s| - 1]);
      if s[|s| - 1] in rest then rest else rest + [s[|s| - 1]]
  }

  lemma {:induction false} DedupElements<T>(s: seq<T>)
    ensures Distinct(Dedup(s))
    ensures forall x :: x in Dedup(s) <==> x in s
  {
    if s != [] {
      DedupElements(s[..|s| - 1]);
      assert s == s[..|s| - 1] + [s[|s| - 1]];
    }
  }

  lemma DedupElement<T>(s: seq<T>, x: T)
    ensures x in Dedup(s) <==> x in s
  {
    DedupElements(s);
  }

  /** An entry comes before another if its first occurrence does. */
  lemma {:induction false} DedupKeepsOrder<T>(s: seq<T>, i: nat, j: nat)
    requires i < j < |Dedup(s)|
    ensures exists k :: 0 <= k < |s| && s[k] == Dedup(s)[i] && Dedup(s)[j] !in s[..k + 1]
  {
    var pre := s[..|s| - 1];
    DedupElements(pre);
    if j < |Dedup(pre)| {
      DedupKeepsOrder(pre, i, j);
      var k :| 0 <= k < |pre| && pre[k] == Dedup(pre)[i] && Dedup(pre)[j] !in pre[..k + 1];
      assert pre[..k + 1] == s[..k + 1];
    } else {
      var x := Dedup(pre)[i];
      DedupElement(pre, x);
      var k :| 0 <= k < |pre| && pre[k] == x;
      assert pre[..k + 1] == s[..k + 1];
      assert forall y :: y in pre[..k + 1] ==> y in pre;
    }
  }

  lemma {:induction false} DedupOfDistinct<T>(s: seq<T>)
    requires Distinct(s)
    ensures Dedup(s) == s
  {
    if s != [] {
      DedupOfDistinct(s[..|s| - 1]);
      assert s == s[..|s| - 1] + [s[|s| - 1]];
    }
  }

  ghost function ToSet<T>(s: seq<T>): (r: set<T>) {
    set x | x in s
  }

  lemma {:induction false} DistinctCardinality<T>(s: seq<T>)
    requires Distinct(s)
    ensures |ToSet(s)| == |s|
  {
    if s != [] {
      DistinctCardinality(s[1..]);
      assert ToSet(s) == {s[0]} + ToSet(s[1..]);
    }
  }

  ghost function Below(n: nat): (r: set<nat>)
    ensures forall i :: i in r <==> 0 <= i < n
    ensures |r| == n
  {
    if n == 0 then {} else Below(n - 1) + {n - 1}
  }

  /** A duplicate-free list of naturals below n that misses none has exactly n entries. */
  lemma FullFreeList(free: seq<nat>, n: nat)
    requires Distinct(free)
    requires forall s :: s in free <==> 0 <= s < n
    ensures |free| == n
  {
    DistinctCardinality(free);
    assert ToSet(free) == Below(n);
  }

  lemma MulMono(a: nat, b: nat, m: nat)
    requires a <= b
    ensures a * m <= b * m
  {
  }
}
