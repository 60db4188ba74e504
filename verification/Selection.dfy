/** Which blocks a sparse selection touches, and the page-index array attention reads through. */
module Selection {
  import opened Blocks

  /** A rectangular three-dimensional tensor. */
  datatype Tensor<T> = Tensor(d0: nat, d1: nat, d2: nat, at: seq<seq<seq<T>>>)

  /** A block named by a selection. Token positions are any integers; those below zero name blocks that
      no request has. */
  datatype Touch = Touch(req: string, block: int)

  ghost predicate Shaped<T>(t: Tensor<T>) {
    && |t.at| == t.d0
    && (forall b :: 0 <= b < t.d0 ==> |t.at[b]| == t.d1)
    && (forall b, h :: 0 <= b < t.d0 && 0 <= h < t.d1 ==> |t.at[b][h]| == t.d2)
  }

  function Clamp(n: int, hi: nat): (r: nat) {
    if n <= 0 then 0 else if n <= hi then n else hi
  }

  /** Where a `[:n]` slice of a sequence of length s ends; a negative n counts from the back. */
  function SliceEnd(n: int, s: nat): (r: nat) {
    if n >= 0 then Clamp(n, s) else Clamp(s + n, s)
  }

  /** Which positions the two lengths keep: all before n; with a negative n, none or all but the last -n. */
  lemma KeptPositions(n: int, s: nat, j: nat)
    ensures j < Clamp(n, s) <==> j < s && j < n
    ensures j < SliceEnd(n, s) <==> j < s && (j < n || (n < 0 && j < s + n))
  {
  }

  /** What a selection needs: row by row and head by head, the blocks of the first `End` tokens. */
  ghost function NeededUpTo(reqs: seq<string>, idx: Tensor<int>, page: nat, end: (nat, nat) -> nat): (s: set<Touch>)
    requires Shaped(idx) && |reqs| == idx.d0 && page > 0
  {
    set b, h, j | 0 <= b < idx.d0 && 0 <= h < idx.d1 && 0 <= j < idx.d2 && j < end(b, h) ::
      Touch(reqs[b], idx.at[b][h][j] / page)
  }

  /** The vectorised code takes the first head's length for every head. */
  function FirstHeadEnd(len: Tensor<int>, s: nat): (e: (nat, nat) -> nat)
    requires Shaped(len)
  {
    (b: nat, h: nat) => if b < len.d0 && 0 < len.d1 && 0 < len.d2 then Clamp(len.at[b][0][0], s) else 0
  }

  /** The loop it replaced takes each head's own length. */
  function OwnHeadEnd(len: Tensor<int>, s: nat): (e: (nat, nat) -> nat)
    requires Shaped(len)
  {
    (b: nat, h: nat) => if b < len.d0 && h < len.d1 && 0 < len.d2 then SliceEnd(len.at[b][h][0], s) else 0
  }

  /** The two agree on every selection of this shape if and only if in every row all heads' slices end
      where the first head's clamped length does. */
  lemma FastCollectAgreesIff(reqs: seq<string>, len: Tensor<int>, s: nat, page: nat)
    requires Shaped(len) && |reqs| == len.d0 && len.d2 == 1 && page > 0
    ensures (forall b, h :: 0 <= b < len.d0 && 0 <= h < len.d1 ==>
      FirstHeadEnd(len, s)(b, h) == OwnHeadEnd(len, s)(b, h))
      <==> (forall idx: Tensor<int> :: Shaped(idx) && idx.d0 == len.d0 && idx.d1 == len.d1 && idx.d2 == s ==>
              NeededUpTo(reqs, idx, page, FirstHeadEnd(len, s)) == NeededUpTo(reqs, idx, page, OwnHeadEnd(len, s)))
  {
    var first, own := FirstHeadEnd(len, s), OwnHeadEnd(len, s);
    if forall b, h :: 0 <= b < len.d0 && 0 <= h < len.d1 ==> first(b, h) == own(b, h) {
      forall idx: Tensor<int> | Shaped(idx) && idx.d0 == len.d0 && idx.d1 == len.d1 && idx.d2 == s
        ensures NeededUpTo(reqs, idx, page, first) == NeededUpTo(reqs, idx, page, own)
      {
        SameEnds(reqs, idx, page, first, own);
        SameEnds(reqs, idx, page, own, first);
      }
    } else {
      var b, h :| 0 <= b < len.d0 && 0 <= h < len.d1 && first(b, h) != own(b, h);
      var j := if first(b, h) < own(b, h) then first(b, h) else own(b, h);
      var idx := Probe(len.d0, len.d1, s, b, h, j, page);
      ProbeTells(reqs, page, idx, b, h, j, first);
      ProbeTells(reqs, page, idx, b, h, j, own);
    }
  }

  lemma SameEnds(reqs: seq<string>, idx: Tensor<int>, page: nat, e1: (nat, nat) -> nat, e2: (nat, nat) -> nat)
    requires Shaped(idx) && |reqs| == idx.d0 && page > 0
    requires forall b, h :: 0 <= b < idx.d0 && 0 <= h < idx.d1 ==> e1(b, h) == e2(b, h)
    ensures NeededUpTo(reqs, idx, page, e1) <= NeededUpTo(reqs, idx, page, e2)
  {
  }

  /** A selection with one token in block 1 and all others in block 0. */
  function Probe(d0: nat, d1: nat, d2: nat, b: nat, h: nat, j: nat, page: nat): (t: Tensor<int>)
    ensures t.d0 == d0 && t.d1 == d1 && t.d2 == d2 && Shaped(t)
    ensures forall x, y, z :: 0 <= x < d0 && 0 <= y < d1 && 0 <= z < d2 ==>
      t.at[x][y][z] == if x == b && y == h && z == j then page else 0
  {
    var hit, miss := ProbeRow(d1, d2, true, h, j, page), ProbeRow(d1, d2, false, h, j, page);
    Tensor(d0, d1, d2, seq(d0, x => if x == b then hit else miss))
  }

  function ProbeRow(d1: nat, d2: nat, hit: bool, h: nat, j: nat, page: nat): (t: seq<seq<int>>)
    ensures |t| == d1 && forall y :: 0 <= y < d1 ==> |t[y]| == d2
    ensures forall y, z :: 0 <= y < d1 && 0 <= z < d2 ==> t[y][z] == if hit && y == h && z == j then page else 0
  {
    var one, zero := ProbeHead(d2, hit, j, page), ProbeHead(d2, false, j, page);
    seq(d1, y => if y == h then one else zero)
  }

  function ProbeHead(d2: nat, hit: bool, j: nat, page: nat): (t: seq<int>)
    ensures |t| == d2 && forall z :: 0 <= z < d2 ==> t[z] == if hit && z == j then page else 0
  {
    seq(d2, z => if hit && z == j then page else 0)
  }

  lemma ProbeTells(reqs: seq<string>, page: nat, idx: Tensor<int>, b: nat, h: nat, j: nat, end: (nat, nat) -> nat)
    requires |reqs| == idx.d0 && page > 0 && b < idx.d0 && h < idx.d1 && j < idx.d2
    requires idx == Probe(idx.d0, idx.d1, idx.d2, b, h, j, page)
    ensures Touch(reqs[b], 1) in NeededUpTo(reqs, idx, page, end) <==> j < end(b, h)
  {
    assert page / page == 1 && 0 / page == 0;
    forall x, y, z | 0 <= x < idx.d0 && 0 <= y < idx.d1 && 0 <= z < idx.d2
      ensures idx.at[x][y][z] / page == if x == b && y == h && z == j then 1 else 0
    {
    }
    assert Touch(reqs[b], idx.at[b][h][j] / page) == Touch(reqs[b], 1);
  }

  // ------------------------------------------------------------------ collect_needed_block_refs

  ghost predicate Ascending(s: seq<int>) {
    forall i, j :: 0 <= i < j < |s| ==> s[i] < s[j]
  }

  /** Inserts x into an ascending list unless it is there. */
  function Insert(s: seq<int>, x: int): (r: seq<int>) {
    if s == [] then [x]
    else if x == s[0] then s
    else if x < s[0] then [x] + s
    else [s[0]] + Insert(s[1..], x)
  }

  lemma {:induction false} InsertKeepsAscending(s: seq<int>, x: int)
    requires Ascending(s)
    ensures Ascending(Insert(s, x))
    ensures forall y :: y in Insert(s, x) <==> y in s || y == x
  {
    if s != [] && x > s[0] {
      var rest, r := s[1..], Insert(s[1..], x);
      assert s == [s[0]] + rest;
      InsertKeepsAscending(rest, x);
      hide Insert;
      forall y | y in r ensures s[0] < y {
        if y in rest {
          var k :| 0 <= k < |rest| && rest[k] == y;
          assert s[k + 1] == y;
        }
      }
      AscendingCons(s[0], r);
    } else if s != [] && x < s[0] {
      AscendingCons(x, s);
    }
  }

  lemma AscendingCons(x: int, s: seq<int>)
    requires Ascending(s) && (s != [] ==> x < s[0])
    ensures Ascending([x] + s)
  {
    var t := [x] + s;
    forall i, j | 0 <= i < j < |t| ensures t[i] < t[j] {
      assert t[j] == s[j - 1];
      assert i > 0 ==> t[i] == s[i - 1];
    }
  }

  /** The distinct block numbers of the first n tokens of every head, ascending (`unique`). */
  method UniqueBlocks(heads: seq<seq<int>>, n: nat, page: nat) returns (u: seq<int>)
    requires page > 0 && forall h :: 0 <= h < |heads| ==> n <= |heads[h]|
    ensures Ascending(u)
    ensures forall x :: x in u <==> exists h, j :: 0 <= h < |heads| && 0 <= j < n && heads[h][j] / page == x
  {
    u := [];
    for h := 0 to |heads|
      invariant Ascending(u)
      invariant forall x :: x in u <==> exists g, j :: 0 <= g < h && 0 <= j < n && heads[g][j] / page == x
    {
      ghost var before := u;
      for j := 0 to n
        invariant Ascending(u)
        invariant forall x :: x in u <==> x in before || exists k :: 0 <= k < j && heads[h][k] / page == x
      {
        InsertKeepsAscending(u, heads[h][j] / page);
        u := Insert(u, heads[h][j] / page);
      }
    }
  }

  /** Batch order first, then block order. */
  ghost predicate InBatchOrder(reqs: seq<string>, refs: seq<Touch>) {
    forall i, j, b, c ::
      (&& 0 <= i < j < |refs| && 0 <= b < |reqs| && 0 <= c < |reqs|
       && reqs[b] == refs[i].req && reqs[c] == refs[j].req) ==> b < c || (b == c && refs[i].block < refs[j].block)
  }

  /** The blocks a row adds. */
  ghost predicate RowAdds(q: string, u: seq<int>, k: nat, before: seq<Touch>, refs: seq<Touch>)
    requires k <= |u|
  {
    && Distinct(refs) && before <= refs
    && (forall r :: r in refs <==> r in before || (r.req == q && r.block in u[..k]))
    && (forall i, j :: |before| <= i < j < |refs| ==> refs[i].block < refs[j].block)
    && (forall i :: |before| <= i < |refs| ==> refs[i].req == q && refs[i].block in u[..k])
  }

  method AppendRow(q: string, u: seq<int>, before: seq<Touch>) returns (refs: seq<Touch>)
    requires Ascending(u) && Distinct(before)
    ensures RowAdds(q, u, |u|, before, refs)
  {
    refs := before;
    for k := 0 to |u|
      invariant RowAdds(q, u, k, before, refs)
    {
      var r := Touch(q, u[k]);
      assert u[..k + 1] == u[..k] + [u[k]];
      assert forall x :: x in u[..k] ==> x < u[k];
      if r !in refs {
        refs := refs + [r];
      }
    }
  }

  /** The blocks of the first n rows, as the first heads' lengths cut them. */
  ghost function NeededRows(reqs: seq<string>, idx: Tensor<int>, len: Tensor<int>, page: nat, n: nat): (s: set<Touch>)
    requires Shaped(idx) && Shaped(len) && |reqs| == idx.d0 && page > 0
  {
    set b, h, j | 0 <= b < idx.d0 && b < n && 0 <= h < idx.d1 && 0 <= j < idx.d2
                  && j < FirstHeadEnd(len, idx.d2)(b, h) ::
      Touch(reqs[b], idx.at[b][h][j] / page)
  }

  lemma NeededNextRow(reqs: seq<string>, idx: Tensor<int>, len: Tensor<int>, page: nat, n: nat, u: seq<int>, r: Touch)
    requires Shaped(idx) && Shaped(len) && |reqs| == idx.d0 == len.d0 && page > 0 && n < idx.d0 && 0 < len.d1
    requires len.d2 == 1
    requires forall x :: x in u <==>
      exists h, j :: 0 <= h < |idx.at[n]| && 0 <= j < Clamp(len.at[n][0][0], idx.d2) && idx.at[n][h][j] / page == x
    ensures r in NeededRows(reqs, idx, len, page, n + 1) <==>
      r in NeededRows(reqs, idx, len, page, n) || (r.req == reqs[n] && r.block in u)
  {
    if r.req == reqs[n] && r.block in u {
      var h, j :| 0 <= h < |idx.at[n]| && 0 <= j < Clamp(len.at[n][0][0], idx.d2) && idx.at[n][h][j] / page == r.block;
      assert Touch(reqs[n], idx.at[n][h][j] / page) == r;
    }
  }

  method CollectNeededBlockRefs(reqs: seq<string>, idx: Tensor<int>, len: Tensor<int>, page: nat)
    returns (res: Result<seq<Touch>>)
    requires Shaped(idx) && Shaped(len) && page > 0
    ensures res.Err? <==> len.d0 != idx.d0 || len.d1 != idx.d1 || len.d2 != 1 || |reqs| != idx.d0
    ensures res.Err? ==> res == Err(ValueError)
    ensures res.Ok? ==>
      && Distinct(res.value)
      && forall r :: r in res.value <==> r in NeededUpTo(reqs, idx, page, FirstHeadEnd(len, idx.d2))
    ensures res.Ok? && Distinct(reqs) ==> InBatchOrder(reqs, res.value)
  {
    if len.d0 != idx.d0 || len.d1 != idx.d1 || len.d2 != 1 { return Err(ValueError); }
    if |reqs| != idx.d0 { return Err(ValueError); }
    if idx.d0 == 0 || idx.d1 == 0 || idx.d2 == 0 { return Ok([]); }
    var refs: seq<Touch> := [];
    for b := 0 to |reqs|
      invariant Distinct(refs)
      invariant forall r :: r in refs <==> r in NeededRows(reqs, idx, len, page, b)
      invariant Distinct(reqs) ==> InBatchOrder(reqs, refs)
    {
      var n := Clamp(len.at[b][0][0], idx.d2);
      var u := UniqueBlocks(idx.at[b], n, page);
      forall r ensures r in NeededRows(reqs, idx, len, page, b + 1) <==>
        r in NeededRows(reqs, idx, len, page, b) || (r.req == reqs[b] && r.block in u)
      {
        NeededNextRow(reqs, idx, len, page, b, u, r);
      }
      var next := AppendRow(reqs[b], u, refs);
      assert u[..|u|] == u;
      if Distinct(reqs) { RowKeepsOrder(reqs, idx, len, page, b, u, refs, next); }
      refs := next;
    }
    return Ok(refs);
  }

  lemma RowKeepsOrder(reqs: seq<string>, idx: Tensor<int>, len: Tensor<int>, page: nat, b: nat, u: seq<int>,
                      refs: seq<Touch>, next: seq<Touch>)
    requires Shaped(idx) && Shaped(len) && |reqs| == idx.d0 && page > 0 && b < |reqs| && Distinct(reqs)
    requires InBatchOrder(reqs, refs) && RowAdds(reqs[b], u, |u|, refs, next)
    requires forall r :: r in refs ==> r in NeededRows(reqs, idx, len, page, b)
    ensures InBatchOrder(reqs, next)
  {
    forall i, j, x, y | 0 <= i < j < |next| && 0 <= x < |reqs| && 0 <= y < |reqs|
      && reqs[x] == next[i].req && reqs[y] == next[j].req
      ensures x < y || (x == y && next[i].block < next[j].block)
    {
      if j < |refs| {
        assert next[i] == refs[i] && next[j] == refs[j];
      } else if i < |refs| {
        assert next[i] == refs[i] && refs[i] in refs;
        assert y == b && x < b;
      }
    }
  }

  // ------------------------------------------------------------------ back to blocks

  /** The touched blocks a residency table can have, in order. */
  function RefsIn(touches: seq<Touch>): (refs: seq<BlockRef>) {
    if touches == [] then []
    else
      var rest, t := RefsIn(touches[..|touches| - 1]), touches[|touches| - 1];
      if t.block < 0 then rest else rest + [BlockRef(t.req, t.block)]
  }

  lemma {:induction false} RefsInElements(touches: seq<Touch>)
    ensures forall r :: r in RefsIn(touches) <==> Touch(r.req, r.idx) in touches
    ensures Distinct(touches) ==> Distinct(RefsIn(touches))
  {
    if touches != [] {
      var rest, t := touches[..|touches| - 1], touches[|touches| - 1];
      RefsInElements(rest);
      assert touches == rest + [t];
      if Distinct(touches) {
        assert t !in rest && Distinct(rest);
      }
    }
  }
}
