/** Rewriting the flat page-index array so that attention reads staged and freed blocks correctly. */
module Patching {
  import opened Blocks
  import opened Residencies
  import opened Selection

  /** The rows are consecutive, non-overlapping stretches of the flat array. */
  ghost predicate RowsOk(indptr: seq<nat>, rows: nat, size: nat) {
    && rows < |indptr|
    && (forall b :: 0 <= b <= rows ==> indptr[b] <= size)
    && (forall b, c :: 0 <= b <= c <= rows ==> indptr[b] <= indptr[c])
  }

  ghost predicate InRow(indptr: seq<nat>, rows: nat, b: nat, i: nat) {
    b < rows < |indptr| && indptr[b] + i < indptr[b + 1]
  }

  lemma RowPositionsDiffer(indptr: seq<nat>, rows: nat, size: nat, b: nat, i: nat, c: nat, j: nat)
    requires RowsOk(indptr, rows, size) && InRow(indptr, rows, b, i) && InRow(indptr, rows, c, j)
    ensures indptr[b] + i < size
    ensures indptr[b] + i == indptr[c] + j ==> b == c && i == j
  {
    assert b < c ==> indptr[b + 1] <= indptr[c];
    assert c < b ==> indptr[c + 1] <= indptr[b];
  }

  ghost predicate Contiguous(blocks: map<BlockRef, Location>, q: string, n: nat) {
    forall i: nat :: BlockRef(q, i) in blocks <==> i < n
  }

  /** The page a block's residency calls for, where it differs from its own GPU page. */
  function Remedy(blocks: map<BlockRef, Location>, r: BlockRef, base: nat, nullId: Option<nat>): (v: Option<nat>) {
    if r !in blocks then None
    else if blocks[r].residency == STAGING && blocks[r].stagingSlot.Some? then Some(base + blocks[r].stagingSlot.value)
    else if blocks[r].residency == CPU then nullId
    else None
  }

  datatype Write = Write(pos: nat, val: nat)

  ghost predicate Fit(ws: seq<Write>, size: nat) {
    forall w :: w in ws ==> w.pos < size
  }

  function Apply(a: seq<nat>, ws: seq<Write>, n: nat): (r: seq<nat>)
    requires n <= |ws| && Fit(ws, |a|)
    ensures |r| == |a|
  {
    if n == 0 then a else Apply(a, ws, n - 1)[ws[n - 1].pos := ws[n - 1].val]
  }

  // ------------------------------------------------------------------ the residency pass

  /** Per tracked block of one request, the write that fixes up its position in a row starting at `start`. */
  ghost predicate RowRemedies(blocks: map<BlockRef, Location>, refs: seq<BlockRef>, start: nat, base: nat,
                              nullId: Option<nat>, ws: seq<Write>) {
    forall w :: w in ws <==>
      exists r :: r in refs && Remedy(blocks, r, base, nullId) == Some(w.val) && w.pos == start + r.idx
  }

  /** A row is fixed up when it is not empty and as long as the request has tracked blocks. */
  ghost predicate RowCounts(blocks: map<BlockRef, Location>, reqs: seq<string>, indptr: seq<nat>, b: nat)
    requires b < |reqs| && b + 1 < |indptr|
  {
    indptr[b] < indptr[b + 1] && |BlocksOf(blocks, reqs[b])| == indptr[b + 1] - indptr[b]
  }

  /** Block r of row b is fixed up to v. */
  ghost predicate Fixes(blocks: map<BlockRef, Location>, reqs: seq<string>, indptr: seq<nat>, base: nat,
                        nullId: Option<nat>, b: nat, r: BlockRef, v: nat)
    requires |reqs| < |indptr|
  {
    && b < |reqs| && r in blocks && r.req == reqs[b] && RowCounts(blocks, reqs, indptr, b)
    && Remedy(blocks, r, base, nullId) == Some(v)
  }

  /** The scattered pairs of the first n rows: wherever the tracked blocks lie, also outside their row. */
  ghost predicate Remedies(blocks: map<BlockRef, Location>, reqs: seq<string>, indptr: seq<nat>, base: nat,
                           nullId: Option<nat>, n: nat, ws: seq<Write>)
    requires |reqs| < |indptr|
  {
    && (forall w :: w in ws ==>
          exists b: nat, r ::
            b < n && Fixes(blocks, reqs, indptr, base, nullId, b, r, w.val) && w.pos == indptr[b] + r.idx)
    && (forall b: nat, r, v: nat ::
          b < n && Fixes(blocks, reqs, indptr, base, nullId, b, r, v) ==> Write(indptr[b] + r.idx, v) in ws)
  }

  method RowWrites(blocks: map<BlockRef, Location>, refs: seq<BlockRef>, start: nat, base: nat, nullId: Option<nat>)
    returns (ws: seq<Write>)
    ensures RowRemedies(blocks, refs, start, base, nullId, ws)
  {
    ws := [];
    for i := 0 to |refs|
      invariant RowRemedies(blocks, refs[..i], start, base, nullId, ws)
    {
      ghost var before := ws;
      if refs[i] in blocks && blocks[refs[i]].residency != GPU {
        var l := blocks[refs[i]];
        if l.residency == STAGING && l.stagingSlot.Some? {
          ws := ws + [Write(start + refs[i].idx, base + l.stagingSlot.value)];
        } else if l.residency == CPU && nullId.Some? {
          ws := ws + [Write(start + refs[i].idx, nullId.value)];
        }
      }
      assert refs[..i + 1] == refs[..i] + [refs[i]];
      assert forall w :: w in ws <==>
        w in before || (Remedy(blocks, refs[i], base, nullId) == Some(w.val) && w.pos == start + refs[i].idx);
    }
    assert refs[..|refs|] == refs;
  }

  lemma RemediesNextRow(blocks: map<BlockRef, Location>, reqs: seq<string>, indptr: seq<nat>, base: nat,
                        nullId: Option<nat>, b: nat, refs: seq<BlockRef>, ws: seq<Write>, row: seq<Write>)
    requires b < |reqs| < |indptr| && Remedies(blocks, reqs, indptr, base, nullId, b, ws)
    requires forall r :: r in refs <==> r in blocks && r.req == reqs[b]
    requires if RowCounts(blocks, reqs, indptr, b)
             then RowRemedies(blocks, refs, indptr[b], base, nullId, row) else row == []
    ensures Remedies(blocks, reqs, indptr, base, nullId, b + 1, ws + row)
  {
    hide RowCounts, Remedy;
    forall w | w in row
      ensures exists c: nat, r ::
        c < b + 1 && Fixes(blocks, reqs, indptr, base, nullId, c, r, w.val) && w.pos == indptr[c] + r.idx
    {
      var r :| r in refs && Remedy(blocks, r, base, nullId) == Some(w.val) && w.pos == indptr[b] + r.idx;
      assert Fixes(blocks, reqs, indptr, base, nullId, b, r, w.val);
    }
    forall c: nat, r, v: nat | c < b + 1 && Fixes(blocks, reqs, indptr, base, nullId, c, r, v)
      ensures Write(indptr[c] + r.idx, v) in ws + row
    {
      if c == b {
        var w := Write(indptr[b] + r.idx, v);
        assert r in refs && Remedy(blocks, r, base, nullId) == Some(w.val) && w.pos == indptr[b] + r.idx;
        assert w in row;
      } else {
        assert Write(indptr[c] + r.idx, v) in ws;
      }
    }
  }

  lemma ListingCount(blocks: map<BlockRef, Location>, q: string, refs: seq<BlockRef>)
    requires IsRequestListing(blocks, q, refs)
    ensures |refs| == |BlocksOf(blocks, q)|
  {
    assert Distinct(refs);
    assert ToSet(refs) == BlocksOf(blocks, q);
    DistinctCardinality(refs);
  }

  /** All positions and values of the residency pass. */
  method CollectRemedies(residency: ResidencyTable, reqs: seq<string>, indptr: seq<nat>, base: nat, nullId: Option<nat>)
    returns (ws: seq<Write>)
    requires residency.Valid() && |reqs| < |indptr|
    ensures Remedies(residency.blocks, reqs, indptr, base, nullId, |reqs|, ws)
  {
    hide Agree, RowRemedies, Remedies, Remedy, BlocksOf;
    ghost var blocks := residency.blocks;
    ws := [];
    NoRemedies(blocks, reqs, indptr, base, nullId);
    for b := 0 to |reqs|
      invariant Remedies(blocks, reqs, indptr, base, nullId, b, ws)
    {
      var start, end := indptr[b], indptr[b + 1];
      var row := [];
      var refs := residency.RefsForRequest(reqs[b]);
      ListingCount(blocks, reqs[b], refs);
      if end > start && |refs| == end - start {
        row := RowWrites(residency.blocks, refs, start, base, nullId);
      }
      RemediesNextRow(blocks, reqs, indptr, base, nullId, b, refs, ws, row);
      ws := ws + row;
    }
  }

  lemma SameContiguous(blocks: map<BlockRef, Location>, q: string, n: nat, m: nat)
    requires Contiguous(blocks, q, n)
    ensures Contiguous(blocks, q, m) <==> n == m
  {
    assert BlockRef(q, n) !in blocks && (n > 0 ==> BlockRef(q, n - 1) in blocks);
    assert Contiguous(blocks, q, m) ==> BlockRef(q, m) !in blocks && (m > 0 ==> BlockRef(q, m - 1) in blocks);
  }

  lemma ContiguousCount(blocks: map<BlockRef, Location>, q: string, n: nat)
    requires Contiguous(blocks, q, n)
    ensures |BlocksOf(blocks, q)| == n
  {
    var refs := RefsOf(q, n);
    assert Distinct(refs);
    forall r | r in BlocksOf(blocks, q) ensures r in refs {
      assert r == BlockRef(q, r.idx) == refs[r.idx];
    }
    assert ToSet(refs) == BlocksOf(blocks, q);
    DistinctCardinality(refs);
  }

  /** Without gaps, a row is fixed up exactly when the tracked blocks are its positions. */
  lemma CountsMatch(blocks: map<BlockRef, Location>, reqs: seq<string>, indptr: seq<nat>, b: nat)
    requires b < |reqs| < |indptr| && exists n: nat :: Contiguous(blocks, reqs[b], n)
    ensures RowCounts(blocks, reqs, indptr, b) <==> RowMatches(blocks, reqs, indptr, b)
  {
    hide Contiguous, BlocksOf;
    var n: nat :| Contiguous(blocks, reqs[b], n);
    ContiguousCount(blocks, reqs[b], n);
    if indptr[b] < indptr[b + 1] {
      SameContiguous(blocks, reqs[b], n, indptr[b + 1] - indptr[b]);
    }
  }

  lemma NoRemedies(blocks: map<BlockRef, Location>, reqs: seq<string>, indptr: seq<nat>, base: nat, nullId: Option<nat>)
    requires |reqs| < |indptr|
    ensures Remedies(blocks, reqs, indptr, base, nullId, 0, [])
  {
  }

  /** The tracked blocks of the request are exactly the positions of a non-empty row. */
  ghost predicate RowMatches(blocks: map<BlockRef, Location>, reqs: seq<string>, indptr: seq<nat>, b: nat)
    requires b < |reqs| && b + 1 < |indptr|
  {
    indptr[b] < indptr[b + 1] && Contiguous(blocks, reqs[b], indptr[b + 1] - indptr[b])
  }

  // ------------------------------------------------------------------ the whole rewrite

  /** The selection, if the caller has one: token indices and valid lengths. */
  datatype Sparse = Sparse(idx: Tensor<int>, len: Tensor<int>)

  ghost predicate SparseOk(sparse: Option<Sparse>) {
    sparse.Some? ==> Shaped(sparse.value.idx) && Shaped(sparse.value.len)
  }

  predicate SparseMisfit(sparse: Option<Sparse>, rows: nat) {
    sparse.Some? && (sparse.value.len.d0 != sparse.value.idx.d0 || sparse.value.len.d1 != sparse.value.idx.d1
                     || sparse.value.len.d2 != 1 || rows != sparse.value.idx.d0)
  }

  /** The blocks whose entry in the staging map counts. */
  ghost function Fetched(sparse: Option<Sparse>, reqs: seq<string>, page: nat, staged: map<BlockRef, nat>)
    : (s: set<BlockRef>)
    requires SparseOk(sparse) && page > 0 && !SparseMisfit(sparse, |reqs|)
  {
    if sparse.None? || staged == map[] then {}
    else set r | r in staged
                 && Touch(r.req, r.idx) in NeededUpTo(reqs, sparse.value.idx, page,
                                                      FirstHeadEnd(sparse.value.len, sparse.value.idx.d2))
  }

  /** The entry a row position ends up with: what residency calls for when the row matches the tracked
      blocks, else the slot just fetched, else what was there. */
  ghost function EntryAfter(
      orig: seq<nat>, indptr: seq<nat>, reqs: seq<string>, blocks: map<BlockRef, Location>, base: nat,
      nullId: Option<nat>, fetched: set<BlockRef>, staged: map<BlockRef, nat>, b: nat, i: nat): (v: nat)
    requires RowsOk(indptr, |reqs|, |orig|) && InRow(indptr, |reqs|, b, i)
    requires forall r :: r in fetched ==> r in staged
  {
    assert indptr[b + 1] <= |orig|;
    var r := BlockRef(reqs[b], i);
    if RowMatches(blocks, reqs, indptr, b)
       && Remedy(blocks, r, base, nullId).Some? then Remedy(blocks, r, base, nullId).value
    else if r in fetched then base + staged[r]
    else orig[indptr[b] + i]
  }

  ghost predicate OutsideRows(indptr: seq<nat>, rows: nat, p: nat) {
    forall b: nat, i: nat :: InRow(indptr, rows, b, i) ==> indptr[b] + i != p
  }

  /** The array after the rewrite, position by position. */
  ghost predicate Rewritten(
      orig: seq<nat>, indptr: seq<nat>, reqs: seq<string>, blocks: map<BlockRef, Location>, base: nat,
      nullId: Option<nat>, fetched: set<BlockRef>, staged: map<BlockRef, nat>, out: seq<nat>)
    requires RowsOk(indptr, |reqs|, |orig|) && forall r :: r in fetched ==> r in staged
  {
    && |out| == |orig|
    && (forall b: nat, i: nat :: InRow(indptr, |reqs|, b, i) ==>
          indptr[b] + i < |out| &&
          out[indptr[b] + i] == EntryAfter(orig, indptr, reqs, blocks, base, nullId, fetched, staged, b, i))
    && (forall p: nat :: p < |orig| && OutsideRows(indptr, |reqs|, p) ==> out[p] == orig[p])
  }

  /** What the first pass over the needed blocks leaves at a row position. */
  ghost function RowEntry(orig: seq<nat>, indptr: seq<nat>, reqs: seq<string>, base: nat, staged: map<BlockRef, nat>,
                          needed: seq<Touch>, b: nat, i: nat): (v: nat)
    requires RowsOk(indptr, |reqs|, |orig|) && InRow(indptr, |reqs|, b, i)
  {
    assert indptr[b + 1] <= |orig|;
    var r := BlockRef(reqs[b], i);
    if Touch(r.req, r.idx) in needed && r in staged then base + staged[r] else orig[indptr[b] + i]
  }

  /** After the first pass over `done` of the needed blocks. */
  ghost predicate FirstPass(orig: seq<nat>, indptr: seq<nat>, reqs: seq<string>, base: nat, staged: map<BlockRef, nat>,
                            needed: seq<Touch>, out: seq<nat>)
    requires RowsOk(indptr, |reqs|, |orig|)
  {
    && |out| == |orig|
    && (forall b: nat, i: nat :: InRow(indptr, |reqs|, b, i) ==>
          && indptr[b] + i < |out|
          && out[indptr[b] + i] == RowEntry(orig, indptr, reqs, base, staged, needed, b, i))
    && (forall p: nat :: p < |orig| && OutsideRows(indptr, |reqs|, p) ==> out[p] == orig[p])
  }

  lemma FirstPassStart(orig: seq<nat>, indptr: seq<nat>, reqs: seq<string>, base: nat, staged: map<BlockRef, nat>)
    requires RowsOk(indptr, |reqs|, |orig|)
    ensures FirstPass(orig, indptr, reqs, base, staged, [], orig)
  {
    forall b: nat, i: nat | InRow(indptr, |reqs|, b, i) ensures indptr[b] + i < |orig| {
      RowPositionsDiffer(indptr, |reqs|, |orig|, b, i, b, i);
    }
  }

  /** One needed block: written when it is staged and its position does not run past its row. */
  lemma FirstPassStep(orig: seq<nat>, indptr: seq<nat>, reqs: seq<string>, base: nat, staged: map<BlockRef, nat>,
                      needed: seq<Touch>, t: Touch, out: seq<nat>)
    requires RowsOk(indptr, |reqs|, |orig|) && Distinct(reqs)
    requires FirstPass(orig, indptr, reqs, base, staged, needed, out)
    ensures var w := StagedWrite(indptr, reqs, base, staged, t);
      && (w.Some? ==> w.value.pos < |out|)
      && FirstPass(orig, indptr, reqs, base, staged, needed + [t],
                   if w.Some? then out[w.value.pos := w.value.val] else out)
  {
    assert |reqs| < |indptr| && |out| == |orig|;
    hide RowsOk, Distinct;
    var w := StagedWrite(indptr, reqs, base, staged, t);
    if w.Some? {
      StagedPosition(orig, indptr, reqs, base, staged, t);
      var out' := out[w.value.pos := w.value.val];
      forall b: nat, i: nat | InRow(indptr, |reqs|, b, i)
        ensures indptr[b] + i < |out'|
        ensures out'[indptr[b] + i] == RowEntry(orig, indptr, reqs, base, staged, needed + [t], b, i)
      {
        StagedHere(orig, indptr, reqs, base, staged, needed, t, out, b, i);
      }
    } else {
      forall b: nat, i: nat | InRow(indptr, |reqs|, b, i)
        ensures RowEntry(orig, indptr, reqs, base, staged, needed + [t], b, i)
          == RowEntry(orig, indptr, reqs, base, staged, needed, b, i)
      {
        NotStagedHere(orig, indptr, reqs, base, staged, needed, t, b, i);
      }
    }
  }

  lemma StagedPosition(orig: seq<nat>, indptr: seq<nat>, reqs: seq<string>, base: nat, staged: map<BlockRef, nat>,
                       t: Touch)
    requires RowsOk(indptr, |reqs|, |orig|) && StagedWrite(indptr, reqs, base, staged, t).Some?
    ensures var w := StagedWrite(indptr, reqs, base, staged, t).value;
      && w.pos < |orig| && t.block >= 0 && t.req in reqs && InRow(indptr, |reqs|, RowOf(reqs, t.req), t.block)
      && w.pos == indptr[RowOf(reqs, t.req)] + t.block && !OutsideRows(indptr, |reqs|, w.pos)
      && BlockRef(t.req, t.block) in staged && w.val == base + staged[BlockRef(t.req, t.block)]
  {
    var b := RowOf(reqs, t.req);
    assert InRow(indptr, |reqs|, b, t.block);
    RowPositionsDiffer(indptr, |reqs|, |orig|, b, t.block, b, t.block);
  }

  /** A written block's position. */
  lemma StagedHere(orig: seq<nat>, indptr: seq<nat>, reqs: seq<string>, base: nat, staged: map<BlockRef, nat>,
                   needed: seq<Touch>, t: Touch, out: seq<nat>, b: nat, i: nat)
    requires RowsOk(indptr, |reqs|, |orig|) && Distinct(reqs) && InRow(indptr, |reqs|, b, i) && |out| == |orig|
    requires indptr[b] + i < |out| && out[indptr[b] + i] == RowEntry(orig, indptr, reqs, base, staged, needed, b, i)
    requires StagedWrite(indptr, reqs, base, staged, t).Some?
    ensures var w := StagedWrite(indptr, reqs, base, staged, t).value;
      && w.pos < |out|
      && out[w.pos := w.val][indptr[b] + i] == RowEntry(orig, indptr, reqs, base, staged, needed + [t], b, i)
  {
    StagedPosition(orig, indptr, reqs, base, staged, t);
    hide StagedWrite;
    RowPositionsDiffer(indptr, |reqs|, |orig|, b, i, RowOf(reqs, t.req), t.block);
    assert Touch(reqs[b], i) in needed + [t] <==> Touch(reqs[b], i) in needed || Touch(reqs[b], i) == t;
    if reqs[b] == t.req {
      assert b == RowOf(reqs, t.req);
    }
  }

  /** A block that is not written belongs to no row position that would show it. */
  lemma NotStagedHere(orig: seq<nat>, indptr: seq<nat>, reqs: seq<string>, base: nat, staged: map<BlockRef, nat>,
                      needed: seq<Touch>, t: Touch, b: nat, i: nat)
    requires RowsOk(indptr, |reqs|, |orig|) && Distinct(reqs) && InRow(indptr, |reqs|, b, i)
    requires StagedWrite(indptr, reqs, base, staged, t).None?
    ensures RowEntry(orig, indptr, reqs, base, staged, needed + [t], b, i)
      == RowEntry(orig, indptr, reqs, base, staged, needed, b, i)
  {
    RowPositionsDiffer(indptr, |reqs|, |orig|, b, i, b, i);
    assert Touch(reqs[b], i) in needed + [t] <==> Touch(reqs[b], i) in needed || Touch(reqs[b], i) == t;
    if reqs[b] == t.req {
      assert b == RowOf(reqs, t.req);
    }
  }

  /** When rows do not overlap and no request comes twice, the first pass stays inside the array and
      writes each needed block's slot to its own position. */
  lemma {:induction false} FirstPassWrites(orig: seq<nat>, indptr: seq<nat>, reqs: seq<string>, base: nat,
                                           staged: map<BlockRef, nat>, needed: seq<Touch>, n: nat)
    requires RowsOk(indptr, |reqs|, |orig|) && Distinct(reqs) && n <= |needed|
    ensures var ws := StagedWrites(indptr, reqs, base, staged, needed, n);
      Fit(ws, |orig|) && FirstPass(orig, indptr, reqs, base, staged, needed[..n], Apply(orig, ws, |ws|))
  {
    assert |reqs| < |indptr|;
    hide FirstPass, RowsOk, StagedWrite, Distinct, Apply;
    if n == 0 {
      FirstPassStart(orig, indptr, reqs, base, staged);
      ApplyNothing(orig);
      assert needed[..0] == [];
    } else {
      FirstPassWrites(orig, indptr, reqs, base, staged, needed, n - 1);
      var ws := StagedWrites(indptr, reqs, base, staged, needed, n - 1);
      FirstPassOneMore(orig, indptr, reqs, base, staged, needed[..n - 1], needed[n - 1], ws);
      assert needed[..n] == needed[..n - 1] + [needed[n - 1]];
    }
  }

  lemma FirstPassOneMore(orig: seq<nat>, indptr: seq<nat>, reqs: seq<string>, base: nat, staged: map<BlockRef, nat>,
                         needed: seq<Touch>, t: Touch, ws: seq<Write>)
    requires RowsOk(indptr, |reqs|, |orig|) && Distinct(reqs) && Fit(ws, |orig|)
    requires FirstPass(orig, indptr, reqs, base, staged, needed, Apply(orig, ws, |ws|))
    ensures var w := StagedWrite(indptr, reqs, base, staged, t);
      var ws' := if w.Some? then ws + [w.value] else ws;
      Fit(ws', |orig|) && FirstPass(orig, indptr, reqs, base, staged, needed + [t], Apply(orig, ws', |ws'|))
  {
    assert |reqs| < |indptr|;
    hide FirstPass, RowsOk, StagedWrite, Distinct, Apply;
    FirstPassStep(orig, indptr, reqs, base, staged, needed, t, Apply(orig, ws, |ws|));
    var w := StagedWrite(indptr, reqs, base, staged, t);
    if w.Some? {
      ApplySnoc(orig, ws, w.value);
    }
  }

  lemma ApplyNothing(a: seq<nat>)
    ensures Apply(a, [], 0) == a
  {
  }

  lemma {:induction false} ApplySnoc(a: seq<nat>, ws: seq<Write>, w: Write)
    requires Fit(ws, |a|) && w.pos < |a|
    ensures Fit(ws + [w], |a|) && Apply(a, ws + [w], |ws| + 1) == Apply(a, ws, |ws|)[w.pos := w.val]
  {
    var more := ws + [w];
    assert more[|ws|] == w && |more| == |ws| + 1;
    ApplyPrefix(a, ws, more, |ws|);
    assert Apply(a, more, |more|) == Apply(a, more, |ws|)[w.pos := w.val];
  }

  lemma {:induction false} ApplyPrefix(a: seq<nat>, ws: seq<Write>, more: seq<Write>, n: nat)
    requires n <= |ws| && ws <= more && Fit(ws, |a|) && Fit(more, |a|)
    ensures Apply(a, ws, n) == Apply(a, more, n)
  {
    if n > 0 { ApplyPrefix(a, ws, more, n - 1); }
  }

  /** The batch row of a request: of several of the same name, the last. */
  function RowOf(reqs: seq<string>, q: string): (b: nat)
    requires q in reqs
    ensures b < |reqs| && reqs[b] == q && forall c :: b < c < |reqs| ==> reqs[c] != q
  {
    if reqs[|reqs| - 1] == q then |reqs| - 1 else RowOf(reqs[..|reqs| - 1], q)
  }

  /** What the first pass writes for one needed block: nothing unless it was just staged, its request is in
      the batch and the position does not run past the request's row. */
  function StagedWrite(indptr: seq<nat>, reqs: seq<string>, base: nat, staged: map<BlockRef, nat>, t: Touch)
    : (w: Option<Write>)
    requires |reqs| < |indptr|
  {
    if t.block < 0 || BlockRef(t.req, t.block) !in staged || t.req !in reqs then None
    else
      var b := RowOf(reqs, t.req);
      if indptr[b] + t.block >= indptr[b + 1] then None
      else Some(Write(indptr[b] + t.block, base + staged[BlockRef(t.req, t.block)]))
  }

  function StagedWrites(indptr: seq<nat>, reqs: seq<string>, base: nat, staged: map<BlockRef, nat>, needed: seq<Touch>,
                        n: nat)
    : (ws: seq<Write>)
    requires |reqs| < |indptr| && n <= |needed|
  {
    if n == 0 then []
    else
      var ws, w := StagedWrites(indptr, reqs, base, staged, needed, n - 1), StagedWrite(indptr, reqs, base, staged,
            needed[n - 1]);
      if w.Some? then ws + [w.value] else ws
  }

  ghost function Named(needed: seq<Touch>, staged: map<BlockRef, nat>): (s: set<BlockRef>) {
    set r | r in staged && Touch(r.req, r.idx) in needed
  }

  /** No request's tracked blocks have gaps. */
  ghost predicate NoGaps(blocks: map<BlockRef, Location>, reqs: seq<string>) {
    forall q :: q in reqs ==> exists n: nat :: Contiguous(blocks, q, n)
  }

  /** Position i of row b is fixed up to v. */
  ghost predicate FixesAt(blocks: map<BlockRef, Location>, reqs: seq<string>, indptr: seq<nat>, base: nat,
                          nullId: Option<nat>, b: nat, i: nat, v: nat)
    requires |reqs| < |indptr|
  {
    && InRow(indptr, |reqs|, b, i) && RowMatches(blocks, reqs, indptr, b)
    && Remedy(blocks, BlockRef(reqs[b], i), base, nullId) == Some(v)
  }

  /** Without gaps, the writes of the residency pass stay in their rows. */
  lemma WriteSource(blocks: map<BlockRef, Location>, reqs: seq<string>, indptr: seq<nat>, base: nat,
                    nullId: Option<nat>, size: nat, ws: seq<Write>, w: Write) returns (b: nat, i: nat)
    requires RowsOk(indptr, |reqs|, size) && NoGaps(blocks, reqs)
    requires Remedies(blocks, reqs, indptr, base, nullId, |reqs|, ws) && w in ws
    ensures InRow(indptr, |reqs|, b, i) && w.pos == indptr[b] + i < size
    ensures FixesAt(blocks, reqs, indptr, base, nullId, b, i, w.val)
  {
    hide RowCounts, Remedy;
    var r;
    b, r :| b < |reqs| && Fixes(blocks, reqs, indptr, base, nullId, b, r, w.val) && w.pos == indptr[b] + r.idx;
    i := r.idx;
    assert reqs[b] in reqs;
    CountsMatch(blocks, reqs, indptr, b);
    assert r == BlockRef(reqs[b], i);
    RowPositionsDiffer(indptr, |reqs|, size, b, i, b, i);
  }

  lemma WritePresent(blocks: map<BlockRef, Location>, reqs: seq<string>, indptr: seq<nat>, base: nat,
                     nullId: Option<nat>, ws: seq<Write>, b: nat, i: nat, v: nat)
    requires |reqs| < |indptr| && NoGaps(blocks, reqs) && Remedies(blocks, reqs, indptr, base, nullId, |reqs|, ws)
    requires FixesAt(blocks, reqs, indptr, base, nullId, b, i, v)
    ensures Write(indptr[b] + i, v) in ws
  {
    hide RowCounts;
    assert reqs[b] in reqs;
    CountsMatch(blocks, reqs, indptr, b);
    assert Fixes(blocks, reqs, indptr, base, nullId, b, BlockRef(reqs[b], i), v);
  }

  lemma FirstPassAt(orig: seq<nat>, indptr: seq<nat>, reqs: seq<string>, base: nat, staged: map<BlockRef, nat>,
                    needed: seq<Touch>, out: seq<nat>, b: nat, i: nat)
    requires RowsOk(indptr, |reqs|, |orig|) && FirstPass(orig, indptr, reqs, base, staged, needed, out)
    requires InRow(indptr, |reqs|, b, i)
    ensures indptr[b] + i < |out| == |orig|
    ensures out[indptr[b] + i] == var r := BlockRef(reqs[b], i);
      if r in Named(needed, staged) then base + staged[r] else orig[indptr[b] + i]
  {
  }

  lemma FirstPassOutside(orig: seq<nat>, indptr: seq<nat>, reqs: seq<string>, base: nat, staged: map<BlockRef, nat>,
                         needed: seq<Touch>, out: seq<nat>)
    requires RowsOk(indptr, |reqs|, |orig|) && FirstPass(orig, indptr, reqs, base, staged, needed, out)
    ensures |out| == |orig| && forall p: nat :: p < |orig| && OutsideRows(indptr, |reqs|, p) ==> out[p] == orig[p]
  {
  }

  /** One scatter: a position nobody writes stays, any other ends up with one of the values written to it. */
  ghost predicate Scattered(a: seq<nat>, ws: seq<Write>, out: seq<nat>) {
    && |out| == |a|
    && (forall p :: 0 <= p < |a| && (forall w :: w in ws ==> w.pos != p) ==> out[p] == a[p])
    && (forall p :: 0 <= p < |a| && (exists w :: w in ws && w.pos == p) ==> Write(p, out[p]) in ws)
  }

  /** The second pass turns the first pass's array into the final one. */
  lemma SecondPass(
      orig: seq<nat>, indptr: seq<nat>, reqs: seq<string>, blocks: map<BlockRef, Location>, base: nat,
      nullId: Option<nat>, needed: seq<Touch>, staged: map<BlockRef, nat>, mid: seq<nat>, ws: seq<Write>, out: seq<nat>)
    requires RowsOk(indptr, |reqs|, |orig|) && NoGaps(blocks, reqs)
    requires FirstPass(orig, indptr, reqs, base, staged, needed, mid)
    requires Remedies(blocks, reqs, indptr, base, nullId, |reqs|, ws) && Scattered(mid, ws, out)
    ensures Rewritten(orig, indptr, reqs, blocks, base, nullId, Named(needed, staged), staged, out)
  {
    hide RowsOk, FirstPass, Remedies, FixesAt, EntryAfter, Named, NoGaps;
    FirstPassOutside(orig, indptr, reqs, base, staged, needed, mid);
    NamedStaged(needed, staged);
    forall b: nat, i: nat | InRow(indptr, |reqs|, b, i)
      ensures indptr[b] + i < |out|
      ensures out[indptr[b] + i] == EntryAfter(orig, indptr, reqs, blocks, base, nullId, Named(needed, staged), staged,
                                               b, i)
    {
      SecondPassAt(orig, indptr, reqs, blocks, base, nullId, needed, staged, mid, ws, out, b, i);
    }
    forall p: nat | p < |orig| && OutsideRows(indptr, |reqs|, p) ensures out[p] == orig[p] {
      forall w | w in ws ensures w.pos != p {
        var b, i := WriteSource(blocks, reqs, indptr, base, nullId, |orig|, ws, w);
      }
    }
  }

  lemma SecondPassFits(indptr: seq<nat>, reqs: seq<string>, blocks: map<BlockRef, Location>, base: nat,
                       nullId: Option<nat>, ws: seq<Write>, size: nat)
    requires RowsOk(indptr, |reqs|, size) && NoGaps(blocks, reqs)
    requires Remedies(blocks, reqs, indptr, base, nullId, |reqs|, ws)
    ensures Fit(ws, size)
  {
    hide RowsOk, Remedies, FixesAt, NoGaps;
    forall w | w in ws ensures w.pos < size {
      var b, i := WriteSource(blocks, reqs, indptr, base, nullId, size, ws, w);
    }
  }

  lemma NamedStaged(needed: seq<Touch>, staged: map<BlockRef, nat>)
    ensures forall r :: r in Named(needed, staged) ==> r in staged
  {
  }

  lemma SecondPassAt(
      orig: seq<nat>, indptr: seq<nat>, reqs: seq<string>, blocks: map<BlockRef, Location>, base: nat,
      nullId: Option<nat>,
      needed: seq<Touch>, staged: map<BlockRef, nat>, mid: seq<nat>, ws: seq<Write>, out: seq<nat>, b: nat, i: nat)
    requires RowsOk(indptr, |reqs|, |orig|) && InRow(indptr, |reqs|, b, i) && NoGaps(blocks, reqs)
    requires FirstPass(orig, indptr, reqs, base, staged, needed, mid)
    requires Remedies(blocks, reqs, indptr, base, nullId, |reqs|, ws) && Scattered(mid, ws, out)
    ensures indptr[b] + i < |out|
    ensures out[indptr[b] + i] ==
      EntryAfter(orig, indptr, reqs, blocks, base, nullId, Named(needed, staged), staged, b, i)
  {
    hide RowsOk, FirstPass, Remedies, Contiguous, Remedy, Named, NoGaps;
    NamedStaged(needed, staged);
    FirstPassAt(orig, indptr, reqs, base, staged, needed, mid, b, i);
    var p, r := indptr[b] + i, BlockRef(reqs[b], i);
    forall w | w in ws && w.pos == p ensures FixesAt(blocks, reqs, indptr, base, nullId, b, i, w.val) {
      var c, j := WriteSource(blocks, reqs, indptr, base, nullId, |orig|, ws, w);
      RowPositionsDiffer(indptr, |reqs|, |orig|, b, i, c, j);
    }
    if RowMatches(blocks, reqs, indptr, b) && Remedy(blocks, r, base, nullId).Some? {
      var v := Remedy(blocks, r, base, nullId).value;
      WritePresent(blocks, reqs, indptr, base, nullId, ws, b, i, v);
      assert Write(p, v) in ws && Write(p, v).pos == p;
      assert Write(p, out[p]) in ws && Write(p, out[p]).pos == p;
    }
  }

  // ------------------------------------------------------------------ patch_paged_kv_indices_with_staging

  /** A first pass of which `done` writes were made before one fell outside the array, or all of them. */
  ghost predicate PassedUpTo(a: seq<nat>, ws: seq<Write>, done: nat, ok: bool, out: seq<nat>) {
    && done <= |ws| && Fit(ws[..done], |a|) && out == Apply(a, ws[..done], done)
    && (ok <==> done == |ws|)
    && (!ok ==> ws[done].pos >= |a|)
  }

  /** What a call leaves in the array it works on, whatever it was given: the first pass's writes in order,
      then one scatter; the first position outside the array ends it. */
  ghost predicate PatchOutcome(
      orig: seq<nat>, indptr: seq<nat>, reqs: seq<string>, blocks: map<BlockRef, Location>, base: nat,
      nullId: Option<nat>,
      staged: map<BlockRef, nat>, needed: seq<Touch>, done: nat, ws: seq<Write>, ok: bool, out: seq<nat>)
    requires |reqs| < |indptr|
  {
    var first := StagedWrites(indptr, reqs, base, staged, needed, |needed|);
    if done < |first| then !ok && PassedUpTo(orig, first, done, false, out)
    else
      && Fit(first, |orig|) && Remedies(blocks, reqs, indptr, base, nullId, |reqs|, ws)
      && (ok <==> Fit(ws, |orig|))
      && if ok then Scattered(Apply(orig, first, |first|), ws, out) else out == Apply(orig, first, |first|)
  }

  /** The blocks a selection needs, when the staging map makes them matter. */
  ghost predicate Discovered(sparse: Option<Sparse>, reqs: seq<string>, page: nat, staged: map<BlockRef, nat>,
                             needed: seq<Touch>)
    requires SparseOk(sparse) && page > 0 && (staged == map[] || !SparseMisfit(sparse, |reqs|))
  {
    if sparse.None? || staged == map[] then needed == []
    else
      && Distinct(needed)
      && (forall t :: t in needed <==>
            t in NeededUpTo(reqs, sparse.value.idx, page, FirstHeadEnd(sparse.value.len, sparse.value.idx.d2)))
  }

  /** Where rows lie one after the other inside the array, no request comes twice and tracked blocks have
      no gaps, a call succeeds and rewrites the array position by position. */
  lemma PatchRewrites(
      orig: seq<nat>, indptr: seq<nat>, reqs: seq<string>, blocks: map<BlockRef, Location>, page: nat, base: nat,
      nullId: Option<nat>, sparse: Option<Sparse>, staged: map<BlockRef, nat>, needed: seq<Touch>, done: nat,
      ws: seq<Write>, ok: bool, out: seq<nat>)
    requires RowsOk(indptr, |reqs|, |orig|) && Distinct(reqs) && NoGaps(blocks, reqs)
    requires SparseOk(sparse) && page > 0 && (staged == map[] || !SparseMisfit(sparse, |reqs|))
    requires Discovered(sparse, reqs, page, staged, needed)
    requires PatchOutcome(orig, indptr, reqs, blocks, base, nullId, staged, needed, done, ws, ok, out)
    ensures ok
    ensures var used := if staged == map[] then None else sparse;
      Rewritten(orig, indptr, reqs, blocks, base, nullId, Fetched(used, reqs, page, staged), staged, out)
  {
    assert |reqs| < |indptr|;
    hide RowsOk, FirstPass, Remedies, Rewritten, NoGaps, Scattered, Apply, StagedWrites, PatchOutcome, Discovered,
         Fetched, Named;
    var first := StagedWrites(indptr, reqs, base, staged, needed, |needed|);
    FirstPassWrites(orig, indptr, reqs, base, staged, needed, |needed|);
    assert needed[..|needed|] == needed;
    OutcomeFits(orig, indptr, reqs, blocks, base, nullId, staged, needed, done, ws, ok, out);
    SecondPassFits(indptr, reqs, blocks, base, nullId, ws, |orig|);
    SecondPass(orig, indptr, reqs, blocks, base, nullId, needed, staged, Apply(orig, first, |first|), ws, out);
    DiscoveredIsFetched(sparse, reqs, page, staged, needed);
  }

  /** A first pass that fits leads to the second. */
  lemma OutcomeFits(
      orig: seq<nat>, indptr: seq<nat>, reqs: seq<string>, blocks: map<BlockRef, Location>, base: nat,
      nullId: Option<nat>,
      staged: map<BlockRef, nat>, needed: seq<Touch>, done: nat, ws: seq<Write>, ok: bool, out: seq<nat>)
    requires |reqs| < |indptr| && Fit(StagedWrites(indptr, reqs, base, staged, needed, |needed|), |orig|)
    requires PatchOutcome(orig, indptr, reqs, blocks, base, nullId, staged, needed, done, ws, ok, out)
    ensures var first := StagedWrites(indptr, reqs, base, staged, needed, |needed|);
      && Remedies(blocks, reqs, indptr, base, nullId, |reqs|, ws) && (ok <==> Fit(ws, |orig|))
      && (ok ==> Scattered(Apply(orig, first, |first|), ws, out))
  {
    hide Remedies, Scattered, Apply, StagedWrites;
    var first := StagedWrites(indptr, reqs, base, staged, needed, |needed|);
    forall i | 0 <= i < |first| ensures first[i].pos < |orig| {
      assert first[i] in first;
    }
  }

  lemma DiscoveredIsFetched(sparse: Option<Sparse>, reqs: seq<string>, page: nat, staged: map<BlockRef, nat>,
                            needed: seq<Touch>)
    requires SparseOk(sparse) && page > 0 && (staged == map[] || !SparseMisfit(sparse, |reqs|))
    requires Discovered(sparse, reqs, page, staged, needed)
    ensures Fetched(if staged == map[] then None else sparse, reqs, page, staged) == Named(needed, staged)
  {
    hide NeededUpTo, Distinct;
  }

  method PatchPagedKvIndices(
      indices: array<nat>, indptr: seq<nat>, reqs: seq<string>, sparse: Option<Sparse>, page: nat, base: nat,
      residency: ResidencyTable, staged: map<BlockRef, nat>, nullId: Option<nat>, inplace: bool)
    returns (res: Result<array<nat>>, ghost needed: seq<Touch>, ghost done: nat, ghost ws: seq<Write>,
             ghost out: array<nat>)
    requires residency.Valid() && SparseOk(sparse) && page > 0
    modifies indices
    ensures res == Err(ValueError) <==> |indptr| < |reqs| + 1 || (staged != map[] && SparseMisfit(sparse, |reqs|))
    ensures res == Err(ValueError) ==> indices[..] == old(indices[..])
    ensures if inplace then out == indices else fresh(out) && indices[..] == old(indices[..])
    ensures res == Ok(out) || res == Err(IndexError) || res == Err(ValueError)
    ensures res != Err(ValueError) ==>
      && Discovered(sparse, reqs, page, staged, needed)
      && PatchOutcome(old(indices[..]), indptr, reqs, residency.blocks, base, nullId, staged, needed, done, ws, res.Ok?,
                      out[..])
  {
    hide Agree, Remedies, NeededUpTo, StagedWrites, Apply, Scattered, PassedUpTo;
    ghost var orig := indices[..];
    needed, done, ws := [], 0, [];
    var work := indices;
    if !inplace {
      work := new nat[indices.Length];
    }
    out := work;
    if |indptr| < |reqs| + 1 { return Err(ValueError), needed, done, ws, out; }
    var todo: seq<Touch> := [];
    if sparse.Some? && staged != map[] {
      var found := CollectNeededBlockRefs(reqs, sparse.value.idx, sparse.value.len, page);
      if found.Err? { return Err(ValueError), needed, done, ws, out; }
      todo := found.value;
    }
    needed := todo;
    if !inplace {
      for k := 0 to indices.Length
        modifies work
        invariant work[..k] == orig[..k]
      {
        work[k] := indices[k];
      }
    }
    assert work[..] == orig;
    var ok;
    ok, done := WriteStaged(work, indptr, reqs, base, staged, todo);
    ghost var first := StagedWrites(indptr, reqs, base, staged, todo, |todo|);
    PassedAll(orig, first, done, ok, work[..]);
    if !ok { return Err(IndexError), needed, done, ws, out; }
    var pairs := CollectRemedies(residency, reqs, indptr, base, nullId);
    ws := pairs;
    ok := Scatter(work, pairs);
    if !ok { return Err(IndexError), needed, done, ws, out; }
    return Ok(work), needed, done, ws, out;
  }

  lemma PassedAll(a: seq<nat>, ws: seq<Write>, done: nat, ok: bool, out: seq<nat>)
    requires PassedUpTo(a, ws, done, ok, out)
    ensures ok ==> done == |ws| && Fit(ws, |a|) && out == Apply(a, ws, |ws|)
    ensures !ok ==> done < |ws|
  {
    assert ws[..|ws|] == ws;
  }

  lemma PassedOneMore(indptr: seq<nat>, reqs: seq<string>, base: nat, staged: map<BlockRef, nat>, needed: seq<Touch>,
                      k: nat, a: seq<nat>, out: seq<nat>)
    requires |reqs| < |indptr| && k < |needed|
    requires var ws := StagedWrites(indptr, reqs, base, staged, needed, k); PassedUpTo(a, ws, |ws|, true, out)
    ensures var ws', w := StagedWrites(indptr, reqs, base, staged, needed, k + 1), StagedWrite(indptr, reqs, base,
          staged, needed[k]);
      && (w.None? ==> PassedUpTo(a, ws', |ws'|, true, out))
      && (w.Some? && w.value.pos < |out| ==> PassedUpTo(a, ws', |ws'|, true, out[w.value.pos := w.value.val]))
      && (w.Some? && w.value.pos >= |out| ==> |ws'| > 0 && PassedUpTo(a, ws', |ws'| - 1, false, out))
  {
    hide StagedWrite;
    var ws := StagedWrites(indptr, reqs, base, staged, needed, k);
    var w := StagedWrite(indptr, reqs, base, staged, needed[k]);
    assert ws[..|ws|] == ws;
    if w.Some? {
      var ws' := ws + [w.value];
      assert ws'[..|ws'|] == ws' && ws'[..|ws|] == ws;
      if w.value.pos < |a| { ApplySnoc(a, ws, w.value); }
    }
  }

  lemma {:induction false} PassStopped(indptr: seq<nat>, reqs: seq<string>, base: nat, staged: map<BlockRef, nat>,
                                       needed: seq<Touch>, k: nat, n: nat, a: seq<nat>, done: nat, out: seq<nat>)
    requires |reqs| < |indptr| && k <= n <= |needed|
    requires PassedUpTo(a, StagedWrites(indptr, reqs, base, staged, needed, k), done, false, out)
    ensures PassedUpTo(a, StagedWrites(indptr, reqs, base, staged, needed, n), done, false, out)
  {
    hide StagedWrite;
    if k < n {
      PassStopped(indptr, reqs, base, staged, needed, k, n - 1, a, done, out);
      var ws := StagedWrites(indptr, reqs, base, staged, needed, n - 1);
      var more := StagedWrites(indptr, reqs, base, staged, needed, n);
      assert more[..done] == ws[..done] && more[done] == ws[done];
    }
  }

  /** The first pass; false when a position lies outside the array. */
  method WriteStaged(out: array<nat>, indptr: seq<nat>, reqs: seq<string>, base: nat, staged: map<BlockRef, nat>,
                     needed: seq<Touch>)
    returns (ok: bool, ghost done: nat)
    requires |reqs| < |indptr|
    modifies out
    ensures PassedUpTo(old(out[..]), StagedWrites(indptr, reqs, base, staged, needed, |needed|), done, ok, out[..])
  {
    ghost var orig := out[..];
    done := 0;
    for k := 0 to |needed|
      invariant var ws := StagedWrites(indptr, reqs, base, staged, needed, k); PassedUpTo(orig, ws, |ws|, true, out[..])
    {
      hide PassedUpTo, StagedWrites;
      PassedOneMore(indptr, reqs, base, staged, needed, k, orig, out[..]);
      PassedLength(orig, StagedWrites(indptr, reqs, base, staged, needed, k), out[..]);
      var w := StagedWrite(indptr, reqs, base, staged, needed[k]);
      if w.Some? {
        if w.value.pos >= out.Length {
          done := |StagedWrites(indptr, reqs, base, staged, needed, k + 1)| - 1;
          PassStopped(indptr, reqs, base, staged, needed, k + 1, |needed|, orig, done, out[..]);
          return false, done;
        }
        ghost var before := out[..];
        out[w.value.pos] := w.value.val;
        assert out[..] == before[w.value.pos := w.value.val];
      }
    }
    return true, |StagedWrites(indptr, reqs, base, staged, needed, |needed|)|;
  }

  lemma PassedLength(a: seq<nat>, ws: seq<Write>, out: seq<nat>)
    requires PassedUpTo(a, ws, |ws|, true, out)
    ensures |out| == |a|
  {
  }

  /** The scatter; false, and nothing written, when a position lies outside the array. */
  method Scatter(out: array<nat>, ws: seq<Write>) returns (ok: bool)
    modifies out
    ensures ok <==> Fit(ws, out.Length)
    ensures if ok then Scattered(old(out[..]), ws, out[..]) else out[..] == old(out[..])
  {
    for k := 0 to |ws|
      invariant forall j :: 0 <= j < k ==> ws[j].pos < out.Length
      invariant out[..] == old(out[..])
    {
      if ws[k].pos >= out.Length {
        assert ws[k] in ws;
        return false;
      }
    }
    for k := 0 to |ws|
      invariant Scattered(old(out[..]), ws[..k], out[..])
    {
      ghost var before := out[..];
      out[ws[k].pos] := ws[k].val;
      assert ws[..k + 1] == ws[..k] + [ws[k]];
      assert out[..] == before[ws[k].pos := ws[k].val];
      ScatteredOneMore(old(out[..]), ws[..k], ws[k], before);
    }
    assert ws[..|ws|] == ws;
    return true;
  }

  lemma ScatteredOneMore(a: seq<nat>, ws: seq<Write>, w: Write, out: seq<nat>)
    requires Scattered(a, ws, out) && w.pos < |a|
    ensures Scattered(a, ws + [w], out[w.pos := w.val])
  {
    var ws', out' := ws + [w], out[w.pos := w.val];
    forall p | 0 <= p < |a| && (forall x :: x in ws' ==> x.pos != p) ensures out'[p] == a[p] {
      assert w in ws';
      forall x | x in ws ensures x.pos != p {
        assert x in ws';
      }
    }
    forall p | 0 <= p < |a| && (exists x :: x in ws' && x.pos == p) ensures Write(p, out'[p]) in ws' {
      if p != w.pos {
        var x :| x in ws' && x.pos == p;
        assert x in ws;
      }
    }
  }
}
