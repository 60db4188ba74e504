/** The vectorised index rewrite against the loop over positions that it replaced. */
module PatchLoop {
  import opened Blocks
  import opened Residencies
  import opened Engine
  import opened Patching
  import opened PatchedView

  /** The per-position loop gives position i of row b the page its block's residency calls for. */
  ghost predicate LoopFixes(blocks: map<BlockRef, Location>, reqs: seq<string>, indptr: seq<nat>, base: nat,
                            nullId: Option<nat>, b: nat, i: nat, v: nat)
    requires |reqs| < |indptr|
  {
    InRow(indptr, |reqs|, b, i) && Remedy(blocks, BlockRef(reqs[b], i), base, nullId) == Some(v)
  }

  ghost predicate LoopPair(blocks: map<BlockRef, Location>, reqs: seq<string>, indptr: seq<nat>, base: nat,
                           nullId: Option<nat>, w: Write)
    requires |reqs| < |indptr|
  {
    exists b: nat, i: nat :: LoopFixes(blocks, reqs, indptr, base, nullId, b, i, w.val) && w.pos == indptr[b] + i
  }

  /** What the loop writes: every row position whose block is off the GPU, rows matching or not. */
  ghost function LoopPairs(blocks: map<BlockRef, Location>, reqs: seq<string>, indptr: seq<nat>, base: nat,
                           nullId: Option<nat>)
    : (s: iset<Write>)
    requires |reqs| < |indptr|
  {
    iset w: Write | LoopPair(blocks, reqs, indptr, base, nullId, w)
  }

  ghost predicate CountPair(blocks: map<BlockRef, Location>, reqs: seq<string>, indptr: seq<nat>, base: nat,
                            nullId: Option<nat>, w: Write)
    requires |reqs| < |indptr|
  {
    exists b: nat, r :: Fixes(blocks, reqs, indptr, base, nullId, b, r, w.val) && w.pos == indptr[b] + r.idx
  }

  /** What the rewrite scatters: the rows whose length is the number of the request's tracked blocks, each
      block off the GPU placed by its own index, which may lie outside the row. */
  ghost function CountPairs(blocks: map<BlockRef, Location>, reqs: seq<string>, indptr: seq<nat>, base: nat,
                            nullId: Option<nat>)
    : (s: iset<Write>)
    requires |reqs| < |indptr|
  {
    iset w: Write | CountPair(blocks, reqs, indptr, base, nullId, w)
  }

  /** The array after exactly these writes, of which no two go to one position. */
  ghost predicate Written(a: seq<nat>, pairs: iset<Write>, out: seq<nat>) {
    && |out| == |a|
    && (forall w :: w in pairs ==> w.pos < |a| && out[w.pos] == w.val)
    && (forall p :: 0 <= p < |a| && (forall w :: w in pairs ==> w.pos != p) ==> out[p] == a[p])
  }

  ghost predicate OnePerPosition(pairs: iset<Write>, size: nat) {
    && (forall w :: w in pairs ==> w.pos < size)
    && (forall w, x :: w in pairs && x in pairs && w.pos == x.pos ==> w == x)
  }

  lemma LoopPairsFit(indptr: seq<nat>, reqs: seq<string>, size: nat, blocks: map<BlockRef, Location>, base: nat,
                     nullId: Option<nat>)
    requires RowsOk(indptr, |reqs|, size)
    ensures OnePerPosition(LoopPairs(blocks, reqs, indptr, base, nullId), size)
  {
    var pairs := LoopPairs(blocks, reqs, indptr, base, nullId);
    forall w, x | w in pairs && x in pairs ensures w.pos < size && (w.pos == x.pos ==> w == x) {
      hide RowsOk, Remedy;
      var b: nat, i: nat :| LoopFixes(blocks, reqs, indptr, base, nullId, b, i, w.val) && w.pos == indptr[b] + i;
      var c: nat, j: nat :| LoopFixes(blocks, reqs, indptr, base, nullId, c, j, x.val) && x.pos == indptr[c] + j;
      RowPositionsDiffer(indptr, |reqs|, size, b, i, c, j);
    }
  }

  ghost predicate Lists(ws: seq<Write>, pairs: iset<Write>) {
    forall w :: w in ws <==> w in pairs
  }

  lemma RemediesAreCountPairs(blocks: map<BlockRef, Location>, reqs: seq<string>, indptr: seq<nat>, base: nat,
                              nullId: Option<nat>, ws: seq<Write>)
    requires |reqs| < |indptr|
    ensures Remedies(blocks, reqs, indptr, base, nullId, |reqs|, ws) <==>
      Lists(ws, CountPairs(blocks, reqs, indptr, base, nullId))
  {
    hide Remedies, Lists;
    if Remedies(blocks, reqs, indptr, base, nullId, |reqs|, ws) {
      RemediesListed(blocks, reqs, indptr, base, nullId, ws);
    }
    if Lists(ws, CountPairs(blocks, reqs, indptr, base, nullId)) {
      ListedRemedies(blocks, reqs, indptr, base, nullId, ws);
    }
  }

  lemma RemediesListed(blocks: map<BlockRef, Location>, reqs: seq<string>, indptr: seq<nat>, base: nat,
                       nullId: Option<nat>, ws: seq<Write>)
    requires |reqs| < |indptr| && Remedies(blocks, reqs, indptr, base, nullId, |reqs|, ws)
    ensures Lists(ws, CountPairs(blocks, reqs, indptr, base, nullId))
  {
    hide Remedies, CountPair;
    forall w ensures w in ws <==> CountPair(blocks, reqs, indptr, base, nullId, w) {
      if w in ws {
        ListedIsCounted(blocks, reqs, indptr, base, nullId, ws, w);
      }
      if CountPair(blocks, reqs, indptr, base, nullId, w) {
        CountedIsListed(blocks, reqs, indptr, base, nullId, ws, w);
      }
    }
  }

  lemma ListedIsCounted(blocks: map<BlockRef, Location>, reqs: seq<string>, indptr: seq<nat>, base: nat,
                        nullId: Option<nat>, ws: seq<Write>, w: Write)
    requires |reqs| < |indptr| && Remedies(blocks, reqs, indptr, base, nullId, |reqs|, ws) && w in ws
    ensures CountPair(blocks, reqs, indptr, base, nullId, w)
  {
    hide Fixes;
  }

  lemma CountedIsListed(blocks: map<BlockRef, Location>, reqs: seq<string>, indptr: seq<nat>, base: nat,
                        nullId: Option<nat>, ws: seq<Write>, w: Write)
    requires |reqs| < |indptr| && Remedies(blocks, reqs, indptr, base, nullId, |reqs|, ws)
    requires CountPair(blocks, reqs, indptr, base, nullId, w)
    ensures w in ws
  {
    hide Remedies, RowCounts, Remedy;
    var b: nat, r :| Fixes(blocks, reqs, indptr, base, nullId, b, r, w.val) && w.pos == indptr[b] + r.idx;
    RemedyListed(blocks, reqs, indptr, base, nullId, ws, b, r, w.val);
  }

  lemma RemedyListed(blocks: map<BlockRef, Location>, reqs: seq<string>, indptr: seq<nat>, base: nat,
                     nullId: Option<nat>, ws: seq<Write>, b: nat, r: BlockRef, v: nat)
    requires |reqs| < |indptr| && Remedies(blocks, reqs, indptr, base, nullId, |reqs|, ws)
    requires Fixes(blocks, reqs, indptr, base, nullId, b, r, v)
    ensures Write(indptr[b] + r.idx, v) in ws
  {
    hide RowCounts, Remedy;
  }

  lemma ListedRemedies(blocks: map<BlockRef, Location>, reqs: seq<string>, indptr: seq<nat>, base: nat,
                       nullId: Option<nat>, ws: seq<Write>)
    requires |reqs| < |indptr| && Lists(ws, CountPairs(blocks, reqs, indptr, base, nullId))
    ensures Remedies(blocks, reqs, indptr, base, nullId, |reqs|, ws)
  {
    hide RowCounts, Remedy;
    forall w | w in ws
      ensures exists b: nat, r ::
        b < |reqs| && Fixes(blocks, reqs, indptr, base, nullId, b, r, w.val) && w.pos == indptr[b] + r.idx
    {
      assert CountPair(blocks, reqs, indptr, base, nullId, w);
    }
    forall b: nat, r, v: nat | b < |reqs| && Fixes(blocks, reqs, indptr, base, nullId, b, r, v)
      ensures Write(indptr[b] + r.idx, v) in ws
    {
      assert CountPair(blocks, reqs, indptr, base, nullId, Write(indptr[b] + r.idx, v));
    }
  }

  /** Scattering a list of the pairs is writing them. */
  lemma ScatterIsWritten(a: seq<nat>, ws: seq<Write>, pairs: iset<Write>, out: seq<nat>)
    requires OnePerPosition(pairs, |a|) && Lists(ws, pairs) && Scattered(a, ws, out)
    ensures Fit(ws, |a|) && Written(a, pairs, out)
  {
    forall w | w in pairs ensures w.pos < |a| && out[w.pos] == w.val {
      assert w in ws;
      var x := Write(w.pos, out[w.pos]);
      assert x in ws && x in pairs;
    }
  }

  lemma {:induction false} ApplyScatters(a: seq<nat>, ws: seq<Write>, n: nat)
    requires n <= |ws| && Fit(ws, |a|)
    ensures Scattered(a, ws[..n], Apply(a, ws, n))
  {
    hide Scattered;
    if n == 0 {
      ScatteredNothing(a);
      assert ws[..0] == [];
    } else {
      ApplyScatters(a, ws, n - 1);
      assert ws[n - 1] in ws && ws[..n] == ws[..n - 1] + [ws[n - 1]];
      ScatteredOneMore(a, ws[..n - 1], ws[n - 1], Apply(a, ws, n - 1));
    }
  }

  lemma ScatteredNothing(a: seq<nat>)
    ensures Scattered(a, [], a)
  {
  }

  /** A pair too many can be the last one written. */
  lemma ExtraPairShows(ws: seq<Write>, pairs: iset<Write>, w: Write, size: nat) returns (a: seq<nat>)
    requires OnePerPosition(pairs, size) && w in ws && w !in pairs && Fit(ws, size)
    ensures |a| == size && Fit(ws + [w], size) && !Written(a, pairs, Apply(a, ws + [w], |ws| + 1))
  {
    a := seq(size, _ => w.val + 1);
    ApplySnoc(a, ws, w);
    hide Apply;
    var out := Apply(a, ws + [w], |ws| + 1);
    assert out[w.pos] == w.val != a[w.pos];
    if x :| x in pairs && x.pos == w.pos {
      assert x.val != w.val;
    }
  }

  /** A pair that is missing is missed. */
  lemma MissingPairShows(ws: seq<Write>, pairs: iset<Write>, w: Write, size: nat) returns (a: seq<nat>)
    requires OnePerPosition(pairs, size) && w in pairs && w !in ws && Fit(ws, size)
    ensures |a| == size && !Written(a, pairs, Apply(a, ws, |ws|))
  {
    a := seq(size, _ => w.val + 1);
    ApplyScatters(a, ws, |ws|);
    assert ws[..|ws|] == ws;
    hide Apply;
    var out := Apply(a, ws, |ws|);
    assert out[w.pos] != w.val by {
      if exists x :: x in ws && x.pos == w.pos {
        assert Write(w.pos, out[w.pos]) in ws;
      }
    }
  }

  /** The pairs of a scatter can be listed. */
  lemma {:induction false} SetAsList(s: set<Write>) returns (ws: seq<Write>)
    ensures forall w :: w in ws <==> w in s
  {
    if s == {} {
      ws := [];
    } else {
      var w :| w in s;
      var rest := SetAsList(s - {w});
      ws := rest + [w];
    }
  }

  ghost predicate Fixed(blocks: map<BlockRef, Location>, reqs: seq<string>, indptr: seq<nat>, base: nat,
                        nullId: Option<nat>, b: nat, r: BlockRef)
    requires |reqs| < |indptr|
  {
    && b < |reqs| && r in blocks && r.req == reqs[b] && RowCounts(blocks, reqs, indptr, b)
    && Remedy(blocks, r, base, nullId).Some?
  }

  lemma CountPairsListed(blocks: map<BlockRef, Location>, reqs: seq<string>, indptr: seq<nat>, base: nat,
                         nullId: Option<nat>)
    returns (ws: seq<Write>)
    requires |reqs| < |indptr|
    ensures Lists(ws, CountPairs(blocks, reqs, indptr, base, nullId))
  {
    hide RowCounts, Remedy;
    var s := set b: nat, r | b < |reqs| && r in blocks && Fixed(blocks, reqs, indptr, base, nullId, b, r) ::
      Write(indptr[b] + r.idx, Remedy(blocks, r, base, nullId).value);
    ws := SetAsList(s);
    forall w ensures w in s <==> CountPair(blocks, reqs, indptr, base, nullId, w) {
      if w in s {
        var b: nat, r :| b < |reqs| && r in blocks && Fixed(blocks, reqs, indptr, base, nullId, b, r)
          && w == Write(indptr[b] + r.idx, Remedy(blocks, r, base, nullId).value);
        assert Fixes(blocks, reqs, indptr, base, nullId, b, r, w.val);
      }
      if CountPair(blocks, reqs, indptr, base, nullId, w) {
        var b: nat, r :| Fixes(blocks, reqs, indptr, base, nullId, b, r, w.val) && w.pos == indptr[b] + r.idx;
        assert Fixed(blocks, reqs, indptr, base, nullId, b, r);
      }
    }
  }

  /** A call without staged blocks that scatters this list. */
  lemma CallExists(indptr: seq<nat>, reqs: seq<string>, blocks: map<BlockRef, Location>, base: nat, nullId: Option<nat>,
                   orig: seq<nat>, ws: seq<Write>) returns (ok: bool, out: seq<nat>)
    requires |reqs| < |indptr| && Lists(ws, CountPairs(blocks, reqs, indptr, base, nullId))
    ensures PatchOutcome(orig, indptr, reqs, blocks, base, nullId, map[], [], 0, ws, ok, out)
    ensures ok <==> Fit(ws, |orig|)
    ensures ok ==> out == Apply(orig, ws, |ws|)
  {
    hide Remedies, Scattered, Lists, CountPairs;
    RemediesAreCountPairs(blocks, reqs, indptr, base, nullId, ws);
    ApplyNothing(orig);
    if forall w :: w in ws ==> w.pos < |orig| {
      ok, out := true, Apply(orig, ws, |ws|);
      ApplyScatters(orig, ws, |ws|);
      assert ws[..|ws|] == ws;
    } else {
      ok, out := false, orig;
    }
  }

  /** Every call without staged blocks, on every array of the size, succeeds and leaves what the loop leaves. */
  ghost predicate AlwaysAsLoop(indptr: seq<nat>, reqs: seq<string>, size: nat, blocks: map<BlockRef, Location>,
                               base: nat, nullId: Option<nat>)
    requires |reqs| < |indptr|
  {
    forall orig: seq<nat>, ws: seq<Write>, ok: bool, out: seq<nat> ::
      |orig| == size && PatchOutcome(orig, indptr, reqs, blocks, base, nullId, map[], [], 0, ws, ok, out) ==>
        ok && Written(orig, LoopPairs(blocks, reqs, indptr, base, nullId), out)
  }

  /** The vectorised rewrite does what the per-position loop does, on every array of the size, if and only if
      the two have the same pairs: each tracked block off the GPU of a row that counts right lies where the
      loop writes the same page, and each position the loop writes is such a block's. */
  lemma PatchEqualsLoopIff(indptr: seq<nat>, reqs: seq<string>, size: nat, blocks: map<BlockRef, Location>, base: nat,
                           nullId: Option<nat>)
    requires RowsOk(indptr, |reqs|, size)
    ensures AlwaysAsLoop(indptr, reqs, size, blocks, base, nullId) <==>
      CountPairs(blocks, reqs, indptr, base, nullId) == LoopPairs(blocks, reqs, indptr, base, nullId)
  {
    assert |reqs| < |indptr|;
    hide RowsOk, CountPairs, LoopPairs;
    LoopPairsFit(indptr, reqs, size, blocks, base, nullId);
    if CountPairs(blocks, reqs, indptr, base, nullId) == LoopPairs(blocks, reqs, indptr, base, nullId) {
      SamePairsAsLoop(indptr, reqs, size, blocks, base, nullId);
    } else {
      OtherPairsShow(indptr, reqs, size, blocks, base, nullId);
    }
  }

  lemma SamePairsAsLoop(indptr: seq<nat>, reqs: seq<string>, size: nat, blocks: map<BlockRef, Location>, base: nat,
                        nullId: Option<nat>)
    requires |reqs| < |indptr| && OnePerPosition(LoopPairs(blocks, reqs, indptr, base, nullId), size)
    requires CountPairs(blocks, reqs, indptr, base, nullId) == LoopPairs(blocks, reqs, indptr, base, nullId)
    ensures AlwaysAsLoop(indptr, reqs, size, blocks, base, nullId)
  {
    hide CountPairs, LoopPairs, Remedies, Scattered, Written, Apply;
    var pairs := LoopPairs(blocks, reqs, indptr, base, nullId);
    forall orig: seq<nat>, ws: seq<Write>, ok: bool, out: seq<nat> |
      |orig| == size && PatchOutcome(orig, indptr, reqs, blocks, base, nullId, map[], [], 0, ws, ok, out)
      ensures ok && Written(orig, pairs, out)
    {
      ApplyNothing(orig);
      RemediesAreCountPairs(blocks, reqs, indptr, base, nullId, ws);
      assert Fit(ws, size);
      ScatterIsWritten(orig, ws, pairs, out);
    }
  }

  lemma OtherPairsShow(indptr: seq<nat>, reqs: seq<string>, size: nat, blocks: map<BlockRef, Location>, base: nat,
                       nullId: Option<nat>)
    requires |reqs| < |indptr| && OnePerPosition(LoopPairs(blocks, reqs, indptr, base, nullId), size)
    requires CountPairs(blocks, reqs, indptr, base, nullId) != LoopPairs(blocks, reqs, indptr, base, nullId)
    ensures !AlwaysAsLoop(indptr, reqs, size, blocks, base, nullId)
  {
    hide CountPairs, LoopPairs, PatchOutcome, Written, Apply, OnePerPosition;
    var count, loop := CountPairs(blocks, reqs, indptr, base, nullId), LoopPairs(blocks, reqs, indptr, base, nullId);
    var ws := CountPairsListed(blocks, reqs, indptr, base, nullId);
    if !Fit(ws, size) {
      var orig: seq<nat> := seq(size, _ => 0);
      var ok, out := CallExists(indptr, reqs, blocks, base, nullId, orig, ws);
    } else if w :| w in count && w !in loop {
      var orig := ExtraPairShows(ws, loop, w, size);
      var last := ws + [w];
      assert Lists(last, count);
      var ok, out := CallExists(indptr, reqs, blocks, base, nullId, orig, last);
    } else {
      var w :| w in loop && w !in count;
      var orig := MissingPairShows(ws, loop, w, size);
      var ok, out := CallExists(indptr, reqs, blocks, base, nullId, orig, ws);
    }
  }

  /** Nothing to fix up in the row. */
  ghost predicate RowAtHome(blocks: map<BlockRef, Location>, reqs: seq<string>, indptr: seq<nat>, base: nat,
                            nullId: Option<nat>, b: nat)
    requires b < |reqs| < |indptr|
  {
    forall i: nat :: InRow(indptr, |reqs|, b, i) ==> Remedy(blocks, BlockRef(reqs[b], i), base, nullId) == None
  }

  /** Without gaps the pairs of counted rows lie in their rows, so they are the loop's if and only if every row
      matches the tracked blocks or has nothing to fix up. */
  lemma GaplessPatchEqualsLoopIff(indptr: seq<nat>, reqs: seq<string>, size: nat, blocks: map<BlockRef, Location>,
                                  base: nat, nullId: Option<nat>)
    requires RowsOk(indptr, |reqs|, size) && NoGaps(blocks, reqs)
    ensures AlwaysAsLoop(indptr, reqs, size, blocks, base, nullId) <==>
      forall b :: 0 <= b < |reqs| ==>
        RowMatches(blocks, reqs, indptr, b) || RowAtHome(blocks, reqs, indptr, base, nullId, b)
  {
    assert |reqs| < |indptr|;
    PatchEqualsLoopIff(indptr, reqs, size, blocks, base, nullId);
    hide AlwaysAsLoop, RowsOk, NoGaps, RowMatches, RowAtHome, CountPairs, LoopPairs;
    CountedAreLooped(indptr, reqs, blocks, base, nullId);
    var count, loop := CountPairs(blocks, reqs, indptr, base, nullId), LoopPairs(blocks, reqs, indptr, base, nullId);
    if count == loop {
      forall b: nat | b < |reqs| && !RowAtHome(blocks, reqs, indptr, base, nullId, b)
        ensures RowMatches(blocks, reqs, indptr, b)
      {
        LoopedRowMatches(indptr, reqs, size, blocks, base, nullId, b);
      }
    } else {
      var w :| w in loop && w !in count;
      var b := UncountedRow(indptr, reqs, blocks, base, nullId, w);
    }
  }

  lemma GaplessSource(indptr: seq<nat>, reqs: seq<string>, blocks: map<BlockRef, Location>, base: nat,
                      nullId: Option<nat>, b: nat, r: BlockRef, v: nat)
    requires |reqs| < |indptr| && NoGaps(blocks, reqs) && Fixes(blocks, reqs, indptr, base, nullId, b, r, v)
    ensures RowMatches(blocks, reqs, indptr, b) && LoopFixes(blocks, reqs, indptr, base, nullId, b, r.idx, v)
  {
    hide RowCounts, Remedy;
    assert reqs[b] in reqs;
    CountsMatch(blocks, reqs, indptr, b);
    assert r == BlockRef(reqs[b], r.idx);
  }

  lemma CountedAreLooped(indptr: seq<nat>, reqs: seq<string>, blocks: map<BlockRef, Location>, base: nat,
                         nullId: Option<nat>)
    requires |reqs| < |indptr| && NoGaps(blocks, reqs)
    ensures CountPairs(blocks, reqs, indptr, base, nullId) <= LoopPairs(blocks, reqs, indptr, base, nullId)
  {
    hide RowCounts, Remedy, NoGaps, RowMatches, InRow;
    forall w | CountPair(blocks, reqs, indptr, base, nullId, w)
      ensures LoopPair(blocks, reqs, indptr, base, nullId, w)
    {
      var b: nat, r :| Fixes(blocks, reqs, indptr, base, nullId, b, r, w.val) && w.pos == indptr[b] + r.idx;
      GaplessSource(indptr, reqs, blocks, base, nullId, b, r, w.val);
    }
  }

  /** If the loop's pairs are all counted, a row it writes to matches. */
  lemma LoopedRowMatches(indptr: seq<nat>, reqs: seq<string>, size: nat, blocks: map<BlockRef, Location>, base: nat,
                         nullId: Option<nat>, b: nat)
    requires RowsOk(indptr, |reqs|, size) && NoGaps(blocks, reqs) && b < |reqs|
    requires LoopPairs(blocks, reqs, indptr, base, nullId) <= CountPairs(blocks, reqs, indptr, base, nullId)
    requires !RowAtHome(blocks, reqs, indptr, base, nullId, b)
    ensures RowMatches(blocks, reqs, indptr, b)
  {
    assert |reqs| < |indptr|;
    hide RowsOk, NoGaps, RowMatches, Remedy, RowCounts;
    var i: nat :| InRow(indptr, |reqs|, b, i) && Remedy(blocks, BlockRef(reqs[b], i), base, nullId) != None;
    var w := Write(indptr[b] + i, Remedy(blocks, BlockRef(reqs[b], i), base, nullId).value);
    assert LoopFixes(blocks, reqs, indptr, base, nullId, b, i, w.val) && w.pos == indptr[b] + i;
    assert w in LoopPairs(blocks, reqs, indptr, base, nullId);
    assert CountPair(blocks, reqs, indptr, base, nullId, w);
    var c: nat, r :| Fixes(blocks, reqs, indptr, base, nullId, c, r, w.val) && w.pos == indptr[c] + r.idx;
    GaplessSource(indptr, reqs, blocks, base, nullId, c, r, w.val);
    RowPositionsDiffer(indptr, |reqs|, size, b, i, c, r.idx);
  }

  lemma UncountedRow(indptr: seq<nat>, reqs: seq<string>, blocks: map<BlockRef, Location>, base: nat,
                     nullId: Option<nat>, w: Write) returns (b: nat)
    requires |reqs| < |indptr| && NoGaps(blocks, reqs)
    requires w in LoopPairs(blocks, reqs, indptr, base, nullId) && w !in CountPairs(blocks, reqs, indptr, base, nullId)
    ensures b < |reqs| && !RowMatches(blocks, reqs, indptr, b) && !RowAtHome(blocks, reqs, indptr, base, nullId, b)
  {
    hide RowCounts;
    var i: nat;
    b, i :| LoopFixes(blocks, reqs, indptr, base, nullId, b, i, w.val) && w.pos == indptr[b] + i;
    if RowMatches(blocks, reqs, indptr, b) {
      MatchedIsCounted(indptr, reqs, blocks, base, nullId, w, b, i);
    }
  }

  lemma MatchedIsCounted(indptr: seq<nat>, reqs: seq<string>, blocks: map<BlockRef, Location>, base: nat,
                         nullId: Option<nat>, w: Write, b: nat, i: nat)
    requires |reqs| < |indptr| && NoGaps(blocks, reqs) && LoopFixes(blocks, reqs, indptr, base, nullId, b, i, w.val)
    requires w.pos == indptr[b] + i && RowMatches(blocks, reqs, indptr, b)
    ensures w in CountPairs(blocks, reqs, indptr, base, nullId)
  {
    hide RowCounts;
    assert reqs[b] in reqs;
    CountsMatch(blocks, reqs, indptr, b);
    assert Fixes(blocks, reqs, indptr, base, nullId, b, BlockRef(reqs[b], i), w.val);
  }

  /** In every state of a run tracked blocks have no gaps. */
  lemma EngineHasNoGaps(cfg: Config, s: State, reqs: seq<string>)
    requires Inv(cfg, s)
    ensures NoGaps(s.core.table.blocks, reqs)
  {
    hide Inv, Contiguous;
    forall q | q in reqs ensures exists n: nat :: Contiguous(s.core.table.blocks, q, n) {
      BlocksAreContiguous(cfg, s, q);
    }
  }

  /** So in every state of a run the condition is the one on rows. */
  lemma ReachablePatchEqualsLoopIff(cfg: Config, s: State, indptr: seq<nat>, reqs: seq<string>, size: nat,
                                    nullId: Option<nat>)
    requires Inv(cfg, s) && RowsOk(indptr, |reqs|, size)
    ensures AlwaysAsLoop(indptr, reqs, size, s.core.table.blocks, cfg.base, nullId) <==>
      forall b :: 0 <= b < |reqs| ==>
        || RowMatches(s.core.table.blocks, reqs, indptr, b)
        || RowAtHome(s.core.table.blocks, reqs, indptr, cfg.base, nullId, b)
  {
    hide Inv, AlwaysAsLoop, NoGaps, RowMatches, RowAtHome;
    EngineHasNoGaps(cfg, s, reqs);
    GaplessPatchEqualsLoopIff(indptr, reqs, size, s.core.table.blocks, cfg.base, nullId);
  }

  // ------------------------------------------------------------------ tables with gaps

  /** Nothing to fix up in the row, yet the rewrite writes outside it: blocks 0 and 5 are tracked, the row has
      two positions, and block 5 is on the CPU. */
  lemma GapWritesOutside(q: string, base: nat, nullId: nat)
    ensures var gpu := Location(GPU, Some(0), None, None, true);
      var cpu := Location(CPU, Some(1), Some(0), None, true);
      var blocks := map[BlockRef(q, 0) := gpu, BlockRef(q, 5) := cpu];
      && RowAtHome(blocks, [q], [0, 2], base, Some(nullId), 0)
      && !AlwaysAsLoop([0, 2], [q], 6, blocks, base, Some(nullId))
  {
    var gpu, cpu := Location(GPU, Some(0), None, None, true), Location(CPU, Some(1), Some(0), None, true);
    var blocks := map[BlockRef(q, 0) := gpu, BlockRef(q, 5) := cpu];
    var w := Write(5, nullId);
    assert BlocksOf(blocks, q) == {BlockRef(q, 0), BlockRef(q, 5)};
    assert Fixes(blocks, [q], [0, 2], base, Some(nullId), 0, BlockRef(q, 5), w.val);
    assert w in CountPairs(blocks, [q], [0, 2], base, Some(nullId));
    assert w !in LoopPairs(blocks, [q], [0, 2], base, Some(nullId));
    PatchEqualsLoopIff([0, 2], [q], 6, blocks, base, Some(nullId));
  }

  /** The tracked blocks are not the row's positions, yet the rewrite does what the loop does: blocks 0 and 2
      are tracked, and only block 0 is off the GPU. */
  lemma GapDoesNoHarm(q: string, base: nat, nullId: Option<nat>)
    ensures var staged := Location(STAGING, Some(0), Some(0), Some(0), true);
      var gpu := Location(GPU, Some(1), None, None, true);
      var blocks := map[BlockRef(q, 0) := staged, BlockRef(q, 2) := gpu];
      && !RowMatches(blocks, [q], [0, 2], 0) && !RowAtHome(blocks, [q], [0, 2], base, nullId, 0)
      && AlwaysAsLoop([0, 2], [q], 2, blocks, base, nullId)
  {
    var staged, gpu := Location(STAGING, Some(0), Some(0), Some(0), true), Location(GPU, Some(1), None, None, true);
    var blocks := map[BlockRef(q, 0) := staged, BlockRef(q, 2) := gpu];
    assert BlocksOf(blocks, q) == {BlockRef(q, 0), BlockRef(q, 2)};
    assert BlockRef(q, 1) !in blocks;
    assert InRow([0, 2], 1, 0, 0) && Remedy(blocks, BlockRef(q, 0), base, nullId) == Some(base);
    var w := Write(0, base);
    forall x ensures x in CountPairs(blocks, [q], [0, 2], base, nullId) <==> x == w {
      assert Fixes(blocks, [q], [0, 2], base, nullId, 0, BlockRef(q, 0), w.val);
    }
    forall x ensures x in LoopPairs(blocks, [q], [0, 2], base, nullId) <==> x == w {
      assert LoopFixes(blocks, [q], [0, 2], base, nullId, 0, 0, w.val);
    }
    PatchEqualsLoopIff([0, 2], [q], 2, blocks, base, nullId);
  }
}
