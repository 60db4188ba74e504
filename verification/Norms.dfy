/** Page norms: the per-layer form, and the fused kernel that must equal it. The square root is a
    parameter: nothing here depends on its values. */
module Norms {
  import opened Blocks
  import opened Layout

  function SumSq(v: seq<real>): (x: real) {
    if v == [] then 0.0 else SumSq(v[..|v| - 1]) + v[|v| - 1] * v[|v| - 1]
  }

  /** What a sum is: totals that start at 0 and grow by one term at a time end at x. */
  ghost predicate IsSum(terms: seq<real>, x: real) {
    exists totals: seq<real> :: RunningTotals(terms, totals) && totals[|terms|] == x
  }

  ghost predicate RunningTotals(terms: seq<real>, totals: seq<real>) {
    && |totals| == |terms| + 1 && totals[0] == 0.0
    && (forall i :: 0 <= i < |terms| ==> totals[i + 1] == totals[i] + terms[i])
  }

  lemma EmptySum()
    ensures IsSum([], 0.0)
  {
    assert RunningTotals([], [0.0]);
  }

  lemma SumSnoc(terms: seq<real>, x: real, y: real)
    requires IsSum(terms, x)
    ensures IsSum(terms + [y], x + y)
  {
    var totals :| RunningTotals(terms, totals) && totals[|terms|] == x;
    assert RunningTotals(terms + [y], totals + [x + y]);
  }

  /** There is only one. */
  lemma {:induction false} SumIsUnique(terms: seq<real>, x: real, y: real)
    requires IsSum(terms, x) && IsSum(terms, y)
    ensures x == y
  {
    var a :| RunningTotals(terms, a) && a[|terms|] == x;
    var b :| RunningTotals(terms, b) && b[|terms|] == y;
    for i := 0 to |terms|
      invariant a[i] == b[i]
    {
    }
  }

  /** What a mean is: taken once per term, it makes up the sum. */
  ghost predicate IsMean(terms: seq<real>, x: real) {
    terms != [] && exists total :: IsSum(terms, total) && total == |terms| as real * x
  }

  lemma SumOverCount(terms: seq<real>, total: real, mean: real)
    requires terms != [] && IsSum(terms, total) && mean == total / |terms| as real
    ensures IsMean(terms, mean)
  {
    hide IsSum;
    assert |terms| as real * mean == total;
  }

  function Square(x: real): (y: real) {
    x * x
  }

  function Squares(v: seq<real>): (s: seq<real>)
    ensures |s| == |v| && forall i :: 0 <= i < |v| ==> s[i] == Square(v[i])
  {
    seq(|v|, i requires 0 <= i < |v| => Square(v[i]))
  }

  lemma SumSqSnoc(v: seq<real>)
    requires v != []
    ensures SumSq(v) == SumSq(v[..|v| - 1]) + Square(v[|v| - 1])
  {
  }

  lemma {:induction false} SumSqSums(v: seq<real>)
    ensures IsSum(Squares(v), SumSq(v))
  {
    hide IsSum, Square;
    if v == [] {
      EmptySum();
      assert Squares(v) == [];
    } else {
      SumSqSnoc(v);
      hide SumSq;
      var n := |v| - 1;
      SumSqSums(v[..n]);
      SumSnoc(Squares(v[..n]), SumSq(v[..n]), Square(v[n]));
      assert Squares(v) == Squares(v[..n]) + [Square(v[n])];
    }
  }

  /** Sum over the first n tokens of a head of the norm of a channel range. */
  function NormSum(root: real -> real, head: seq<Vec>, lo: nat, hi: nat, n: nat): (x: real)
    requires lo <= hi && n <= |head|
  {
    if n == 0 then 0.0 else NormSum(root, head, lo, hi, n - 1) + root(SumSq(Cut(head[n - 1], lo, hi)))
  }

  /** Mean over tokens of the per-token norms (not the norm of the mean). */
  function MeanNorm(root: real -> real, head: seq<Vec>, lo: nat, hi: nat): (x: real)
    requires lo <= hi && 0 < |head|
  {
    NormSum(root, head, lo, hi, |head|) / |head| as real
  }

  /** The norms of the first n tokens of a head over a channel range. */
  function TokenNorms(root: real -> real, head: seq<Vec>, lo: nat, hi: nat, n: nat): (s: seq<real>)
    requires lo <= hi && n <= |head|
    ensures |s| == n && forall t :: 0 <= t < n ==> s[t] == root(SumSq(Cut(head[t], lo, hi)))
  {
    seq(n, t requires 0 <= t < n => root(SumSq(Cut(head[t], lo, hi))))
  }

  lemma {:induction false} NormSumSums(root: real -> real, head: seq<Vec>, lo: nat, hi: nat, n: nat)
    requires lo <= hi && n <= |head|
    ensures IsSum(TokenNorms(root, head, lo, hi, n), NormSum(root, head, lo, hi, n))
  {
    hide SumSq, IsSum;
    if n == 0 {
      EmptySum();
    } else {
      NormSumSums(root, head, lo, hi, n - 1);
      var last := root(SumSq(Cut(head[n - 1], lo, hi)));
      SumSnoc(TokenNorms(root, head, lo, hi, n - 1), NormSum(root, head, lo, hi, n - 1), last);
      assert TokenNorms(root, head, lo, hi, n) == TokenNorms(root, head, lo, hi, n - 1) + [last];
    }
  }

  /** A head's norm is the mean over its tokens of the root of the sum of the squared channels. */
  lemma MeanNormMeans(root: real -> real, head: seq<Vec>, lo: nat, hi: nat)
    requires lo <= hi && 0 < |head|
    ensures IsMean(TokenNorms(root, head, lo, hi, |head|), MeanNorm(root, head, lo, hi))
    ensures forall t :: 0 <= t < |head| ==> IsSum(Squares(Cut(head[t], lo, hi)), SumSq(Cut(head[t], lo, hi)))
  {
    hide IsSum, IsMean, SumSq, NormSum;
    NormSumSums(root, head, lo, hi, |head|);
    SumOverCount(TokenNorms(root, head, lo, hi, |head|), NormSum(root, head, lo, hi, |head|),
                 MeanNorm(root, head, lo, hi));
    forall t | 0 <= t < |head| ensures IsSum(Squares(Cut(head[t], lo, hi)), SumSq(Cut(head[t], lo, hi))) {
      SumSqSums(Cut(head[t], lo, hi));
    }
  }

  // ------------------------------------------------------------------ grid addressing

  /** Program pid works on head pid mod H, block (pid / H) mod B, layer (pid / H) / B. */
  datatype Cell = Cell(layer: nat, block: nat, head: nat)

  function CellOf(pid: nat, b: nat, h: nat): (c: Cell)
    requires b > 0 && h > 0
  {
    Cell((pid / h) / b, (pid / h) % b, pid % h)
  }

  /** Where a cell's two results go. */
  function OutOffset(c: Cell, b: nat, h: nat): (o: nat) {
    ((c.layer * b + c.block) * h + c.head) * 2
  }

  lemma CellBounds(pid: nat, l: nat, b: nat, h: nat)
    requires b > 0 && h > 0 && pid < l * b * h
    ensures var c := CellOf(pid, b, h); c.layer < l && c.block < b && c.head < h
  {
    DivBelow(pid, l * b, h);
    DivBelow(pid / h, l, b);
  }

  lemma DivBelow(x: nat, n: nat, m: nat)
    requires m > 0 && x < n * m
    ensures x / m < n
  {
    if x / m >= n {
      MulMono(n, x / m, m);
      assert false;
    }
  }

  /** The output offset of program pid is 2 * pid, so no two programs write the same place. */
  lemma OffsetIsTwicePid(pid: nat, b: nat, h: nat)
    requires b > 0 && h > 0
    ensures OutOffset(CellOf(pid, b, h), b, h) == 2 * pid
  {
    var rest := pid / h;
    assert (rest / b) * b + rest % b == rest;
    assert rest * h + pid % h == pid;
  }

  /** Every cell is some program's cell. */
  function PidOf(c: Cell, b: nat, h: nat): (pid: nat) {
    (c.layer * b + c.block) * h + c.head
  }

  lemma PidRoundTrip(c: Cell, l: nat, b: nat, h: nat)
    requires c.layer < l && c.block < b && c.head < h
    ensures CellOf(PidOf(c, b, h), b, h) == c && PidOf(c, b, h) < l * b * h
  {
    var rest := c.layer * b + c.block;
    DivMod(rest, c.head, h);
    DivMod(c.layer, c.block, b);
    MulMono(c.layer + 1, l, b);
    assert rest + 1 <= l * b;
    MulMono(rest + 1, l * b, h);
  }

  lemma DivMod(q: nat, r: nat, m: nat)
    requires r < m
    ensures (q * m + r) / m == q && (q * m + r) % m == r
  {
    var x := q * m + r;
    var d, e := x / m, x % m;
    assert x == d * m + e;
    if d < q {
      MulMono(d + 1, q, m);
      assert false;
    }
    if d > q {
      MulMono(q + 1, d, m);
      assert false;
    }
  }

  // ------------------------------------------------------------------ the per-layer form

  /** Selected pages of one layer: per page and head, the mean norm of a channel range. */
  function BlockNorms(root: real -> real, cache: seq<Plane>, ids: seq<nat>, lo: nat, hi: nat): (r: seq<seq<real>>)
    requires lo <= hi && forall i :: 0 <= i < |ids| ==> ids[i] < |cache| && HeadsFilled(cache[ids[i]])
    ensures |r| == |ids|
    ensures forall i :: 0 <= i < |ids| ==> r[i] == PageNorms(root, cache[ids[i]], lo, hi)
  {
    seq(|ids|, i requires 0 <= i < |ids| => PageNorms(root, cache[ids[i]], lo, hi))
  }

  ghost predicate HeadsFilled(p: Plane) {
    forall h :: 0 <= h < |p| ==> 0 < |p[h]|
  }

  function PageNorms(root: real -> real, p: Plane, lo: nat, hi: nat): (r: seq<real>)
    requires lo <= hi && HeadsFilled(p)
    ensures |r| == |p| && forall h :: 0 <= h < |p| ==> r[h] == MeanNorm(root, p[h], lo, hi)
  {
    seq(|p|, h requires 0 <= h < |p| => MeanNorm(root, p[h], lo, hi))
  }

  // ------------------------------------------------------------------ the fused kernel

  datatype Strides = Strides(page: nat, head: nat, token: nat)

  function Address(st: Strides, p: nat, h: nat, t: nat): (a: nat) {
    p * st.page + h * st.head + t * st.token
  }

  lemma AddressIs(st: Strides, p: nat, h: nat, t: nat)
    ensures Address(st, p, h, t) == p * st.page + h * st.head + t * st.token
  {
  }

  ghost predicate RowsStored(flat: seq<real>, cache: seq<Plane>, d: Dims, st: Strides)
    requires PlanesShaped(cache, d)
  {
    forall p, h, t :: 0 <= p < |cache| && 0 <= h < d.heads && 0 <= t < d.tokens ==>
      && Address(st, p, h, t) + 2 * d.channels <= |flat|
      && flat[Address(st, p, h, t)..Address(st, p, h, t) + 2 * d.channels] == cache[p][h][t]
  }

  /** The flat buffer of a layer holds its pages at the given strides, channels contiguous. */
  ghost predicate Laid(flat: seq<real>, cache: seq<Plane>, d: Dims, st: Strides) {
    PlanesShaped(cache, d) && RowsStored(flat, cache, d, st)
  }

  lemma LaidShape(flat: seq<real>, cache: seq<Plane>, d: Dims, st: Strides, p: nat)
    requires Laid(flat, cache, d, st) && p < |cache|
    ensures |cache[p]| == d.heads && forall h :: 0 <= h < d.heads ==> |cache[p][h]| == d.tokens
  {
    assert PlaneShape(cache[p], d.heads, d.tokens, 2 * d.channels);
  }

  /** A masked load: lanes beyond the channel count read zero. */
  function Lanes(flat: seq<real>, at: nat, c: nat, width: nat): (v: seq<real>)
    requires at + c <= |flat| && c <= width
    ensures |v| == width
    ensures forall i :: 0 <= i < width ==> v[i] == if i < c then flat[at + i] else 0.0
  {
    seq(width, i requires 0 <= i < width => if i < c then flat[at + i] else 0.0)
  }

  lemma {:induction false} ZeroTail(v: seq<real>, c: nat)
    requires c <= |v| && forall i :: c <= i < |v| ==> v[i] == 0.0
    ensures SumSq(v) == SumSq(v[..c])
    decreases |v|
  {
    if c < |v| {
      var w := v[..|v| - 1];
      ZeroTail(w, c);
      assert w[..c] == v[..c];
    } else {
      assert v[..c] == v;
    }
  }

  /** The masked lanes sum to the sum over the channels they stand for. */
  lemma LanesSum(flat: seq<real>, cache: seq<Plane>, d: Dims, st: Strides, p: nat, h: nat, t: nat, lo: nat, width: nat)
    requires Laid(flat, cache, d, st) && p < |cache| && h < d.heads && t < d.tokens
    requires lo == 0 || lo == d.channels
    requires d.channels <= width
    ensures Address(st, p, h, t) + lo + d.channels <= |flat| && |cache[p]| == d.heads && |cache[p][h]| == d.tokens
    ensures SumSq(Lanes(flat, Address(st, p, h, t) + lo, d.channels, width)) == SumSq(Cut(cache[p][h][t], lo,
          lo + d.channels))
  {
    hide SumSq;
    var a, c := Address(st, p, h, t), d.channels;
    var vec := cache[p][h][t];
    assert flat[a..a + 2 * c] == vec;
    assert |vec| == 2 * c;
    var v := Lanes(flat, a + lo, c, width);
    ZeroTail(v, c);
    forall i | 0 <= i < c ensures v[i] == vec[lo + i] {
      assert flat[a + lo + i] == flat[a..a + 2 * c][lo + i];
    }
    assert v[..c] == Cut(vec, lo, lo + c);
  }

  /** One launch: the caches, the pages to score, and the grid's constants. */
  datatype Launch = Launch(d: Dims, st: Strides, flats: seq<seq<real>>, caches: seq<seq<Plane>>, ids: seq<nat>,
                           width: nat)

  ghost predicate LaunchOk(k: Launch) {
    && |k.flats| == |k.caches| == k.d.layers && 0 < |k.ids| && 0 < k.d.heads && 0 < k.d.tokens
    && k.d.channels <= k.width
    && (forall l :: 0 <= l < k.d.layers ==> Laid(k.flats[l], k.caches[l], k.d, k.st))
    && (forall l, b :: 0 <= l < k.d.layers && 0 <= b < |k.ids| ==> k.ids[b] < |k.caches[l]|)
  }

  function Programs(k: Launch): (n: nat) {
    k.d.layers * |k.ids| * k.d.heads
  }

  /** The mean norm of a cell's head, over the K half (lo = 0) or the V half (lo = C). */
  ghost function CellNorm(root: real -> real, k: Launch, pid: nat, lo: nat): (x: real)
    requires LaunchOk(k) && pid < Programs(k)
  {
    CellBounds(pid, k.d.layers, |k.ids|, k.d.heads);
    var c := CellOf(pid, |k.ids|, k.d.heads);
    var plane := k.caches[c.layer][k.ids[c.block]];
    assert Laid(k.flats[c.layer], k.caches[c.layer], k.d, k.st);
    assert PlaneShape(plane, k.d.heads, k.d.tokens, 2 * k.d.channels);
    MeanNorm(root, plane[c.head], lo, lo + k.d.channels)
  }

  /** The token loop of one program, with its two accumulators. */
  method HeadNorms(root: real -> real, flat: seq<real>, ghost cache: seq<Plane>, d: Dims, st: Strides, gid: nat,
                   head: nat, width: nat)
    returns (kMean: real, vMean: real)
    requires Laid(flat, cache, d, st) && gid < |cache| && head < d.heads && 0 < d.tokens && d.channels <= width
    ensures |cache[gid]| == d.heads && |cache[gid][head]| == d.tokens
    ensures kMean == MeanNorm(root, cache[gid][head], 0, d.channels)
    ensures vMean == MeanNorm(root, cache[gid][head], d.channels, 2 * d.channels)
  {
    hide PlanesShaped, RowsStored, SumSq, Lanes, Address, Cut;
    var c := d.channels;
    LaidShape(flat, cache, d, st, gid);
    ghost var rows := cache[gid][head];
    var accK, accV := 0.0, 0.0;
    for t := 0 to d.tokens
      invariant accK == NormSum(root, rows, 0, c, t) && accV == NormSum(root, rows, c, 2 * c, t)
    {
      LanesSum(flat, cache, d, st, gid, head, t, 0, width);
      LanesSum(flat, cache, d, st, gid, head, t, c, width);
      var at := gid * st.page + head * st.head + t * st.token;
      AddressIs(st, gid, head, t);
      accK := accK + root(SumSq(Lanes(flat, at, c, width)));
      accV := accV + root(SumSq(Lanes(flat, at + c, c, width)));
    }
    kMean, vMean := accK / d.tokens as real, accV / d.tokens as real;
  }

  /** The body of one program: find the cell, compute its two means, store them. */
  method Kernel(root: real -> real, k: Launch, pid: nat, out: array<real>)
    requires LaunchOk(k) && pid < Programs(k) && out.Length == 2 * Programs(k)
    modifies out
    ensures out[..] == old(out[..])[2 * pid := CellNorm(root, k, pid, 0)][2 * pid + 1 := CellNorm(root, k, pid,
          k.d.channels)]
  {
    CellBounds(pid, k.d.layers, |k.ids|, k.d.heads);
    OffsetIsTwicePid(pid, |k.ids|, k.d.heads);
    var head := pid % k.d.heads;
    var rest := pid / k.d.heads;
    var block := rest % |k.ids|;
    var layer := rest / |k.ids|;
    assert Laid(k.flats[layer], k.caches[layer], k.d, k.st);
    hide Laid;
    var kMean, vMean := HeadNorms(root, k.flats[layer], k.caches[layer], k.d, k.st, k.ids[block], head, k.width);
    var off := ((layer * |k.ids| + block) * k.d.heads + head) * 2;
    assert off == 2 * pid;
    hide Programs, LaunchOk;
    out[off] := kMean;
    out[off + 1] := vMean;
  }

  /** The programs may run in any order: every cell ends up with its own two norms. */
  method ScoreBlocksFused(root: real -> real, k: Launch, order: seq<nat>) returns (out: array<real>)
    requires LaunchOk(k)
    requires Distinct(order) && forall pid :: pid in order <==> 0 <= pid < Programs(k)
    ensures out.Length == 2 * Programs(k)
    ensures forall pid: nat :: pid < Programs(k) ==>
      out[2 * pid] == CellNorm(root, k, pid, 0) && out[2 * pid + 1] == CellNorm(root, k, pid, k.d.channels)
  {
    out := new real[2 * Programs(k)];
    for i := 0 to |order|
      invariant forall j :: 0 <= j < i ==>
        && order[j] < Programs(k)
        && out[2 * order[j]] == CellNorm(root, k, order[j], 0)
        && out[2 * order[j] + 1] == CellNorm(root, k, order[j], k.d.channels)
    {
      hide LaunchOk, CellNorm, Programs;
      assert order[i] in order;
      ghost var before := out[..];
      Kernel(root, k, order[i], out);
      assert forall x :: 0 <= x < out.Length && x != 2 * order[i] && x != 2 * order[i] + 1 ==> out[..][x] == before[x];
    }
    forall pid: nat | pid < Programs(k)
      ensures out[2 * pid] == CellNorm(root, k, pid, 0) && out[2 * pid + 1] == CellNorm(root, k, pid, k.d.channels)
    {
      assert pid in order;
      var j :| 0 <= j < |order| && order[j] == pid;
    }
  }

  /** The fused output agrees with the per-layer form, cell by cell. */
  lemma FusedEqualsPerLayer(root: real -> real, k: Launch, out: seq<real>, l: nat, b: nat, h: nat)
    requires LaunchOk(k) && |out| == 2 * Programs(k) && l < k.d.layers && b < |k.ids| && h < k.d.heads
    requires forall pid: nat :: pid < Programs(k) ==>
      out[2 * pid] == CellNorm(root, k, pid, 0) && out[2 * pid + 1] == CellNorm(root, k, pid, k.d.channels)
    ensures forall i :: 0 <= i < |k.ids| ==> k.ids[i] < |k.caches[l]| && HeadsFilled(k.caches[l][k.ids[i]])
    ensures var c, o := k.d.channels, OutOffset(Cell(l, b, h), |k.ids|, k.d.heads);
      && o + 1 < |out|
      && |PageNorms(root, k.caches[l][k.ids[b]], 0, c)| == k.d.heads
      && out[o] == BlockNorms(root, k.caches[l], k.ids, 0, c)[b][h]
      && out[o + 1] == BlockNorms(root, k.caches[l], k.ids, c, 2 * c)[b][h]
  {
    forall i | 0 <= i < |k.ids| ensures k.ids[i] < |k.caches[l]| && HeadsFilled(k.caches[l][k.ids[i]]) {
      assert Laid(k.flats[l], k.caches[l], k.d, k.st);
      assert PlaneShape(k.caches[l][k.ids[i]], k.d.heads, k.d.tokens, 2 * k.d.channels);
    }
    assert Laid(k.flats[l], k.caches[l], k.d, k.st);
    assert PlaneShape(k.caches[l][k.ids[b]], k.d.heads, k.d.tokens, 2 * k.d.channels);
    var cell := Cell(l, b, h);
    var pid := PidOf(cell, |k.ids|, k.d.heads);
    PidRoundTrip(cell, k.d.layers, |k.ids|, k.d.heads);
    OffsetIsTwicePid(pid, |k.ids|, k.d.heads);
    hide CellOf, LaunchOk, Laid;
    assert out[2 * pid] == CellNorm(root, k, pid, 0);
  }
}
