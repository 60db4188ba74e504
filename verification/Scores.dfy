/** From norms to scores: mean over layers, ||V|| / (||K|| + eps) per head, mean or minimum over heads. */
module Scores {
  import opened Blocks
  import opened Layout
  import opened Memory
  import opened Norms

  type Root = f: real -> real | forall x :: 0.0 <= f(x) witness ((x: real) => 0.0)
  type Pos = x: real | 0.0 < x witness 1.0

  datatype Reduction = OverMean | OverMin

  /** How pages are measured: the square root of the norms, eps, and the reduction over heads. */
  datatype Measure = Measure(root: Root, eps: Pos, reduction: Reduction)

  function SumOf(s: seq<real>): (x: real) {
    if s == [] then 0.0 else SumOf(s[..|s| - 1]) + s[|s| - 1]
  }

  function MeanOf(s: seq<real>): (x: real)
    requires s != []
  {
    SumOf(s) / |s| as real
  }

  function MinOf(s: seq<real>): (x: real)
    requires s != []
    ensures x in s && forall i :: 0 <= i < |s| ==> x <= s[i]
  {
    if |s| == 1 then s[0]
    else
      var m := MinOf(s[..|s| - 1]);
      if s[|s| - 1] < m then s[|s| - 1] else m
  }

  function Reduced(red: Reduction, s: seq<real>): (x: real)
    requires s != []
  {
    match red
    case OverMean => MeanOf(s)
    case OverMin => MinOf(s)
  }

  ghost predicate AllNonNegative(s: seq<real>) {
    forall i :: 0 <= i < |s| ==> 0.0 <= s[i]
  }

  lemma {:induction false} SumNonNegative(s: seq<real>)
    requires AllNonNegative(s)
    ensures 0.0 <= SumOf(s)
  {
    if s != [] { SumNonNegative(s[..|s| - 1]); }
  }

  lemma MeanNonNegative(s: seq<real>)
    requires s != [] && AllNonNegative(s)
    ensures 0.0 <= MeanOf(s)
  {
    SumNonNegative(s);
    DivNonNegative(SumOf(s), |s| as real);
  }

  lemma DivNonNegative(x: real, y: real)
    requires 0.0 <= x && 0.0 < y
    ensures 0.0 <= x / y
  {
  }

  lemma {:induction false} NormSumNonNegative(root: Root, head: seq<Vec>, lo: nat, hi: nat, n: nat)
    requires lo <= hi && n <= |head|
    ensures 0.0 <= NormSum(root, head, lo, hi, n)
  {
    if n > 0 { NormSumNonNegative(root, head, lo, hi, n - 1); }
  }

  lemma MeanNormNonNegative(root: Root, head: seq<Vec>, lo: nat, hi: nat)
    requires lo <= hi && 0 < |head|
    ensures 0.0 <= MeanNorm(root, head, lo, hi)
  {
    NormSumNonNegative(root, head, lo, hi, |head|);
    DivNonNegative(NormSum(root, head, lo, hi, |head|), |head| as real);
  }

  /** Per head, V over K. */
  function Ratios(eps: Pos, v: seq<real>, k: seq<real>): (r: seq<real>)
    requires |v| == |k| && AllNonNegative(k)
    ensures |r| == |v| && forall h :: 0 <= h < |v| ==> r[h] == v[h] / (k[h] + eps)
  {
    seq(|v|, h requires 0 <= h < |v| => v[h] / (k[h] + eps))
  }

  /** compute_block_scores for one block. */
  function BlockScore(eps: Pos, red: Reduction, v: seq<real>, k: seq<real>): (x: real)
    requires |v| == |k| && v != [] && AllNonNegative(k)
  {
    Reduced(red, Ratios(eps, v, k))
  }

  lemma {:induction false} SumOfSums(s: seq<real>)
    ensures IsSum(s, SumOf(s))
  {
    hide IsSum;
    if s == [] {
      EmptySum();
    } else {
      SumOfSums(s[..|s| - 1]);
      SumSnoc(s[..|s| - 1], SumOf(s[..|s| - 1]), s[|s| - 1]);
      assert s[..|s| - 1] + [s[|s| - 1]] == s;
    }
  }

  lemma MeanOfMeans(s: seq<real>)
    requires s != []
    ensures IsMean(s, MeanOf(s))
  {
    hide IsSum, IsMean, SumOf;
    SumOfSums(s);
    SumOverCount(s, SumOf(s), MeanOf(s));
  }

  /** A block's score from the ratios of its heads: the smallest of them, or their mean. */
  lemma BlockScoreMeans(eps: Pos, red: Reduction, v: seq<real>, k: seq<real>)
    requires |v| == |k| && v != [] && AllNonNegative(k)
    ensures red == OverMin ==>
      && (exists h :: 0 <= h < |v| && BlockScore(eps, red, v, k) == v[h] / (k[h] + eps))
      && (forall h :: 0 <= h < |v| ==> BlockScore(eps, red, v, k) <= v[h] / (k[h] + eps))
    ensures red == OverMean ==> IsMean(Ratios(eps, v, k), BlockScore(eps, red, v, k))
  {
    hide IsMean, SumOf, MeanOf;
    var r, x := Ratios(eps, v, k), BlockScore(eps, red, v, k);
    if red == OverMin {
      var h :| 0 <= h < |r| && r[h] == x;
      assert x == v[h] / (k[h] + eps);
    } else {
      MeanOfMeans(r);
    }
  }

  // ------------------------------------------------------------------ one page at a time

  ghost predicate Measurable(d: Dims, page: Page) {
    PageShape(d, page) && 0 < d.layers && 0 < d.heads && 0 < d.tokens
  }

  /** The norms of one head in all layers of a page. */
  function HeadNormsOf(m: Measure, d: Dims, page: Page, h: nat, lo: nat, hi: nat): (r: seq<real>)
    requires Measurable(d, page) && h < d.heads && lo <= hi
    ensures |r| == d.layers
    ensures forall l :: 0 <= l < d.layers ==>
      |page[l]| == d.heads && |page[l][h]| == d.tokens && r[l] == MeanNorm(m.root, page[l][h], lo, hi)
  {
    assert forall l :: 0 <= l < d.layers ==> PlaneShape(page[l], d.heads, d.tokens, 2 * d.channels);
    seq(d.layers, l requires 0 <= l < d.layers => MeanNorm(m.root, page[l][h], lo, hi))
  }

  /** Per head, the mean over layers. */
  function LayerMeans(m: Measure, d: Dims, page: Page, lo: nat, hi: nat): (r: seq<real>)
    requires Measurable(d, page) && lo <= hi
    ensures |r| == d.heads && forall h :: 0 <= h < d.heads ==> r[h] == MeanOf(HeadNormsOf(m, d, page, h, lo, hi))
  {
    seq(d.heads, h requires 0 <= h < d.heads => MeanOf(HeadNormsOf(m, d, page, h, lo, hi)))
  }

  lemma LayerMeansNonNegative(m: Measure, d: Dims, page: Page, lo: nat, hi: nat)
    requires Measurable(d, page) && lo <= hi
    ensures AllNonNegative(LayerMeans(m, d, page, lo, hi))
  {
    hide MeanNorm;
    forall h | 0 <= h < d.heads ensures 0.0 <= MeanOf(HeadNormsOf(m, d, page, h, lo, hi)) {
      var r := HeadNormsOf(m, d, page, h, lo, hi);
      forall l | 0 <= l < |r| ensures 0.0 <= r[l] {
        MeanNormNonNegative(m.root, page[l][h], lo, hi);
      }
      MeanNonNegative(r);
    }
  }

  /** What score_block observes for a page. */
  function PageScore(m: Measure, d: Dims, page: Page): (x: real)
    requires Measurable(d, page)
  {
    LayerMeansNonNegative(m, d, page, 0, d.channels);
    BlockScore(m.eps, m.reduction, LayerMeans(m, d, page, d.channels, 2 * d.channels),
               LayerMeans(m, d, page, 0, d.channels))
  }

  /** kn and vn are, per head, the mean over layers of the norms of a page's K half and of its V half. */
  ghost predicate AreHeadNorms(m: Measure, d: Dims, page: Page, kn: seq<real>, vn: seq<real>)
    requires Measurable(d, page)
  {
    && |kn| == |vn| == d.heads
    && (forall h :: 0 <= h < d.heads ==> IsMean(HeadNormsOf(m, d, page, h, 0, d.channels), kn[h]))
    && (forall h :: 0 <= h < d.heads ==> IsMean(HeadNormsOf(m, d, page, h, d.channels, 2 * d.channels), vn[h]))
  }

  lemma LayerMeansMean(m: Measure, d: Dims, page: Page, lo: nat, hi: nat)
    requires Measurable(d, page) && lo <= hi
    ensures |LayerMeans(m, d, page, lo, hi)| == d.heads
    ensures forall h :: 0 <= h < d.heads ==>
      IsMean(HeadNormsOf(m, d, page, h, lo, hi), LayerMeans(m, d, page, lo, hi)[h])
  {
    hide IsMean, MeanOf, MeanNorm, PageShape;
    forall h | 0 <= h < d.heads
      ensures IsMean(HeadNormsOf(m, d, page, h, lo, hi), LayerMeans(m, d, page, lo, hi)[h])
    {
      MeanOfMeans(HeadNormsOf(m, d, page, h, lo, hi));
    }
  }

  /** A page's score, from its contents: per head the norm of the V half over that of the K half (plus eps);
      then the smallest over heads, or the mean. */
  lemma PageScoreMeans(m: Measure, d: Dims, page: Page) returns (kn: seq<real>, vn: seq<real>)
    requires Measurable(d, page)
    ensures AreHeadNorms(m, d, page, kn, vn) && AllNonNegative(kn)
    ensures m.reduction == OverMin ==>
      && (exists h :: 0 <= h < d.heads && PageScore(m, d, page) == vn[h] / (kn[h] + m.eps))
      && (forall h :: 0 <= h < d.heads ==> PageScore(m, d, page) <= vn[h] / (kn[h] + m.eps))
    ensures m.reduction == OverMean ==> IsMean(Ratios(m.eps, vn, kn), PageScore(m, d, page))
  {
    hide IsMean, MeanOf, MeanNorm, BlockScore, PageShape, HeadNormsOf, LayerMeans;
    kn, vn := LayerMeans(m, d, page, 0, d.channels), LayerMeans(m, d, page, d.channels, 2 * d.channels);
    LayerMeansNonNegative(m, d, page, 0, d.channels);
    LayerMeansMean(m, d, page, 0, d.channels);
    LayerMeansMean(m, d, page, d.channels, 2 * d.channels);
    BlockScoreMeans(m.eps, m.reduction, vn, kn);
  }

  // ------------------------------------------------------------------ a whole batch

  /** A norm tensor [L, B, H]. */
  type NormTensor = seq<seq<seq<real>>>

  ghost predicate NormShape(t: NormTensor, l: nat, b: nat, h: nat) {
    && |t| == l
    && (forall x :: 0 <= x < l ==> |t[x]| == b)
    && (forall x, y :: 0 <= x < l && 0 <= y < b ==> |t[x][y]| == h)
  }

  function Across(t: NormTensor, l: nat, b: nat, h: nat, y: nat, z: nat): (r: seq<real>)
    requires NormShape(t, l, b, h) && y < b && z < h
    ensures |r| == l && forall x :: 0 <= x < l ==> |t[x]| == b && |t[x][y]| == h && r[x] == t[x][y][z]
  {
    seq(l, x requires 0 <= x < l => t[x][y][z])
  }

  /** Row y of the mean over layers: [H]. */
  function MeanRow(t: NormTensor, l: nat, b: nat, h: nat, y: nat): (r: seq<real>)
    requires NormShape(t, l, b, h) && y < b && 0 < l
    ensures |r| == h && forall z :: 0 <= z < h ==> r[z] == MeanOf(Across(t, l, b, h, y, z))
  {
    seq(h, z requires 0 <= z < h => MeanOf(Across(t, l, b, h, y, z)))
  }

  /** The tensor holds, cell by cell, the norms of the batch's pages over a channel range. */
  ghost predicate Measures(m: Measure, d: Dims, gpu: seq<seq<Plane>>, gids: seq<nat>, lo: nat, hi: nat, t: NormTensor)
    requires lo <= hi
  {
    && NormShape(t, d.layers, |gids|, d.heads) && |gpu| == d.layers
    && (forall l, b, h :: 0 <= l < d.layers && 0 <= b < |gids| && 0 <= h < d.heads ==>
          CellIs(m, gpu, l, gids[b], h, lo, hi, t[l][b][h]))
  }

  ghost predicate CellIs(m: Measure, gpu: seq<seq<Plane>>, l: nat, p: nat, h: nat, lo: nat, hi: nat, x: real)
    requires lo <= hi
  {
    && l < |gpu| && p < |gpu[l]| && h < |gpu[l][p]| && 0 < |gpu[l][p][h]|
    && x == MeanNorm(m.root, gpu[l][p][h], lo, hi)
  }

  /** The mean over layers of the batch tensor is, block by block, that of the block's own page. */
  lemma MeanRowIsLayerMeans(m: Measure, d: Dims, gpu: seq<seq<Plane>>, width: nat, gids: seq<nat>, lo: nat, hi: nat,
                            t: NormTensor, b: nat)
    requires lo <= hi && Measures(m, d, gpu, gids, lo, hi, t) && b < |gids| && gids[b] < width && 0 < d.layers
    requires (forall l :: 0 <= l < |gpu| ==> |gpu[l]| == width) && Measurable(d, Columns(gpu, width)[gids[b]])
    ensures MeanRow(t, d.layers, |gids|, d.heads, b) == LayerMeans(m, d, Columns(gpu, width)[gids[b]], lo, hi)
  {
    hide MeanNorm, MeanOf, PageShape;
    var page := Columns(gpu, width)[gids[b]];
    forall h | 0 <= h < d.heads
      ensures Across(t, d.layers, |gids|, d.heads, b, h) == HeadNormsOf(m, d, page, h, lo, hi)
    {
      forall l | 0 <= l < d.layers ensures t[l][b][h] == HeadNormsOf(m, d, page, h, lo, hi)[l] {
        assert CellIs(m, gpu, l, gids[b], h, lo, hi, t[l][b][h]);
        assert page[l] == gpu[l][gids[b]];
      }
    }
  }

  /** The per-layer form over the whole batch: one gather per layer, K half and V half. */
  method PerLayerNorms(m: Measure, d: Dims, gpu: seq<seq<Plane>>, width: nat, gids: seq<nat>)
    returns (k: NormTensor, v: NormTensor)
    requires |gpu| == d.layers && 0 < d.tokens
    requires (forall l :: 0 <= l < |gpu| ==> |gpu[l]| == width && PlanesShaped(gpu[l], d))
    requires forall i :: 0 <= i < |gids| ==> gids[i] < width
    ensures Measures(m, d, gpu, gids, 0, d.channels, k) && Measures(m, d, gpu, gids, d.channels, 2 * d.channels, v)
  {
    hide LayerMeasured, PlanesShaped, Measures, BlockNorms, LayersMeasured, HeadsFilled;
    k, v := [], [];
    NoLayers(m, d, gpu, gids);
    for l := 0 to d.layers
      invariant |k| == l && LayersMeasured(m, d, gpu, gids, 0, d.channels, k)
      invariant |v| == l && LayersMeasured(m, d, gpu, gids, d.channels, 2 * d.channels, v)
    {
      FilledPlanes(d, gpu[l], width, gids);
      LayerIsMeasured(m, d, gpu, width, l, gids, 0, d.channels);
      LayerIsMeasured(m, d, gpu, width, l, gids, d.channels, 2 * d.channels);
      OneMoreLayer(m, d, gpu, gids, 0, d.channels, k, BlockNorms(m.root, gpu[l], gids, 0, d.channels));
      OneMoreLayer(m, d, gpu, gids, d.channels, 2 * d.channels, v,
                   BlockNorms(m.root, gpu[l], gids, d.channels, 2 * d.channels));
      k := k + [BlockNorms(m.root, gpu[l], gids, 0, d.channels)];
      v := v + [BlockNorms(m.root, gpu[l], gids, d.channels, 2 * d.channels)];
    }
    LayersAreMeasures(m, d, gpu, gids, 0, d.channels, k);
    LayersAreMeasures(m, d, gpu, gids, d.channels, 2 * d.channels, v);
  }

  ghost predicate LayersMeasured(m: Measure, d: Dims, gpu: seq<seq<Plane>>, gids: seq<nat>, lo: nat, hi: nat,
                                 t: NormTensor)
    requires lo <= hi
  {
    forall x :: 0 <= x < |t| ==> LayerMeasured(m, d, gpu, x, gids, lo, hi, t[x])
  }

  lemma NoLayers(m: Measure, d: Dims, gpu: seq<seq<Plane>>, gids: seq<nat>)
    ensures LayersMeasured(m, d, gpu, gids, 0, d.channels, [])
    ensures LayersMeasured(m, d, gpu, gids, d.channels, 2 * d.channels, [])
  {
  }

  lemma OneMoreLayer(m: Measure, d: Dims, gpu: seq<seq<Plane>>, gids: seq<nat>, lo: nat, hi: nat, t: NormTensor,
                     rows: seq<seq<real>>)
    requires lo <= hi && LayersMeasured(m, d, gpu, gids, lo, hi, t)
    requires LayerMeasured(m, d, gpu, |t|, gids, lo, hi, rows)
    ensures LayersMeasured(m, d, gpu, gids, lo, hi, t + [rows])
  {
    hide LayerMeasured;
  }

  ghost predicate LayerMeasured(m: Measure, d: Dims, gpu: seq<seq<Plane>>, l: nat, gids: seq<nat>, lo: nat, hi: nat,
                                rows: seq<seq<real>>)
    requires lo <= hi
  {
    && |rows| == |gids| && (forall b :: 0 <= b < |rows| ==> |rows[b]| == d.heads)
    && (forall b, h :: 0 <= b < |gids| && 0 <= h < d.heads ==> CellIs(m, gpu, l, gids[b], h, lo, hi, rows[b][h]))
  }

  lemma FilledPlanes(d: Dims, layer: seq<Plane>, width: nat, gids: seq<nat>)
    requires PlanesShaped(layer, d) && |layer| == width && 0 < d.tokens
    requires forall i :: 0 <= i < |gids| ==> gids[i] < width
    ensures forall i :: 0 <= i < |gids| ==> gids[i] < |layer| && HeadsFilled(layer[gids[i]])
  {
    forall i | 0 <= i < |gids| ensures HeadsFilled(layer[gids[i]]) {
      assert PlaneShape(layer[gids[i]], d.heads, d.tokens, 2 * d.channels);
    }
  }

  lemma LayerIsMeasured(m: Measure, d: Dims, gpu: seq<seq<Plane>>, width: nat, l: nat, gids: seq<nat>, lo: nat, hi: nat)
    requires lo <= hi && l < |gpu| && |gpu[l]| == width && PlanesShaped(gpu[l], d) && 0 < d.tokens
    requires forall i :: 0 <= i < |gids| ==> gids[i] < width && HeadsFilled(gpu[l][gids[i]])
    ensures LayerMeasured(m, d, gpu, l, gids, lo, hi, BlockNorms(m.root, gpu[l], gids, lo, hi))
  {
    hide MeanNorm;
    forall b | 0 <= b < |gids| ensures PlaneShape(gpu[l][gids[b]], d.heads, d.tokens, 2 * d.channels) {
    }
  }

  lemma LayersAreMeasures(m: Measure, d: Dims, gpu: seq<seq<Plane>>, gids: seq<nat>, lo: nat, hi: nat, t: NormTensor)
    requires lo <= hi && |gpu| == d.layers == |t| && LayersMeasured(m, d, gpu, gids, lo, hi, t)
    ensures Measures(m, d, gpu, gids, lo, hi, t)
  {
    hide CellIs;
  }

  // ------------------------------------------------------------------ the fused form

  /** Flat views of the layers, as the kernel reads them. */
  datatype Flats = Flats(flats: seq<seq<real>>, st: Strides, width: nat)

  ghost predicate FlatsOk(f: Flats, d: Dims, gpu: seq<seq<Plane>>) {
    && |f.flats| == |gpu| == d.layers && d.channels <= f.width
    && (forall l :: 0 <= l < d.layers ==> Laid(f.flats[l], gpu[l], d, f.st))
  }

  /** One half of the kernel's output, seen as [L, B, H]. */
  function Unflattened(out: seq<real>, l: nat, b: nat, h: nat, half: nat): (t: NormTensor)
    requires half < 2 && |out| == 2 * (l * b * h)
    ensures NormShape(t, l, b, h)
    ensures forall x, y, z :: 0 <= x < l && 0 <= y < b && 0 <= z < h ==>
      OutOffset(Cell(x, y, z), b, h) + half < |out| && t[x][y][z] == out[OutOffset(Cell(x, y, z), b, h) + half]
  {
    OffsetsInRange(l, b, h);
    seq(l, x requires 0 <= x < l => seq(b, y requires 0 <= y < b => seq(h, z requires 0 <= z < h =>
      out[OutOffset(Cell(x, y, z), b, h) + half])))
  }

  lemma OffsetsInRange(l: nat, b: nat, h: nat)
    ensures forall x, y, z :: 0 <= x < l && 0 <= y < b && 0 <= z < h ==>
      OutOffset(Cell(x, y, z), b, h) + 1 < 2 * (l * b * h)
  {
    forall x, y, z | 0 <= x < l && 0 <= y < b && 0 <= z < h
      ensures OutOffset(Cell(x, y, z), b, h) + 1 < 2 * (l * b * h)
    {
      PidRoundTrip(Cell(x, y, z), l, b, h);
    }
  }

  method FusedNorms(m: Measure, d: Dims, gpu: seq<seq<Plane>>, width: nat, gids: seq<nat>, f: Flats)
    returns (k: NormTensor, v: NormTensor)
    requires |gpu| == d.layers && 0 < d.heads && 0 < d.tokens && 0 < |gids| && FlatsOk(f, d, gpu)
    requires (forall l :: 0 <= l < |gpu| ==> |gpu[l]| == width) && forall i :: 0 <= i < |gids| ==> gids[i] < width
    ensures Measures(m, d, gpu, gids, 0, d.channels, k) && Measures(m, d, gpu, gids, d.channels, 2 * d.channels, v)
  {
    hide LaunchOk, FlatsOk, Unflattened, CellNorm, Measures, Distinct;
    var launch := Launch(d, f.st, f.flats, gpu, gids, f.width);
    LaunchIsOk(d, gpu, width, gids, f);
    var n := d.layers * |gids| * d.heads;
    var order := seq(n, i requires 0 <= i < n => i);
    GridOrder(order, n);
    var out := ScoreBlocksFused(m.root, launch, order);
    k, v := Unflattened(out[..], d.layers, |gids|, d.heads, 0), Unflattened(out[..], d.layers, |gids|, d.heads, 1);
    FusedMeasures(m, launch, out[..], k, v);
  }

  lemma LaunchIsOk(d: Dims, gpu: seq<seq<Plane>>, width: nat, gids: seq<nat>, f: Flats)
    requires |gpu| == d.layers && 0 < d.heads && 0 < d.tokens && 0 < |gids| && FlatsOk(f, d, gpu)
    requires (forall l :: 0 <= l < |gpu| ==> |gpu[l]| == width) && forall i :: 0 <= i < |gids| ==> gids[i] < width
    ensures LaunchOk(Launch(d, f.st, f.flats, gpu, gids, f.width))
  {
    hide Laid;
  }

  lemma GridOrder(order: seq<nat>, n: nat)
    requires |order| == n && forall i :: 0 <= i < n ==> order[i] == i
    ensures Distinct(order) && forall pid :: pid in order <==> 0 <= pid < n
  {
    forall pid | 0 <= pid < n ensures pid in order {
      assert order[pid] == pid;
    }
  }

  /** The kernel's output, unflattened, is the batch's norms. */
  lemma FusedMeasures(m: Measure, k: Launch, out: seq<real>, kn: NormTensor, vn: NormTensor)
    requires LaunchOk(k) && |out| == 2 * Programs(k)
    requires forall pid: nat :: pid < Programs(k) ==>
      out[2 * pid] == CellNorm(m.root, k, pid, 0) && out[2 * pid + 1] == CellNorm(m.root, k, pid, k.d.channels)
    requires kn == Unflattened(out, k.d.layers, |k.ids|, k.d.heads, 0)
    requires vn == Unflattened(out, k.d.layers, |k.ids|, k.d.heads, 1)
    ensures Measures(m, k.d, k.caches, k.ids, 0, k.d.channels, kn)
    ensures Measures(m, k.d, k.caches, k.ids, k.d.channels, 2 * k.d.channels, vn)
  {
    hide Unflattened, CellNorm;
    UnflattenedFacts(out, k.d.layers, |k.ids|, k.d.heads, 0);
    UnflattenedFacts(out, k.d.layers, |k.ids|, k.d.heads, 1);
    forall l, b, h | 0 <= l < k.d.layers && 0 <= b < |k.ids| && 0 <= h < k.d.heads
      ensures CellIs(m, k.caches, l, k.ids[b], h, 0, k.d.channels, kn[l][b][h])
      ensures CellIs(m, k.caches, l, k.ids[b], h, k.d.channels, 2 * k.d.channels, vn[l][b][h])
    {
      FusedCell(m, k, out, l, b, h);
    }
  }

  lemma UnflattenedFacts(out: seq<real>, l: nat, b: nat, h: nat, half: nat)
    requires half < 2 && |out| == 2 * (l * b * h)
    ensures var t := Unflattened(out, l, b, h, half);
      && NormShape(t, l, b, h)
      && (forall x, y, z :: 0 <= x < l && 0 <= y < b && 0 <= z < h ==>
            OutOffset(Cell(x, y, z), b, h) + half < |out| && t[x][y][z] == out[OutOffset(Cell(x, y, z), b, h) + half])
  {
  }

  lemma FusedCell(m: Measure, k: Launch, out: seq<real>, l: nat, b: nat, h: nat)
    requires LaunchOk(k) && |out| == 2 * Programs(k) && l < k.d.layers && b < |k.ids| && h < k.d.heads
    requires forall pid: nat :: pid < Programs(k) ==>
      out[2 * pid] == CellNorm(m.root, k, pid, 0) && out[2 * pid + 1] == CellNorm(m.root, k, pid, k.d.channels)
    ensures var o := OutOffset(Cell(l, b, h), |k.ids|, k.d.heads);
      && o + 1 < |out|
      && CellIs(m, k.caches, l, k.ids[b], h, 0, k.d.channels, out[o])
      && CellIs(m, k.caches, l, k.ids[b], h, k.d.channels, 2 * k.d.channels, out[o + 1])
  {
    FusedEqualsPerLayer(m.root, k, out, l, b, h);
    LaunchPlane(k, l, b);
  }

  lemma LaunchPlane(k: Launch, l: nat, b: nat)
    requires LaunchOk(k) && l < k.d.layers && b < |k.ids|
    ensures k.ids[b] < |k.caches[l]| && |k.caches[l][k.ids[b]]| == k.d.heads
    ensures forall h :: 0 <= h < k.d.heads ==> |k.caches[l][k.ids[b]][h]| == k.d.tokens
  {
    assert Laid(k.flats[l], k.caches[l], k.d, k.st);
    LaidShape(k.flats[l], k.caches[l], k.d, k.st, k.ids[b]);
  }
}
