/** Page layouts: combined GPU pages [H, N, 2C] per layer and split CPU slots [2, N, H, C] per layer. */
module Layout {
  datatype Dims = Dims(layers: nat, heads: nat, tokens: nat, channels: nat)

  type Vec = seq<real>
  type Plane = seq<seq<Vec>>       // one layer of a page: two outer axes and a channel vector
  type CpuPlane = seq<Plane>       // [2, N, H, C]
  type Page = seq<Plane>           // all layers of one GPU page, each [H, N, 2C]
  type Slab = seq<CpuPlane>        // all layers of one CPU slot

  ghost predicate PlaneShape(p: Plane, outer: nat, inner: nat, width: nat) {
    && |p| == outer
    && (forall i :: 0 <= i < outer ==> |p[i]| == inner)
    && (forall i, j :: 0 <= i < outer && 0 <= j < inner ==> |p[i][j]| == width)
  }

  ghost predicate PageShape(d: Dims, page: Page) {
    && |page| == d.layers
    && forall l :: 0 <= l < d.layers ==> PlaneShape(page[l], d.heads, d.tokens, 2 * d.channels)
  }

  ghost predicate SlotShape(d: Dims, s: CpuPlane) {
    && |s| == 2
    && PlaneShape(s[0], d.tokens, d.heads, d.channels)
    && PlaneShape(s[1], d.tokens, d.heads, d.channels)
  }

  ghost predicate PlanesShaped(cache: seq<Plane>, d: Dims) {
    forall p :: 0 <= p < |cache| ==> PlaneShape(cache[p], d.heads, d.tokens, 2 * d.channels)
  }

  ghost predicate SlotsShaped(cache: seq<CpuPlane>, d: Dims) {
    forall i :: 0 <= i < |cache| ==> SlotShape(d, cache[i])
  }

  /** Slicing the last axis, with Python's clamping. */
  function Cut(v: Vec, lo: nat, hi: nat): (r: Vec)
    requires lo <= hi
  {
    v[(if lo <= |v| then lo else |v|)..(if hi <= |v| then hi else |v|)]
  }

  function At(p: Plane, i: nat, j: nat): (v: Vec) {
    if i < |p| && j < |p[i]| then p[i][j] else []
  }

  /** permute of the two outer axes of an [a, b, *] tensor, cutting the last axis to [lo, hi). */
  function CutSwapped(p: Plane, a: nat, b: nat, lo: nat, hi: nat): (r: Plane)
    requires lo <= hi
  {
    seq(b, j requires 0 <= j < b => seq(a, i requires 0 <= i < a => Cut(At(p, i, j), lo, hi)))
  }

  /** GPU layout to CPU layout: split K and V, move the token axis outside the head axis, stack. */
  function PackPlane(d: Dims, p: Plane): (s: CpuPlane) {
    [CutSwapped(p, d.heads, d.tokens, 0, d.channels),
     CutSwapped(p, d.heads, d.tokens, d.channels, 2 * d.channels)]
  }

  /** CPU layout to GPU layout: move the head axis outside again and concatenate K and V. */
  function UnpackPlane(d: Dims, s: CpuPlane): (p: Plane) {
    seq(d.heads, h requires 0 <= h < d.heads =>
      seq(d.tokens, n requires 0 <= n < d.tokens =>
        (if |s| == 2 then At(s[0], n, h) + At(s[1], n, h) else [])))
  }

  function Pack(d: Dims, page: Page): (s: Slab) {
    seq(|page|, l requires 0 <= l < |page| => PackPlane(d, page[l]))
  }

  function Unpack(d: Dims, s: Slab): (page: Page) {
    seq(|s|, l requires 0 <= l < |s| => UnpackPlane(d, s[l]))
  }

  lemma PlaneRoundTrip(d: Dims, p: Plane)
    requires PlaneShape(p, d.heads, d.tokens, 2 * d.channels)
    ensures SlotShape(d, PackPlane(d, p))
    ensures UnpackPlane(d, PackPlane(d, p)) == p
  {
    var q := UnpackPlane(d, PackPlane(d, p));
    hide PackPlane;
    forall h | 0 <= h < d.heads ensures q[h] == p[h] {
      forall n | 0 <= n < d.tokens ensures q[h][n] == p[h][n] {
        CellRoundTrip(d, p, h, n);
      }
    }
    PackedPlaneShape(d, p);
  }

  lemma PackedPlaneShape(d: Dims, p: Plane)
    requires PlaneShape(p, d.heads, d.tokens, 2 * d.channels)
    ensures SlotShape(d, PackPlane(d, p))
  {
  }

  lemma CellRoundTrip(d: Dims, p: Plane, h: nat, n: nat)
    requires PlaneShape(p, d.heads, d.tokens, 2 * d.channels) && h < d.heads && n < d.tokens
    ensures |PackPlane(d, p)| == 2
    ensures At(PackPlane(d, p)[0], n, h) + At(PackPlane(d, p)[1], n, h) == p[h][n]
  {
    var s := PackPlane(d, p);
    assert At(s[0], n, h) == p[h][n][..d.channels];
    assert At(s[1], n, h) == p[h][n][d.channels..];
  }

  /** Reading the CPU copy back into a staging page restores the page it was taken from. */
  lemma PageRoundTrip(d: Dims, page: Page)
    requires PageShape(d, page)
    ensures Unpack(d, Pack(d, page)) == page
  {
    forall l | 0 <= l < |page| ensures UnpackPlane(d, PackPlane(d, page[l])) == page[l] {
      PlaneRoundTrip(d, page[l]);
    }
  }

  /** The other way round: a stored slot survives a fetch followed by a store. */
  lemma SlotRoundTrip(d: Dims, s: CpuPlane)
    requires SlotShape(d, s)
    ensures PlaneShape(UnpackPlane(d, s), d.heads, d.tokens, 2 * d.channels)
    ensures PackPlane(d, UnpackPlane(d, s)) == s
  {
    var p := UnpackPlane(d, s);
    var q := PackPlane(d, p);
    forall n | 0 <= n < d.tokens ensures q[0][n] == s[0][n] && q[1][n] == s[1][n] {
      forall h | 0 <= h < d.heads ensures q[0][n][h] == s[0][n][h] && q[1][n][h] == s[1][n][h] {
        assert p[h][n] == s[0][n][h] + s[1][n][h];
      }
    }
    assert q[0] == s[0] && q[1] == s[1];
  }
}
