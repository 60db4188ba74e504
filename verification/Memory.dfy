/** The KV tensors: one GPU tensor and one CPU tensor per layer, copied in per-layer batches. */
module Memory {
  import opened Blocks
  import opened Layout

  /** index_copy_: writes vals[i] at position idx[i] for the first n pairs, in order. */
  function Scatter<T>(dst: seq<T>, idx: seq<nat>, vals: seq<T>, n: nat): (r: seq<T>)
    requires n <= |idx| == |vals|
    requires forall i :: 0 <= i < |idx| ==> idx[i] < |dst|
    ensures |r| == |dst|
  {
    if n == 0 then dst else Scatter(dst, idx, vals, n - 1)[idx[n - 1] := vals[n - 1]]
  }

  /** With distinct targets every value lands, and no other position changes. */
  lemma {:induction false} ScatterFacts<T>(dst: seq<T>, idx: seq<nat>, vals: seq<T>, n: nat)
    requires n <= |idx| == |vals|
    requires forall i :: 0 <= i < |idx| ==> idx[i] < |dst|
    ensures forall s :: 0 <= s < |dst| && s !in idx[..n] ==> Scatter(dst, idx, vals, n)[s] == dst[s]
    ensures Distinct(idx) ==> forall i :: 0 <= i < n ==> Scatter(dst, idx, vals, n)[idx[i]] == vals[i]
  {
    if n > 0 {
      ScatterFacts(dst, idx, vals, n - 1);
      assert idx[..n] == idx[..n - 1] + [idx[n - 1]];
    }
  }

  /** Page p of a per-layer tensor list: its plane in every layer. */
  function Column<T>(layers: seq<seq<T>>, p: nat): (r: seq<T>)
    requires forall l :: 0 <= l < |layers| ==> p < |layers[l]|
    ensures |r| == |layers|
  {
    seq(|layers|, l requires 0 <= l < |layers| => layers[l][p])
  }

  function Columns<T>(layers: seq<seq<T>>, width: nat): (r: seq<seq<T>>)
    requires forall l :: 0 <= l < |layers| ==> |layers[l]| == width
    ensures |r| == width
  {
    seq(width, p requires 0 <= p < width => Column(layers, p))
  }

  /** Scattering every layer on its own is scattering whole pages. */
  lemma {:induction false} ScatterByLayer<T>(
      layers: seq<seq<T>>, after: seq<seq<T>>, width: nat,
      idx: seq<nat>, vals: seq<seq<T>>, n: nat)
    requires n <= |idx| == |vals| && |after| == |layers| > 0
    requires forall l :: 0 <= l < |layers| ==> |layers[l]| == width && |after[l]| == width
    requires forall i :: 0 <= i < |idx| ==> idx[i] < width && |vals[i]| == |layers|
    requires forall l :: 0 <= l < |layers| ==> after[l] == Scatter(layers[l], idx, LayerOf(vals, l), n)
    ensures Columns(after, width) == Scatter(Columns(layers, width), idx, vals, n)
  {
    var whole := Scatter(Columns(layers, width), idx, vals, n);
    forall p, l | 0 <= p < width && 0 <= l < |layers|
      ensures |whole[p]| == |layers| && whole[p][l] == after[l][p]
    {
      ScatterPointwise(layers, width, idx, vals, n, p, l);
    }
    assert forall p :: 0 <= p < width ==> |whole[p]| == |layers| by {
      forall p | 0 <= p < width ensures |whole[p]| == |layers| {
        ScatterPointwise(layers, width, idx, vals, n, p, 0);
      }
    }
    forall p | 0 <= p < width ensures Columns(after, width)[p] == whole[p] {
      assert |whole[p]| == |layers| && forall l :: 0 <= l < |layers| ==> whole[p][l] == after[l][p];
    }
  }

  function LayerOf<T>(vals: seq<seq<T>>, l: nat): (r: seq<T>)
    requires forall i :: 0 <= i < |vals| ==> l < |vals[i]|
    ensures |r| == |vals|
  {
    seq(|vals|, i requires 0 <= i < |vals| => vals[i][l])
  }

  lemma {:induction false} ScatterPointwise<T>(
      layers: seq<seq<T>>, width: nat, idx: seq<nat>, vals: seq<seq<T>>, n: nat, p: nat, l: nat)
    requires n <= |idx| == |vals| && p < width && l < |layers|
    requires forall k :: 0 <= k < |layers| ==> |layers[k]| == width
    requires forall i :: 0 <= i < |idx| ==> idx[i] < width && |vals[i]| == |layers|
    ensures |Scatter(Columns(layers, width), idx, vals, n)[p]| == |layers|
    ensures Scatter(Columns(layers, width), idx, vals, n)[p][l] == Scatter(layers[l], idx, LayerOf(vals, l), n)[p]
  {
    if n > 0 {
      ScatterPointwise(layers, width, idx, vals, n - 1, p, l);
    }
  }

  function PackEach(d: Dims, gpu: seq<Page>, gids: seq<nat>): (r: seq<Slab>)
    requires forall i :: 0 <= i < |gids| ==> gids[i] < |gpu|
    ensures |r| == |gids|
  {
    seq(|gids|, i requires 0 <= i < |gids| => Pack(d, gpu[gids[i]]))
  }

  function UnpackEach(d: Dims, cpu: seq<Slab>, slots: seq<nat>): (r: seq<Page>)
    requires forall i :: 0 <= i < |slots| ==> slots[i] < |cpu|
    ensures |r| == |slots|
  {
    seq(|slots|, i requires 0 <= i < |slots| => Unpack(d, cpu[slots[i]]))
  }

  /** What a batched store wrote, a batched fetch reads back: every page of the batch, unchanged. */
  lemma StoreThenFetch(d: Dims, gpu: seq<Page>, cpu: seq<Slab>, gids: seq<nat>, slots: seq<nat>)
    requires |gids| == |slots| && Distinct(slots)
    requires forall i :: 0 <= i < |gids| ==> gids[i] < |gpu| && slots[i] < |cpu| && PageShape(d, gpu[gids[i]])
    ensures var stored := Scatter(cpu, slots, PackEach(d, gpu, gids), |slots|);
            forall i :: 0 <= i < |gids| ==> UnpackEach(d, stored, slots)[i] == gpu[gids[i]]
  {
    ScatterFacts(cpu, slots, PackEach(d, gpu, gids), |slots|);
    forall i | 0 <= i < |gids| ensures Unpack(d, Pack(d, gpu[gids[i]])) == gpu[gids[i]] {
      PageRoundTrip(d, gpu[gids[i]]);
    }
  }

  /** index_select, split, permute, stack: the slab one layer contributes to a store. */
  function GatherPacked(d: Dims, layer: seq<Plane>, gids: seq<nat>): (r: seq<CpuPlane>)
    requires forall i :: 0 <= i < |gids| ==> gids[i] < |layer|
    ensures |r| == |gids|
  {
    seq(|gids|, i requires 0 <= i < |gids| => PackPlane(d, layer[gids[i]]))
  }

  /** index_select, permute, concatenate: the slab one layer contributes to a fetch. */
  function GatherUnpacked(d: Dims, layer: seq<CpuPlane>, slots: seq<nat>): (r: seq<Plane>)
    requires forall i :: 0 <= i < |slots| ==> slots[i] < |layer|
    ensures |r| == |slots|
  {
    seq(|slots|, i requires 0 <= i < |slots| => UnpackPlane(d, layer[slots[i]]))
  }

  lemma PackedWhole(d: Dims, gpu: seq<seq<Plane>>, width: nat, gids: seq<nat>)
    requires |gpu| == d.layers && forall k :: 0 <= k < |gpu| ==> |gpu[k]| == width
    requires forall i :: 0 <= i < |gids| ==> gids[i] < width
    ensures |PackEach(d, Columns(gpu, width), gids)| == |gids|
    ensures forall i :: 0 <= i < |gids| ==> |PackEach(d, Columns(gpu, width), gids)[i]| == d.layers
  {
  }

  lemma PackedLayer(d: Dims, gpu: seq<seq<Plane>>, width: nat, gids: seq<nat>, l: nat)
    requires |gpu| == d.layers && l < d.layers && forall k :: 0 <= k < |gpu| ==> |gpu[k]| == width
    requires forall i :: 0 <= i < |gids| ==> gids[i] < width
    ensures forall i :: 0 <= i < |gids| ==> l < |PackEach(d, Columns(gpu, width), gids)[i]|
    ensures GatherPacked(d, gpu[l], gids) == LayerOf(PackEach(d, Columns(gpu, width), gids), l)
  {
  }

  lemma UnpackedWhole(d: Dims, cpu: seq<seq<CpuPlane>>, width: nat, slots: seq<nat>)
    requires |cpu| == d.layers && forall k :: 0 <= k < |cpu| ==> |cpu[k]| == width
    requires forall i :: 0 <= i < |slots| ==> slots[i] < width
    ensures |UnpackEach(d, Columns(cpu, width), slots)| == |slots|
    ensures forall i :: 0 <= i < |slots| ==> |UnpackEach(d, Columns(cpu, width), slots)[i]| == d.layers
  {
  }

  /** Gathering one layer is that layer of gathering whole slots. */
  lemma GatheredLayer(d: Dims, cpu: seq<seq<CpuPlane>>, width: nat, slots: seq<nat>, l: nat)
    requires |cpu| == d.layers && l < d.layers && forall k :: 0 <= k < |cpu| ==> |cpu[k]| == width
    requires forall i :: 0 <= i < |slots| ==> slots[i] < width
    ensures forall i :: 0 <= i < |slots| ==> l < |UnpackEach(d, Columns(cpu, width), slots)[i]|
    ensures GatherUnpacked(d, cpu[l], slots) == LayerOf(UnpackEach(d, Columns(cpu, width), slots), l)
  {
  }

  lemma UntouchedColumn<T>(
      before: seq<seq<T>>, after: seq<seq<T>>, width: nat, idx: seq<nat>, vals: seq<seq<T>>, done: nat, p: nat)
    requires |after| == |before| && done <= |before| && p < width && p !in idx && |idx| == |vals|
    requires forall l :: 0 <= l < |before| ==> |before[l]| == width && |after[l]| == width
    requires forall i :: 0 <= i < |idx| ==> idx[i] < width && |vals[i]| == |before|
    requires forall l :: 0 <= l < done ==> after[l] == Scatter(before[l], idx, LayerOf(vals, l), |idx|)
    requires forall l :: done <= l < |before| ==> after[l] == before[l]
    ensures Columns(after, width)[p] == Columns(before, width)[p]
  {
    forall l | 0 <= l < done ensures after[l][p] == before[l][p] {
      ScatterFacts(before[l], idx, LayerOf(vals, l), |idx|);
      assert idx[..|idx|] == idx;
    }
  }

  /** Tensors keep their shapes: every plane of a page is [H, N, 2C], every plane of a slot [2, N, H, C]. */
  ghost predicate TensorsShaped(d: Dims, gpu: seq<seq<Plane>>, cpu: seq<seq<CpuPlane>>) {
    && (forall l :: 0 <= l < |gpu| ==> PlanesShaped(gpu[l], d))
    && (forall l :: 0 <= l < |cpu| ==> SlotsShaped(cpu[l], d))
  }

  lemma {:induction false} ScatterKeepsPlanes(layer: seq<Plane>, idx: seq<nat>, vals: seq<Plane>, n: nat, d: Dims)
    requires PlanesShaped(layer, d) && PlanesShaped(vals, d) && n <= |idx| == |vals|
    requires forall i :: 0 <= i < |idx| ==> idx[i] < |layer|
    ensures PlanesShaped(Scatter(layer, idx, vals, n), d)
  {
    hide PlaneShape;
    if n > 0 { ScatterKeepsPlanes(layer, idx, vals, n - 1, d); }
  }

  lemma {:induction false} ScatterKeepsSlots(layer: seq<CpuPlane>, idx: seq<nat>, vals: seq<CpuPlane>, n: nat, d: Dims)
    requires SlotsShaped(layer, d) && SlotsShaped(vals, d) && n <= |idx| == |vals|
    requires forall i :: 0 <= i < |idx| ==> idx[i] < |layer|
    ensures SlotsShaped(Scatter(layer, idx, vals, n), d)
  {
    hide SlotShape;
    if n > 0 { ScatterKeepsSlots(layer, idx, vals, n - 1, d); }
  }

  lemma PackedShape(d: Dims, layer: seq<Plane>, gids: seq<nat>)
    requires PlanesShaped(layer, d) && forall i :: 0 <= i < |gids| ==> gids[i] < |layer|
    ensures SlotsShaped(GatherPacked(d, layer, gids), d)
  {
    hide PlaneShape, SlotShape, PackPlane;
    forall i | 0 <= i < |gids| ensures SlotShape(d, PackPlane(d, layer[gids[i]])) {
      PlaneRoundTrip(d, layer[gids[i]]);
    }
  }

  lemma UnpackedShape(d: Dims, layer: seq<CpuPlane>, slots: seq<nat>)
    requires SlotsShaped(layer, d) && forall i :: 0 <= i < |slots| ==> slots[i] < |layer|
    ensures PlanesShaped(GatherUnpacked(d, layer, slots), d)
  {
    hide PlaneShape, SlotShape, UnpackPlane;
    forall i | 0 <= i < |slots| ensures PlaneShape(UnpackPlane(d, layer[slots[i]]), d.heads, d.tokens, 2 * d.channels) {
      SlotRoundTrip(d, layer[slots[i]]);
    }
  }

  /** Every page of a shaped cache has the page shape. */
  lemma ColumnsShaped(d: Dims, gpu: seq<seq<Plane>>, width: nat, p: nat)
    requires |gpu| == d.layers && (forall l :: 0 <= l < |gpu| ==> |gpu[l]| == width && PlanesShaped(gpu[l], d))
    requires p < width
    ensures PageShape(d, Columns(gpu, width)[p])
  {
    hide PlaneShape;
    forall l | 0 <= l < d.layers ensures PlaneShape(Columns(gpu, width)[p][l], d.heads, d.tokens, 2 * d.channels) {
      assert Columns(gpu, width)[p][l] == gpu[l][p];
    }
  }

  class KVMemory {
    const d: Dims
    const numPages: nat
    const numSlots: nat
    var gpu: seq<seq<Plane>>
    var cpu: seq<seq<CpuPlane>>

    ghost predicate Valid()
      reads this
    {
      && |gpu| == |cpu| == d.layers > 0 && d.heads > 0 && d.tokens > 0
      && (forall l :: 0 <= l < d.layers ==> |gpu[l]| == numPages && |cpu[l]| == numSlots)
      && TensorsShaped(d, gpu, cpu)
    }

    ghost function GpuPages(): (r: seq<Page>)
      requires Valid()
      reads this
    {
      Columns(gpu, numPages)
    }

    ghost function CpuSlots(): (r: seq<Slab>)
      requires Valid()
      reads this
    {
      Columns(cpu, numSlots)
    }

    constructor (d: Dims, gpu: seq<seq<Plane>>, cpu: seq<seq<CpuPlane>>, numPages: nat, numSlots: nat)
      requires |gpu| == |cpu| == d.layers > 0 && d.heads > 0 && d.tokens > 0
      requires forall l :: 0 <= l < d.layers ==> |gpu[l]| == numPages && |cpu[l]| == numSlots
      requires TensorsShaped(d, gpu, cpu)
      ensures Valid() && this.gpu == gpu && this.cpu == cpu
    {
      this.d, this.gpu, this.cpu, this.numPages, this.numSlots := d, gpu, cpu, numPages, numSlots;
    }

    /** Batched GPU-to-CPU store: gather and transform every layer, then scatter layer by layer.
        The copy raises after `reach` layers have been scattered; `reach >= layers` is success. */
    method StoreBatch(gids: seq<nat>, slots: seq<nat>, reach: nat) returns (ok: bool)
      requires Valid() && |gids| == |slots|
      requires forall i :: 0 <= i < |gids| ==> gids[i] < numPages && slots[i] < numSlots
      modifies this`cpu
      ensures Valid()
      ensures ok == (reach >= d.layers)
      ensures ok ==>
        CpuSlots() == Scatter(old(CpuSlots()), slots, PackEach(d, GpuPages(), gids), |slots|)
      ensures forall s :: 0 <= s < numSlots && s !in slots ==> CpuSlots()[s] == old(CpuSlots())[s]
    {
      hide PlanesShaped, SlotsShaped, Pack, PackPlane, PackEach, GatherPacked, Scatter;
      PackedWhole(d, gpu, numPages, gids);
      ghost var vals := PackEach(d, GpuPages(), gids);
      var host: seq<seq<CpuPlane>> := [];
      var layer := 0;
      while layer < d.layers
        invariant 0 <= layer <= d.layers == |gpu| && |host| == layer && Valid() && cpu == old(cpu)
        invariant forall l :: 0 <= l < layer ==> host[l] == LayerOf(vals, l) && SlotsShaped(host[l], d)
      {
        PackedShape(d, gpu[layer], gids);
        PackedLayer(d, gpu, numPages, gids, layer);
        host := host + [GatherPacked(d, gpu[layer], gids)];
        layer := layer + 1;
      }
      ghost var before := cpu;
      layer := 0;
      while layer < d.layers && layer < reach
        invariant 0 <= layer <= d.layers && (layer <= reach || layer == 0)
        invariant Valid() && gpu == old(gpu)
        invariant forall l :: 0 <= l < layer ==> cpu[l] == Scatter(before[l], slots, LayerOf(vals, l), |slots|)
        invariant forall l :: layer <= l < d.layers ==> cpu[l] == before[l]
      {
        ScatterKeepsSlots(cpu[layer], slots, host[layer], |slots|, d);
        cpu := cpu[layer := Scatter(cpu[layer], slots, host[layer], |slots|)];
        layer := layer + 1;
      }
      ok := layer == d.layers;
      if ok {
        ScatterByLayer(before, cpu, numSlots, slots, vals, |slots|);
      }
      forall s | 0 <= s < numSlots && s !in slots ensures CpuSlots()[s] == old(CpuSlots())[s] {
        UntouchedColumn(before, cpu, numSlots, slots, vals, layer, s);
      }
    }

    /** Batched CPU-to-staging fetch: gather, transform and write each layer in turn. */
    method FetchBatch(slots: seq<nat>, pages: seq<nat>, reach: nat) returns (ok: bool)
      requires Valid() && |slots| == |pages|
      requires forall i :: 0 <= i < |slots| ==> slots[i] < numSlots && pages[i] < numPages
      modifies this`gpu
      ensures Valid()
      ensures ok == (reach >= d.layers)
      ensures ok ==>
        GpuPages() == Scatter(old(GpuPages()), pages, UnpackEach(d, CpuSlots(), slots), |pages|)
      ensures forall p :: 0 <= p < numPages && p !in pages ==> GpuPages()[p] == old(GpuPages())[p]
    {
      hide Unpack, UnpackPlane, UnpackEach, GatherUnpacked, Scatter, PlanesShaped, SlotsShaped;
      UnpackedWhole(d, cpu, numSlots, slots);
      ghost var vals := UnpackEach(d, CpuSlots(), slots);
      ghost var before := gpu;
      var layer := 0;
      while layer < d.layers && layer < reach
        invariant 0 <= layer <= d.layers && (layer <= reach || layer == 0)
        invariant Valid() && cpu == old(cpu)
        invariant forall l :: 0 <= l < layer ==> gpu[l] == Scatter(before[l], pages, LayerOf(vals, l), |pages|)
        invariant forall l :: layer <= l < d.layers ==> gpu[l] == before[l]
      {
        var combined := GatherUnpacked(d, cpu[layer], slots);
        GatheredLayer(d, cpu, numSlots, slots, layer);
        UnpackedShape(d, cpu[layer], slots);
        ScatterKeepsPlanes(gpu[layer], pages, combined, |pages|, d);
        gpu := gpu[layer := Scatter(gpu[layer], pages, combined, |pages|)];
        layer := layer + 1;
      }
      ok := layer == d.layers;
      if ok {
        ScatterByLayer(before, gpu, numPages, pages, vals, |pages|);
      }
      forall p | 0 <= p < numPages && p !in pages ensures GpuPages()[p] == old(GpuPages())[p] {
        UntouchedColumn(before, gpu, numPages, pages, vals, layer, p);
      }
    }
  }
}
