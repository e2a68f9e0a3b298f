/** Seeding a batch-1 cache from prefix-pool blocks (BatchKVCache::from_prefix in
    src/cache/batch_kv_cache.cpp), and cutting blocks back out of a row
    (fetch_row_components, PrefixCache::harvest). With the reference rows of Transformer, both
    directions land on the K/V of the token prefix the key names. */
module PrefixSeed {
  import opened KvQuant
  import opened BatchCache
  import opened BlockPools
  import opened PrefixCaches
  import opened Transformer

  /** One sequence's K and V: [layer][component], `n` positions each. */
  ghost predicate Whole(ks: seq<seq<Row>>, vs: seq<seq<Row>>, nLayers: nat, comps: nat, n: nat) {
    && |ks| == |vs| == nLayers
    && forall l :: 0 <= l < nLayers ==> Long(ks[l], comps, n) && Long(vs[l], comps, n)
  }

  /** `block` is positions [start, start + size) of that sequence. */
  ghost predicate Slice(block: KVBlock, ks: seq<seq<Row>>, vs: seq<seq<Row>>, nLayers: nat, comps: nat, size: nat, start: nat) {
    && Whole(block.keys, block.values, nLayers, comps, size)
    && |ks| == |vs| == nLayers
    && forall l, i :: 0 <= l < nLayers && 0 <= i < comps ==>
         && |ks[l]| == |vs[l]| == comps
         && start + size <= |ks[l][i]| && start + size <= |vs[l][i]|
         && block.keys[l][i] == ks[l][i][start..start + size]
         && block.values[l][i] == vs[l][i][start..start + size]
  }

  /** Concatenating the blocks' component `i` of layer `l`, cut to `len`. */
  method SeedComponent(blocks: seq<KVBlock>, l: nat, i: nat, len: nat, ghost ks: seq<seq<Row>>, ghost vs: seq<seq<Row>>,
                       ghost nLayers: nat, ghost comps: nat, ghost size: nat) returns (k: Row, v: Row)
    requires l < nLayers && i < comps && len <= |blocks| * size
    requires forall b :: 0 <= b < |blocks| ==> Slice(blocks[b], ks, vs, nLayers, comps, size, b * size)
    requires Whole(ks, vs, nLayers, comps, |blocks| * size)
    ensures k == ks[l][i][..len] && v == vs[l][i][..len]
  {
    var kj, vj := [], [];
    for b := 0 to |blocks|
      invariant b * size <= |blocks| * size
      invariant kj == ks[l][i][..b * size] && vj == vs[l][i][..b * size]
    {
      assert Slice(blocks[b], ks, vs, nLayers, comps, size, b * size);
      assert (b + 1) * size == b * size + size;
      kj := kj + blocks[b].keys[l][i];
      vj := vj + blocks[b].values[l][i];
    }
    k, v := kj[..len], vj[..len];
  }

  ghost function UptoLayers(s: seq<seq<Row>>, n: nat): seq<seq<Row>>
    requires forall l, i :: 0 <= l < |s| && 0 <= i < |s[l]| ==> n <= |s[l][i]|
  {
    seq(|s|, l requires 0 <= l < |s| => Upto(s[l], n))
  }

  /** Layer `k` has been seeded with the first `len` positions of `ks` and `vs`. */
  ghost predicate Seeded(kt: seq<Tensor>, vt: seq<Tensor>, ks: seq<Row>, vs: seq<Row>, comps: nat, len: nat, cap: nat) {
    && |kt| == |vt| == |ks| == |vs| == comps && len <= cap && AllShaped(kt, 1, cap) && AllShaped(vt, 1, cap)
    && forall i :: 0 <= i < comps ==>
         && len <= |ks[i]| && len <= |vs[i]| && Shaped(kt[i], 1, cap) && Shaped(vt[i], 1, cap)
         && kt[i][0][0..len] == ks[i][..len] && vt[i][0][0..len] == vs[i][..len]
  }

  method SeedLayer(blocks: seq<KVBlock>, l: nat, comps: nat, len: nat, ghost ks: seq<seq<Row>>, ghost vs: seq<seq<Row>>,
                   ghost nLayers: nat, ghost size: nat) returns (kt: seq<Tensor>, vt: seq<Tensor>)
    requires l < nLayers && 0 < comps && len <= |blocks| * size
    requires forall b :: 0 <= b < |blocks| ==> Slice(blocks[b], ks, vs, nLayers, comps, size, b * size)
    requires Whole(ks, vs, nLayers, comps, |blocks| * size)
    ensures Seeded(kt, vt, ks[l], vs[l], comps, len, GrownCap(false, 0, 0, len))
  {
    var kIn, vIn := [], [];
    for i := 0 to comps
      invariant |kIn| == |vIn| == i && AllShaped(kIn, 1, len) && AllShaped(vIn, 1, len)
      invariant forall c :: 0 <= c < i ==> kIn[c] == [ks[l][c][..len]] && vIn[c] == [vs[l][c][..len]]
    {
      var k, v := SeedComponent(blocks, l, i, len, ks, vs, nLayers, comps, size);
      kIn := kIn + [[k]];
      vIn := vIn + [[v]];
    }
    var kOut, vOut;
    kt, kOut := UpdateKvComponents([], kIn, 0, 1, 0, len);
    vt, vOut := UpdateKvComponents([], vIn, 0, 1, 0, len);
    forall i | 0 <= i < comps
      ensures kt[i][0][0..len] == ks[l][i][..len] && vt[i][0][0..len] == vs[l][i][..len]
    {
      assert Holds(kt[i], 0, kIn[i]) && Holds(vt[i], 0, vIn[i]);
    }
  }

  /** BatchKVCache::from_prefix: one row whose first `len` positions are the blocks' K/V, when the
      blocks are consecutive slices of one sequence's K/V. */
  method FromPrefix(nLayers: nat, comps: nat, blocks: seq<KVBlock>, len: nat, ghost ks: seq<seq<Row>>, ghost vs: seq<seq<Row>>, ghost size: nat)
    returns (c: BatchKVCache)
    requires 0 < nLayers && 0 < comps && 0 < len <= |blocks| * size
    requires forall b :: 0 <= b < |blocks| ==> Slice(blocks[b], ks, vs, nLayers, comps, size, b * size)
    requires Whole(ks, vs, nLayers, comps, |blocks| * size)
    ensures fresh(c) && c.Valid() && c.Aligned() && c.Started() && c.comps == comps && |c.keys| == nLayers
    ensures c.batch == 1 && c.idx == len && c.leftPadding == [0] && c.keys[0] != []
    ensures c.Rows() == [CacheRow(UptoLayers(ks, len), UptoLayers(vs, len), len)]
  {
    c := new BatchKVCache(nLayers, [0], comps);
    ghost var cap := GrownCap(false, 0, 0, len);
    for l := 0 to nLayers
      invariant fresh(c) && c.comps == comps && |c.keys| == |c.values| == nLayers
      invariant c.batch == 1 && c.idx == 0 && c.leftPadding == [0] && c.offset == [0]
      invariant forall k :: l <= k < nLayers ==> c.keys[k] == [] && c.values[k] == []
      invariant forall k :: 0 <= k < l ==> Seeded(c.keys[k], c.values[k], ks[k], vs[k], comps, len, cap)
    {
      var kt, vt := SeedLayer(blocks, l, comps, len, ks, vs, nLayers, size);
      c.keys := c.keys[l := kt];
      c.values := c.values[l := vt];
    }
    c.idx := len;
    c.offset := [len];
    SeededStores(c.keys, c.values, ks, vs, nLayers, comps, len, cap);
  }

  lemma SeededStores(keys: Store, values: Store, ks: seq<seq<Row>>, vs: seq<seq<Row>>, nLayers: nat, comps: nat, len: nat, cap: nat)
    requires |keys| == |values| == |ks| == |vs| == nLayers && 0 < nLayers && 0 < comps
    requires forall k :: 0 <= k < nLayers ==> Seeded(keys[k], values[k], ks[k], vs[k], comps, len, cap)
    ensures StoreOk(keys, comps, 1, cap) && StoreOk(values, comps, 1, cap) && Uniform(keys, values) && len <= cap
    ensures keys[0] != [] && keys[0][0] != [] && |keys[0][0][0]| == cap
    ensures Bounded(keys, comps, 1, len) && Bounded(values, comps, 1, len)
    ensures forall l, i :: 0 <= l < |ks| && 0 <= i < |ks[l]| ==> len <= |ks[l][i]|
    ensures forall l, i :: 0 <= l < |vs| && 0 <= i < |vs[l]| ==> len <= |vs[l][i]|
    ensures RowsOf(keys, values, comps, [len], [0], len) == [CacheRow(UptoLayers(ks, len), UptoLayers(vs, len), len)]
  {
    assert Seeded(keys[0], values[0], ks[0], vs[0], comps, len, cap);
    assert Shaped(keys[0][0], 1, cap);
    forall l | 0 <= l < nLayers
      ensures LayerSection(keys[l], comps, 0, 0, len) == Upto(ks[l], len)
      ensures LayerSection(values[l], comps, 0, 0, len) == Upto(vs[l], len)
    {
    }
    assert Sections(keys, comps, 0, 0, len) == UptoLayers(ks, len);
    assert Sections(values, comps, 0, 0, len) == UptoLayers(vs, len);
  }

  // ---------------------------------------------------------------- what the keys name

  /** The block a key names: the last `size` positions of its token prefix. */
  ghost function RefBlock(m: Model, size: nat, key: Key): KVBlock {
    if size <= |key| then CutBlock(RefRow(m, key).keys, RefRow(m, key).values, |key| - size, |key|)
    else KVBlock([], [], 0)
  }

  lemma RefRowWhole(m: Model, toks: seq<int>)
    ensures Whole(RefRow(m, toks).keys, RefRow(m, toks).values, m.nLayers, m.comps, |toks|)
    ensures Spans(RefRow(m, toks).keys, |toks|) && Spans(RefRow(m, toks).values, |toks|)
  {
    forall l | 0 <= l < m.nLayers
      ensures RefRow(m, toks).keys[l] == RefKeys(m, l, toks) && RefRow(m, toks).values[l] == RefValues(m, l, toks)
    {
    }
  }

  /** A span of a sequence's K/V does not depend on what follows it. */
  lemma RefSpan(m: Model, toks: seq<int>, n: nat, start: nat, l: nat, i: nat)
    requires start <= n <= |toks| && l < m.nLayers && i < m.comps
    ensures Long(RefRow(m, toks).keys[l], m.comps, |toks|) && Long(RefRow(m, toks[..n]).keys[l], m.comps, n)
    ensures Long(RefRow(m, toks).values[l], m.comps, |toks|) && Long(RefRow(m, toks[..n]).values[l], m.comps, n)
    ensures RefRow(m, toks).keys[l][i][start..n] == RefRow(m, toks[..n]).keys[l][i][start..n]
    ensures RefRow(m, toks).values[l][i][start..n] == RefRow(m, toks[..n]).values[l][i][start..n]
  {
    hide *;
    RefRowLayer(m, toks, l);
    RefRowLayer(m, toks[..n], l);
    PrefixCells(m, l, toks, n);
    UptoSpan(RefKeys(m, l, toks), n, start, i);
    UptoSpan(RefValues(m, l, toks), n, start, i);
  }

  lemma RefRowLayer(m: Model, toks: seq<int>, l: nat)
    requires l < m.nLayers
    ensures |RefRow(m, toks).keys| == |RefRow(m, toks).values| == m.nLayers
    ensures RefRow(m, toks).keys[l] == RefKeys(m, l, toks) && RefRow(m, toks).values[l] == RefValues(m, l, toks)
    ensures Long(RefKeys(m, l, toks), m.comps, |toks|) && Long(RefValues(m, l, toks), m.comps, |toks|)
    ensures |RefKeys(m, l, toks)| == |RefValues(m, l, toks)| == m.comps
  {
  }

  lemma UptoSpan(rows: seq<Row>, n: nat, start: nat, i: nat)
    requires (forall k :: 0 <= k < |rows| ==> n <= |rows[k]|) && i < |rows| && start <= n
    ensures |Upto(rows, n)| == |rows| && |Upto(rows, n)[i]| == n && Upto(rows, n)[i][start..n] == rows[i][start..n]
  {
    assert rows[i][..n][start..n] == rows[i][start..n];
  }

  lemma BlockSpan(n: nat, size: nat, b: nat)
    requires b < n
    ensures (b + 1) * size == b * size + size && (b + 1) * size <= n * size
  {
    assert n * size == (b + 1) * size + (n - b - 1) * size;
  }

  /** Matched blocks are consecutive slices of the prompt's K/V. */
  lemma MatchedSlice(m: Model, size: nat, ids: seq<int>, n: nat, total: nat, b: nat)
    requires 0 < size && b < n <= |BlockKeys(ids, size)| && total == n * size <= |ids|
    ensures
      var whole := RefRow(m, ids[..total]);
      Slice(RefBlock(m, size, BlockKeys(ids, size)[b]), whole.keys, whole.values, m.nLayers, m.comps, size, b * size)
  {
    hide Slice;
    hide RefBlock;
    hide RefRow;
    BlockFits(|ids|, size, b);
    BlockSpan(n, size, b);
    var all, start, end := ids[..total], b * size, (b + 1) * size;
    assert BlockKeys(ids, size)[b] == ids[..end] == all[..end];
    NamedSlice(m, size, all, start, end);
  }

  lemma NamedSlice(m: Model, size: nat, all: seq<int>, start: nat, end: nat)
    requires end == start + size && end <= |all|
    ensures Slice(RefBlock(m, size, all[..end]), RefRow(m, all).keys, RefRow(m, all).values, m.nLayers, m.comps, size, start)
  {
    hide RefRow;
    hide BlockBytes;
    var key := all[..end];
    RefRowWhole(m, key);
    RefRowWhole(m, all);
    forall l, i | 0 <= l < m.nLayers && 0 <= i < m.comps
      ensures RefRow(m, key).keys[l][i][start..end] == RefRow(m, all).keys[l][i][start..end]
      ensures RefRow(m, key).values[l][i][start..end] == RefRow(m, all).values[l][i][start..end]
    {
      RefSpan(m, all, end, start, l, i);
    }
  }

  /** Cutting a sequence's K/V short leaves the K/V of the shorter sequence. */
  lemma UptoIsRef(m: Model, toks: seq<int>, len: nat)
    requires len <= |toks|
    ensures forall l, i :: 0 <= l < |RefRow(m, toks).keys| && 0 <= i < |RefRow(m, toks).keys[l]| ==> len <= |RefRow(m, toks).keys[l][i]|
    ensures forall l, i :: 0 <= l < |RefRow(m, toks).values| && 0 <= i < |RefRow(m, toks).values[l]| ==> len <= |RefRow(m, toks).values[l][i]|
    ensures CacheRow(UptoLayers(RefRow(m, toks).keys, len), UptoLayers(RefRow(m, toks).values, len), len) == RefRow(m, toks[..len])
  {
    RefRowWhole(m, toks);
    forall l | 0 <= l < m.nLayers
      ensures Upto(RefRow(m, toks).keys[l], len) == RefRow(m, toks[..len]).keys[l]
      ensures Upto(RefRow(m, toks).values[l], len) == RefRow(m, toks[..len]).values[l]
    {
      PrefixCells(m, l, toks, len);
    }
  }

  /** What harvest seals from a row holding `ids` is what the block's key names. */
  lemma HarvestedIsNamed(m: Model, size: nat, ids: seq<int>, b: nat)
    requires 0 < size && b < |ids| / size
    ensures Spans(RefRow(m, ids).keys, |ids|) && Spans(RefRow(m, ids).values, |ids|)
    ensures SealedBlock(RefRow(m, ids).keys, RefRow(m, ids).values, |ids|, size, b) == RefBlock(m, size, BlockKeys(ids, size)[b])
  {
    hide RefRow;
    hide BlockBytes;
    BlockFits(|ids|, size, b);
    var end := (b + 1) * size;
    var start := b * size;
    assert start == end - size && end == start + size;
    var key := BlockKeys(ids, size)[b];
    assert key == ids[..end];
    RefRowWhole(m, key);
    RefRowWhole(m, ids);
    var whole, named := RefRow(m, ids), RefRow(m, key);
    forall l, i | 0 <= l < m.nLayers && 0 <= i < m.comps
      ensures whole.keys[l][i][start..end] == named.keys[l][i][start..end]
      ensures whole.values[l][i][start..end] == named.values[l][i][start..end]
    {
      RefSpan(m, ids, end, start, l, i);
    }
    SlicesAgree(whole.keys, named.keys, m.comps, start, end);
    SlicesAgree(whole.values, named.values, m.comps, start, end);
  }

  lemma SlicesAgree(a: seq<seq<Row>>, b: seq<seq<Row>>, comps: nat, start: nat, stop: nat)
    requires |a| == |b| && start <= stop && forall l :: 0 <= l < |a| ==> |a[l]| == |b[l]| == comps
    requires forall l, i :: 0 <= l < |a| && 0 <= i < |a[l]| ==> stop <= |a[l][i]|
    requires forall l, i :: 0 <= l < |b| && 0 <= i < |b[l]| ==> stop <= |b[l][i]|
    requires forall l, i :: 0 <= l < |a| && 0 <= i < comps ==> a[l][i][start..stop] == b[l][i][start..stop]
    ensures SliceLayers(a, start, stop) == SliceLayers(b, start, stop)
  {
    forall l | 0 <= l < |a|
      ensures SliceRows(a[l], start, stop) == SliceRows(b[l], start, stop)
    {
    }
  }
}
