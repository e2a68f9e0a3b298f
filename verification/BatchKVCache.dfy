/** The left-padded batched K/V cache (src/cache/batch_kv_cache.cpp), refined by a plain list of
    rows: row b is what sits in slots [left_padding[b], idx), plus its RoPE offset. */
module BatchCache {
  import opened KvQuant

  /** [layer][component]; a layer is empty until its first write. */
  type Store = seq<seq<Tensor>>

  /** One request's history, free of padding: [layer][component][position], and the position
      its next token takes. */
  datatype CacheRow = CacheRow(keys: seq<seq<Row>>, values: seq<seq<Row>>, offset: int)

  predicate StoreOk(s: Store, comps: nat, rows: nat, cap: nat) {
    forall l :: 0 <= l < |s| ==> (s[l] == [] || |s[l]| == comps) && AllShaped(s[l], rows, cap)
  }

  /** Either every layer has been written or none has. */
  predicate Uniform(keys: Store, values: Store)
    requires |keys| == |values| && 0 < |keys|
  {
    forall l :: 0 <= l < |keys| ==> (keys[l] == []) == (keys[0] == []) && (values[l] == []) == (keys[0] == [])
  }

  function LayerSection(ts: seq<Tensor>, comps: nat, b: nat, lo: nat, hi: nat): (r: seq<Row>)
    requires ts == [] || |ts| == comps
    requires lo <= hi
    requires forall i :: 0 <= i < |ts| ==> b < |ts[i]| && hi <= |ts[i][b]|
    ensures |r| == comps
  {
    seq(comps, i requires 0 <= i < comps => if ts == [] then [] else ts[i][b][lo..hi])
  }

  function Sections(s: Store, comps: nat, b: nat, lo: nat, hi: nat): (r: seq<seq<Row>>)
    requires forall l :: 0 <= l < |s| ==> s[l] == [] || |s[l]| == comps
    requires lo <= hi
    requires forall l, i :: 0 <= l < |s| && 0 <= i < |s[l]| ==> b < |s[l][i]| && hi <= |s[l][i][b]|
    ensures |r| == |s|
  {
    seq(|s|, l requires 0 <= l < |s| => LayerSection(s[l], comps, b, lo, hi))
  }

  function Min(a: int, b: int): int {
    if a < b then a else b
  }

  function Max(a: int, b: int): int {
    if a < b then b else a
  }

  function Repeat<T>(n: nat, x: T): seq<T> {
    seq(n, _ => x)
  }

  /** Offsets start at minus the left padding. */
  function Neg(v: seq<nat>): seq<int> {
    seq(|v|, i requires 0 <= i < |v| => -(v[i] as int))
  }

  function EmptyRow(nLayers: nat, comps: nat, offset: int): CacheRow {
    var none := Repeat(nLayers, Repeat(comps, []));
    CacheRow(none, none, offset)
  }

  function Select<T>(rows: seq<T>, keep: seq<nat>): seq<T>
    requires forall i :: 0 <= i < |keep| ==> keep[i] < |rows|
  {
    seq(|keep|, i requires 0 <= i < |keep| => rows[keep[i]])
  }

  /** Least element, as mx::min computes it. */
  function MinOf(s: seq<nat>): (m: nat)
    requires s != []
    ensures m in s && forall i :: 0 <= i < |s| ==> m <= s[i]
  {
    if |s| == 1 then s[0] else Min(s[0], MinOf(s[1..]))
  }

  // ---------------------------------------------------------------- one tensor at a time

  /** pad_rows: append `extra` zero rows. */
  function PadRows(t: Tensor, extra: nat, cap: nat): Tensor {
    t + Zeros(extra, cap)
  }

  /** pad_layer on one component: right-justify at the common write index and size to
      `maxSize`, trimming the unused tail when that would overshoot. */
  function PadSeq(t: Tensor, len: nat, left: nat, maxSize: nat): (r: Tensor)
    requires left <= maxSize
    requires forall i :: 0 <= i < |t| ==> |t[i]| == len
    ensures Shaped(r, |t|, maxSize)
  {
    var right := maxSize - len - left;
    var x := if right < 0 then SliceSeq(t, 0, len + right) else t;
    ConcatSeq(ConcatSeq(Zeros(|t|, left), x), Zeros(|t|, if right < 0 then 0 else right))
  }

  lemma PadSeqShifts(t: Tensor, len: nat, left: nat, maxSize: nat, lo: nat, hi: nat, b: nat)
    requires Shaped(t, |t|, len) && b < |t|
    requires lo <= hi <= len && hi + left <= maxSize
    ensures PadSeq(t, len, left, maxSize)[b][lo + left..hi + left] == t[b][lo..hi]
  {
    var r := PadSeq(t, len, left, maxSize);
    var right := maxSize - len - left;
    var x := if right < 0 then SliceSeq(t, 0, len + right) else t;
    assert x[b][lo..hi] == t[b][lo..hi];
    assert r[b] == Zeros(|t|, left)[b] + x[b] + Zeros(|t|, if right < 0 then 0 else right)[b];
  }

  lemma SectionsEqual(s: Store, b: nat, lo: nat, hi: nat, s': Store, b': nat, lo': nat, hi': nat, comps: nat)
    requires |s| == |s'| && lo <= hi && lo' <= hi'
    requires forall l :: 0 <= l < |s| ==> (s[l] == [] || |s[l]| == comps) && |s[l]| == |s'[l]|
    requires forall l, i :: 0 <= l < |s| && 0 <= i < |s[l]| ==> b < |s[l][i]| && hi <= |s[l][i][b]|
    requires forall l, i :: 0 <= l < |s'| && 0 <= i < |s'[l]| ==> b' < |s'[l][i]| && hi' <= |s'[l][i][b']|
    requires forall l, i :: 0 <= l < |s| && 0 <= i < |s[l]| ==> s[l][i][b][lo..hi] == s'[l][i][b'][lo'..hi']
    ensures Sections(s, comps, b, lo, hi) == Sections(s', comps, b', lo', hi')
  {
    forall l | 0 <= l < |s|
      ensures LayerSection(s[l], comps, b, lo, hi) == LayerSection(s'[l], comps, b', lo', hi')
    {
    }
  }

  // ---------------------------------------------------------------- rows

  ghost predicate Bounded(s: Store, comps: nat, rows: nat, idx: nat) {
    forall l :: 0 <= l < |s| ==>
      && (s[l] == [] || |s[l]| == comps)
      && forall i :: 0 <= i < |s[l]| ==>
           && |s[l][i]| == rows
           && forall b :: 0 <= b < rows ==> idx <= |s[l][i][b]|
  }

  ghost function RowOf(keys: Store, values: Store, comps: nat, offset: seq<int>, padding: seq<nat>, idx: nat, b: nat): CacheRow
    requires b < |padding| == |offset|
    requires Bounded(keys, comps, |padding|, idx) && Bounded(values, comps, |padding|, idx)
  {
    var lo := Min(padding[b], idx);
    CacheRow(Sections(keys, comps, b, lo, idx), Sections(values, comps, b, lo, idx), offset[b])
  }

  ghost function RowsOf(keys: Store, values: Store, comps: nat, offset: seq<int>, padding: seq<nat>, idx: nat): (r: seq<CacheRow>)
    requires |padding| == |offset|
    requires Bounded(keys, comps, |padding|, idx) && Bounded(values, comps, |padding|, idx)
    ensures |r| == |padding|
  {
    seq(|padding|, b requires 0 <= b < |padding| => RowOf(keys, values, comps, offset, padding, idx, b))
  }

  ghost predicate PaddedRows(ts: seq<Tensor>, ts0: seq<Tensor>, extra: nat, cap: nat) {
    |ts| == |ts0| && forall i :: 0 <= i < |ts| ==> ts[i] == PadRows(ts0[i], extra, cap)
  }

  lemma PadRowsKeepsSections(s0: Store, s: Store, comps: nat, rows: nat, cap: nat, idx: nat, extra: nat)
    requires StoreOk(s0, comps, rows, cap) && idx <= cap && |s| == |s0|
    requires forall l :: 0 <= l < |s| ==> PaddedRows(s[l], s0[l], extra, cap)
    ensures StoreOk(s, comps, rows + extra, cap)
    ensures forall b, lo :: 0 <= b < rows && 0 <= lo <= idx ==> Sections(s, comps, b, lo, idx) == Sections(s0, comps, b, lo, idx)
    ensures forall b :: rows <= b < rows + extra ==> Sections(s, comps, b, idx, idx) == Repeat(|s|, Repeat(comps, []))
  {
    forall l, i | 0 <= l < |s| && 0 <= i < |s[l]|
      ensures Shaped(s[l][i], rows + extra, cap)
    {
      assert Shaped(s0[l][i], rows, cap);
    }
    forall b, lo: nat | 0 <= b < rows && 0 <= lo <= idx
      ensures Sections(s, comps, b, lo, idx) == Sections(s0, comps, b, lo, idx)
    {
      SectionsEqual(s, b, lo, idx, s0, b, lo, idx, comps);
    }
    forall b | rows <= b < rows + extra
      ensures Sections(s, comps, b, idx, idx) == Repeat(|s|, Repeat(comps, []))
    {
      forall l | 0 <= l < |s|
        ensures LayerSection(s[l], comps, b, idx, idx) == Repeat(comps, [])
      {
      }
    }
  }

  lemma PadRowsKeepsRows(keys0: Store, values0: Store, keys: Store, values: Store, comps: nat,
                         offset: seq<int>, padding: seq<nat>, idx: nat, cap: nat, extra: nat)
    requires |offset| == |padding| && |keys| == |keys0| == |values0| == |values| && idx <= cap
    requires StoreOk(keys0, comps, |padding|, cap) && StoreOk(values0, comps, |padding|, cap)
    requires forall l :: 0 <= l < |keys| ==> PaddedRows(keys[l], keys0[l], extra, cap) && PaddedRows(values[l], values0[l], extra, cap)
    ensures StoreOk(keys, comps, |padding| + extra, cap) && StoreOk(values, comps, |padding| + extra, cap)
    ensures RowsOf(keys, values, comps, offset + Repeat(extra, 0), padding + Repeat(extra, idx), idx)
         == RowsOf(keys0, values0, comps, offset, padding, idx) + Repeat(extra, EmptyRow(|keys|, comps, 0))
  {
    PadRowsKeepsSections(keys0, keys, comps, |padding|, cap, idx, extra);
    PadRowsKeepsSections(values0, values, comps, |padding|, cap, idx, extra);
  }

  // ---------------------------------------------------------------- filter

  ghost predicate Taken(ts: seq<Tensor>, ts0: seq<Tensor>, keep: seq<nat>, rows: nat) {
    && |ts| == |ts0| && (forall k :: 0 <= k < |keep| ==> keep[k] < rows)
    && forall i :: 0 <= i < |ts| ==> |ts0[i]| == rows && ts[i] == Select(ts0[i], keep)
  }

  ghost predicate Shifted(ts: seq<Tensor>, ts0: seq<Tensor>, rows: nat, cap: nat, m: nat) {
    && |ts| == |ts0| && AllShaped(ts0, rows, cap) && m <= cap
    && forall i :: 0 <= i < |ts| ==> ts[i] == SliceSeq(ts0[i], m, cap)
  }

  lemma TakeKeepsSections(s0: Store, s: Store, comps: nat, rows: nat, cap: nat, idx: nat, keep: seq<nat>)
    requires StoreOk(s0, comps, rows, cap) && idx <= cap && |s| == |s0|
    requires forall l :: 0 <= l < |s| ==> Taken(s[l], s0[l], keep, rows)
    requires forall k :: 0 <= k < |keep| ==> keep[k] < rows
    ensures StoreOk(s, comps, |keep|, cap)
    ensures forall b, lo :: 0 <= b < |keep| && 0 <= lo <= idx ==> Sections(s, comps, b, lo, idx) == Sections(s0, comps, keep[b], lo, idx)
  {
    forall l, i | 0 <= l < |s| && 0 <= i < |s[l]|
      ensures Shaped(s[l][i], |keep|, cap)
    {
      assert Shaped(s0[l][i], rows, cap);
    }
    forall b, lo: nat | 0 <= b < |keep| && 0 <= lo <= idx
      ensures Sections(s, comps, b, lo, idx) == Sections(s0, comps, keep[b], lo, idx)
    {
      SectionsEqual(s, b, lo, idx, s0, keep[b], lo, idx, comps);
    }
  }

  lemma ShiftKeepsSections(s0: Store, s: Store, comps: nat, rows: nat, cap: nat, idx: nat, m: nat)
    requires StoreOk(s0, comps, rows, cap) && m <= idx <= cap && |s| == |s0|
    requires forall l :: 0 <= l < |s| ==> Shifted(s[l], s0[l], rows, cap, m)
    ensures StoreOk(s, comps, rows, cap - m)
    ensures forall b, lo :: 0 <= b < rows && m <= lo <= idx ==> Sections(s, comps, b, lo - m, idx - m) == Sections(s0, comps, b, lo, idx)
  {
    forall l, i | 0 <= l < |s| && 0 <= i < |s[l]|
      ensures Shaped(s[l][i], rows, cap - m)
    {
      assert Shaped(s0[l][i], rows, cap);
    }
    forall b, lo: nat | 0 <= b < rows && m <= lo <= idx
      ensures Sections(s, comps, b, lo - m, idx - m) == Sections(s0, comps, b, lo, idx)
    {
      forall l, i | 0 <= l < |s| && 0 <= i < |s[l]|
        ensures s[l][i][b][lo - m..idx - m] == s0[l][i][b][lo..idx]
      {
        assert s[l][i] == SliceSeq(s0[l][i], m, cap);
        assert s[l][i][b] == s0[l][i][b][m..cap];
      }
      SectionsEqual(s, b, lo - m, idx - m, s0, b, lo, idx, comps);
    }
  }

  method TakeLayer(ts: seq<Tensor>, keep: seq<nat>, ghost rows: nat, ghost cap: nat) returns (out: seq<Tensor>)
    requires AllShaped(ts, rows, cap)
    requires forall k :: 0 <= k < |keep| ==> keep[k] < rows
    ensures Taken(out, ts, keep, rows)
  {
    out := ts;
    for i := 0 to |ts|
      invariant |out| == |ts|
      invariant forall k :: 0 <= k < i ==> out[k] == Select(ts[k], keep)
      invariant forall k :: i <= k < |ts| ==> out[k] == ts[k]
    {
      out := out[i := Select(out[i], keep)];
    }
  }

  method ShiftLayer(ts: seq<Tensor>, m: nat, ghost rows: nat, ghost cap: nat) returns (out: seq<Tensor>)
    requires AllShaped(ts, rows, cap) && 0 < rows && m <= cap
    ensures Shifted(out, ts, rows, cap, m)
  {
    out := ts;
    for i := 0 to |ts|
      invariant |out| == |ts|
      invariant forall k :: 0 <= k < i ==> out[k] == SliceSeq(ts[k], m, cap)
      invariant forall k :: i <= k < |ts| ==> out[k] == ts[k]
    {
      assert Shaped(ts[i], rows, cap);
      out := out[i := SliceSeq(out[i], m, |out[i][0]|)];
    }
  }

  // ---------------------------------------------------------------- merge

  /** One component of a merged layer: this cache's rows, then the other's, both right-justified. */
  ghost predicate Merged(ts: seq<Tensor>, ta: seq<Tensor>, tb: seq<Tensor>, rowsA: nat, rowsB: nat,
                         capA: nat, capB: nat, leftA: nat, leftB: nat, size: nat)
  {
    && |ts| == |ta| == |tb| && leftA <= size && leftB <= size
    && AllShaped(ta, rowsA, capA) && AllShaped(tb, rowsB, capB)
    && forall i :: 0 <= i < |ts| ==> ts[i] == PadSeq(ta[i], capA, leftA, size) + PadSeq(tb[i], capB, leftB, size)
  }

  method PadLayer(ts: seq<Tensor>, left: nat, size: nat, ghost rows: nat, ghost cap: nat) returns (out: seq<Tensor>)
    requires AllShaped(ts, rows, cap) && 0 < rows && left <= size
    ensures |out| == |ts| && forall i :: 0 <= i < |ts| ==> Shaped(ts[i], rows, cap) && out[i] == PadSeq(ts[i], cap, left, size)
  {
    out := [];
    for i := 0 to |ts|
      invariant |out| == i
      invariant forall k :: 0 <= k < i ==> Shaped(ts[k], rows, cap) && out[k] == PadSeq(ts[k], cap, left, size)
    {
      assert Shaped(ts[i], rows, cap);
      out := out + [PadSeq(ts[i], |ts[i][0]|, left, size)];
    }
  }

  method MergeLayer(ta: seq<Tensor>, tb: seq<Tensor>, leftA: nat, leftB: nat, size: nat,
                    ghost rowsA: nat, ghost rowsB: nat, ghost capA: nat, ghost capB: nat)
    returns (out: seq<Tensor>)
    requires AllShaped(ta, rowsA, capA) && AllShaped(tb, rowsB, capB) && 0 < rowsA && 0 < rowsB
    requires |ta| == |tb| && leftA <= size && leftB <= size
    ensures Merged(out, ta, tb, rowsA, rowsB, capA, capB, leftA, leftB, size)
  {
    var pa := PadLayer(ta, leftA, size, rowsA, capA);
    var pb := PadLayer(tb, leftB, size, rowsB, capB);
    out := [];
    for i := 0 to |pa|
      invariant |out| == i
      invariant forall k :: 0 <= k < i ==> out[k] == pa[k] + pb[k]
    {
      out := out + [pa[i] + pb[i]];
    }
  }

  /** Rows `base`.. of `s` are the rows of `sx`, `left` slots deeper. */
  ghost predicate Placed(s: Store, sx: Store, rows: nat, cap: nat, base: nat, left: nat, size: nat) {
    && |s| == |sx| && left <= size
    && (forall l :: 0 <= l < |s| ==> |s[l]| == |sx[l]| && AllShaped(sx[l], rows, cap))
    && (forall l, i :: 0 <= l < |s| && 0 <= i < |s[l]| ==>
         && base + rows <= |s[l][i]| && Shaped(sx[l][i], rows, cap)
         && forall b :: 0 <= b < rows ==> s[l][i][base + b] == PadSeq(sx[l][i], cap, left, size)[b])
  }

  lemma PlacedKeepsSections(s: Store, sx: Store, comps: nat, rows: nat, cap: nat, base: nat, left: nat, size: nat,
                            lo: nat, idx: nat, b: nat)
    requires Placed(s, sx, rows, cap, base, left, size)
    requires lo <= idx <= cap && idx + left <= size && b < rows
    requires forall l :: 0 <= l < |s| ==> s[l] == [] || |s[l]| == comps
    requires forall l, i :: 0 <= l < |s| && 0 <= i < |s[l]| ==> base + b < |s[l][i]| && size <= |s[l][i][base + b]|
    requires forall l, i :: 0 <= l < |s| && 0 <= i < |s[l]| ==> b < |sx[l][i]| && idx <= |sx[l][i][b]|
    ensures Sections(s, comps, base + b, lo + left, idx + left) == Sections(sx, comps, b, lo, idx)
  {
    forall l, i | 0 <= l < |s| && 0 <= i < |s[l]|
      ensures s[l][i][base + b][lo + left..idx + left] == sx[l][i][b][lo..idx]
    {
      assert Shaped(sx[l][i], rows, cap);
      PadSeqShifts(sx[l][i], cap, left, size, lo, idx, b);
    }
    SectionsEqual(s, base + b, lo + left, idx + left, sx, b, lo, idx, comps);
  }

  lemma MergedPlaces(sa: Store, sb: Store, s: Store, comps: nat, rowsA: nat, rowsB: nat, capA: nat, capB: nat,
                     leftA: nat, leftB: nat, size: nat)
    requires |s| == |sa| == |sb| && leftA <= size && leftB <= size
    requires StoreOk(sa, comps, rowsA, capA) && StoreOk(sb, comps, rowsB, capB)
    requires forall l :: 0 <= l < |s| ==> Merged(s[l], sa[l], sb[l], rowsA, rowsB, capA, capB, leftA, leftB, size)
    ensures StoreOk(s, comps, rowsA + rowsB, size)
    ensures Placed(s, sa, rowsA, capA, 0, leftA, size)
    ensures Placed(s, sb, rowsB, capB, rowsA, leftB, size)
  {
    forall l, i | 0 <= l < |s| && 0 <= i < |s[l]|
      ensures Shaped(s[l][i], rowsA + rowsB, size)
      ensures forall b :: 0 <= b < rowsA ==> s[l][i][b] == PadSeq(sa[l][i], capA, leftA, size)[b]
      ensures forall b :: 0 <= b < rowsB ==> s[l][i][rowsA + b] == PadSeq(sb[l][i], capB, leftB, size)[b]
    {
      assert Shaped(sa[l][i], rowsA, capA) && Shaped(sb[l][i], rowsB, capB);
    }
  }

  /** left_padding after `n` more slots of padding. */
  function Deepen(padding: seq<nat>, n: nat): seq<nat> {
    seq(|padding|, b requires 0 <= b < |padding| => padding[b] + n)
  }

  /** left_padding after a common pad of `m` is shifted off. */
  function Raise(padding: seq<nat>, m: nat): seq<nat>
    requires forall b :: 0 <= b < |padding| ==> m <= padding[b]
  {
    seq(|padding|, b requires 0 <= b < |padding| => padding[b] - m)
  }

  lemma TakeKeepsRows(keys0: Store, values0: Store, keys: Store, values: Store, comps: nat,
                      offset: seq<int>, padding: seq<nat>, idx: nat, cap: nat, keep: seq<nat>)
    requires |offset| == |padding| && |keys| == |keys0| && |values| == |values0| && idx <= cap
    requires forall k :: 0 <= k < |keep| ==> keep[k] < |padding|
    requires StoreOk(keys0, comps, |padding|, cap) && StoreOk(values0, comps, |padding|, cap)
    requires forall l :: 0 <= l < |keys| ==> Taken(keys[l], keys0[l], keep, |padding|)
    requires forall l :: 0 <= l < |values| ==> Taken(values[l], values0[l], keep, |padding|)
    ensures StoreOk(keys, comps, |keep|, cap) && StoreOk(values, comps, |keep|, cap)
    ensures RowsOf(keys, values, comps, Select(offset, keep), Select(padding, keep), idx)
         == Select(RowsOf(keys0, values0, comps, offset, padding, idx), keep)
  {
    TakeKeepsSections(keys0, keys, comps, |padding|, cap, idx, keep);
    TakeKeepsSections(values0, values, comps, |padding|, cap, idx, keep);
  }

  lemma ShiftKeepsRows(keys0: Store, values0: Store, keys: Store, values: Store, comps: nat,
                       offset: seq<int>, padding: seq<nat>, cap: nat, idx: nat, m: nat)
    requires |offset| == |padding| && |keys| == |keys0| && |values| == |values0| && m <= idx <= cap
    requires forall b :: 0 <= b < |padding| ==> m <= padding[b] <= idx
    requires StoreOk(keys0, comps, |padding|, cap) && StoreOk(values0, comps, |padding|, cap)
    requires forall l :: 0 <= l < |keys| ==> Shifted(keys[l], keys0[l], |padding|, cap, m)
    requires forall l :: 0 <= l < |values| ==> Shifted(values[l], values0[l], |padding|, cap, m)
    ensures StoreOk(keys, comps, |padding|, cap - m) && StoreOk(values, comps, |padding|, cap - m)
    ensures RowsOf(keys, values, comps, offset, Raise(padding, m), idx - m) == RowsOf(keys0, values0, comps, offset, padding, idx)
  {
    ShiftKeepsSections(keys0, keys, comps, |padding|, cap, idx, m);
    ShiftKeepsSections(values0, values, comps, |padding|, cap, idx, m);
    hide Shifted;
    hide Sections;
    forall b | 0 <= b < |padding|
      ensures RowOf(keys, values, comps, offset, Raise(padding, m), idx - m, b) == RowOf(keys0, values0, comps, offset, padding, idx, b)
    {
    }
  }

  /** Two caches merged at write index `idx`. */
  lemma PlacedRow(keys: Store, values: Store, kx: Store, vx: Store, comps: nat, rows: nat, cap: nat,
                  offset: seq<int>, padding: seq<nat>, offsetX: seq<int>, paddingX: seq<nat>,
                  base: nat, idxX: nat, idx: nat, size: nat, b: nat)
    requires b < |paddingX| == |offsetX| == rows && base + b < |padding| == |offset|
    requires idxX <= cap && idxX <= idx <= size && |values| == |keys|
    requires paddingX[b] <= idxX && padding[base + b] == paddingX[b] + (idx - idxX) && offset[base + b] == offsetX[b]
    requires StoreOk(keys, comps, |padding|, size) && StoreOk(values, comps, |padding|, size)
    requires StoreOk(kx, comps, rows, cap) && StoreOk(vx, comps, rows, cap)
    requires Placed(keys, kx, rows, cap, base, idx - idxX, size) && Placed(values, vx, rows, cap, base, idx - idxX, size)
    ensures RowOf(keys, values, comps, offset, padding, idx, base + b) == RowOf(kx, vx, comps, offsetX, paddingX, idxX, b)
  {
    PlacedKeepsSections(keys, kx, comps, rows, cap, base, idx - idxX, size, paddingX[b], idxX, b);
    PlacedKeepsSections(values, vx, comps, rows, cap, base, idx - idxX, size, paddingX[b], idxX, b);
  }

  lemma PlacedRows(keys: Store, values: Store, kx: Store, vx: Store, comps: nat, rows: nat, cap: nat,
                   offset: seq<int>, padding: seq<nat>, offsetX: seq<int>, paddingX: seq<nat>,
                   base: nat, idxX: nat, idx: nat, size: nat)
    requires |paddingX| == |offsetX| == rows && base + rows <= |padding| == |offset|
    requires idxX <= cap && idxX <= idx <= size && |values| == |keys|
    requires forall b :: 0 <= b < rows ==> paddingX[b] <= idxX
    requires padding[base..base + rows] == Deepen(paddingX, idx - idxX) && offset[base..base + rows] == offsetX
    requires StoreOk(keys, comps, |padding|, size) && StoreOk(values, comps, |padding|, size)
    requires StoreOk(kx, comps, rows, cap) && StoreOk(vx, comps, rows, cap)
    requires Placed(keys, kx, rows, cap, base, idx - idxX, size) && Placed(values, vx, rows, cap, base, idx - idxX, size)
    ensures RowsOf(keys, values, comps, offset, padding, idx)[base..base + rows] == RowsOf(kx, vx, comps, offsetX, paddingX, idxX)
  {
    forall b | 0 <= b < rows
      ensures RowOf(keys, values, comps, offset, padding, idx, base + b) == RowOf(kx, vx, comps, offsetX, paddingX, idxX, b)
    {
      assert offset[base + b] == offset[base..base + rows][b];
      assert padding[base + b] == padding[base..base + rows][b];
      PlacedRow(keys, values, kx, vx, comps, rows, cap, offset, padding, offsetX, paddingX, base, idxX, idx, size, b);
    }
  }

  lemma MergeKeepsRows(keys: Store, values: Store, ka: Store, va: Store, kb: Store, vb: Store, comps: nat,
                       offsetA: seq<int>, paddingA: seq<nat>, offsetB: seq<int>, paddingB: seq<nat>,
                       capA: nat, capB: nat, idxA: nat, idxB: nat, idx: nat, size: nat)
    requires |offsetA| == |paddingA| && |offsetB| == |paddingB| && |keys| == |ka| == |kb| == |values| == |va| == |vb|
    requires idxA <= capA && idxB <= capB && idxA <= idx && idxB <= idx <= size
    requires forall b :: 0 <= b < |paddingA| ==> paddingA[b] <= idxA
    requires forall b :: 0 <= b < |paddingB| ==> paddingB[b] <= idxB
    requires StoreOk(ka, comps, |paddingA|, capA) && StoreOk(va, comps, |paddingA|, capA)
    requires StoreOk(kb, comps, |paddingB|, capB) && StoreOk(vb, comps, |paddingB|, capB)
    requires forall l :: 0 <= l < |keys| ==> Merged(keys[l], ka[l], kb[l], |paddingA|, |paddingB|, capA, capB, idx - idxA, idx - idxB, size)
    requires forall l :: 0 <= l < |keys| ==> Merged(values[l], va[l], vb[l], |paddingA|, |paddingB|, capA, capB, idx - idxA, idx - idxB, size)
    ensures StoreOk(keys, comps, |paddingA| + |paddingB|, size) && StoreOk(values, comps, |paddingA| + |paddingB|, size)
    ensures RowsOf(keys, values, comps, offsetA + offsetB, Deepen(paddingA, idx - idxA) + Deepen(paddingB, idx - idxB), idx)
         == RowsOf(ka, va, comps, offsetA, paddingA, idxA) + RowsOf(kb, vb, comps, offsetB, paddingB, idxB)
  {
    var rowsA, rowsB := |paddingA|, |paddingB|;
    MergedPlaces(ka, kb, keys, comps, rowsA, rowsB, capA, capB, idx - idxA, idx - idxB, size);
    MergedPlaces(va, vb, values, comps, rowsA, rowsB, capA, capB, idx - idxA, idx - idxB, size);
    var offset, padding := offsetA + offsetB, Deepen(paddingA, idx - idxA) + Deepen(paddingB, idx - idxB);
    PlacedRows(keys, values, ka, va, comps, rowsA, capA, offset, padding, offsetA, paddingA, 0, idxA, idx, size);
    PlacedRows(keys, values, kb, vb, comps, rowsB, capB, offset, padding, offsetB, paddingB, rowsA, idxB, idx, size);
    var all := RowsOf(keys, values, comps, offset, padding, idx);
    assert all == all[..rowsA] + all[rowsA..];
  }

  /** `ts` is `ts0` with `x` written at slot `prev`; slots before `prev` are as they were. */
  ghost predicate Updated(ts: seq<Tensor>, ts0: seq<Tensor>, x: seq<Tensor>, rows: nat, cap: nat, prev: nat) {
    && |ts| == |x| && AllShaped(ts, rows, cap)
    && (forall i :: 0 <= i < |x| ==> Holds(ts[i], prev, x[i]))
    && (ts0 != [] ==> |ts0| == |x| && forall i :: 0 <= i < |x| ==> SamePrefix(ts[i], ts0[i], prev))
  }

  /** Writing extends a row: its old section, then the new cells from its first real one. */
  lemma UpdatedExtends(ts: seq<Tensor>, ts0: seq<Tensor>, x: seq<Tensor>, rows: nat, cap: nat, cap0: nat, prev: nat, n: nat,
                       b: nat, padding: nat, pad: nat, i: nat)
    requires Updated(ts, ts0, x, rows, cap, prev) && AllShaped(x, rows, n) && AllShaped(ts0, rows, cap0)
    requires prev + n <= cap && prev <= cap0 && (ts0 == [] ==> prev == 0)
    requires b < rows && i < |x|
    requires pad == Max(0, Min(padding - prev, n))
    ensures ts[i][b][Min(padding, prev + n)..prev + n]
         == LayerSection(ts0, |x|, b, Min(padding, prev), prev)[i] + x[i][b][pad..]
  {
    assert Shaped(ts[i], rows, cap) && Shaped(x[i], rows, n);
    var row := ts[i][b];
    assert row[prev..prev + n] == x[i][b];
    if padding < prev {
      assert Shaped(ts0[i], rows, cap0);
      assert row[..prev] == ts0[i][b][..prev];
      assert row[padding..prev] == row[..prev][padding..];
      assert row[padding..prev + n] == row[padding..prev] + row[prev..prev + n];
    } else {
      assert row[prev + pad..prev + n] == row[prev..prev + n][pad..];
    }
  }

  class BatchKVCache {
    /** 1 component per layer when dense, 3 when quantized. */
    const comps: nat
    var batch: nat
    var idx: nat
    var keys: Store
    var values: Store
    var offset: seq<int>
    var leftPadding: seq<nat>

    function SCap(): nat
      reads this
    {
      if keys == [] || keys[0] == [] || keys[0][0] == [] then 0 else |keys[0][0][0]|
    }

    ghost predicate Valid()
      reads this
    {
      && 0 < comps && 0 < |keys| == |values|
      && |offset| == |leftPadding| == batch
      && StoreOk(keys, comps, batch, SCap()) && StoreOk(values, comps, batch, SCap())
      && idx <= SCap()
      && Uniform(keys, values)
    }

    /** Every row has at least reached its first real token. */
    ghost predicate Started()
      reads this
    {
      forall b :: 0 <= b < |leftPadding| ==> leftPadding[b] <= idx
    }

    /** offset + left_padding == idx, for every row. */
    ghost predicate Aligned()
      reads this`idx, this`offset, this`leftPadding
    {
      && |offset| == |leftPadding|
      && forall b :: 0 <= b < |offset| ==> offset[b] + leftPadding[b] == idx
    }

    /** The abstract value: a plain list of rows. */
    ghost function Rows(): (r: seq<CacheRow>)
      reads this
      requires Valid()
      ensures |r| == batch
    {
      RowsOf(keys, values, comps, offset, leftPadding, idx)
    }

    constructor (nLayers: nat, padding: seq<nat>, nComps: nat)
      requires 0 < nLayers && 0 < nComps
      ensures Valid() && Aligned() && comps == nComps && |keys| == nLayers && idx == 0
      ensures leftPadding == padding && batch == |padding|
      ensures keys == values == Repeat(nLayers, [])
      ensures forall b :: 0 <= b < |padding| ==> Rows()[b] == EmptyRow(nLayers, nComps, Neg(padding)[b])
    {
      comps := nComps;
      batch := |padding|;
      idx := 0;
      keys := Repeat(nLayers, []);
      values := Repeat(nLayers, []);
      offset := Neg(padding);
      leftPadding := padding;
      new;
      forall b | 0 <= b < batch
        ensures Sections(keys, comps, b, 0, 0) == Repeat(nLayers, Repeat(nComps, []))
      {
        assert LayerSection([], comps, b, 0, 0) == Repeat(nComps, []);
      }
    }

    /** Bump the shared bookkeeping once per token sweep. */
    method Advance(n: nat)
      modifies this`idx, this`offset
      ensures idx == old(idx) + n
      ensures |offset| == |old(offset)|
      ensures forall b :: 0 <= b < |offset| ==> offset[b] == old(offset)[b] + n
      ensures old(Aligned()) ==> Aligned()
    {
      idx := idx + n;
      var was := offset;
      offset := seq(|was|, b requires 0 <= b < |was| => was[b] + n);
    }

    /** update_and_fetch: write one layer's new K/V at the write position and return the
        populated slots to attend over. The shared bookkeeping moves later, in Advance. */
    method UpdateAndFetch(layer: nat, k: seq<Tensor>, v: seq<Tensor>, ghost cap: nat, ghost n: nat)
      returns (ks: seq<Tensor>, vs: seq<Tensor>)
      requires layer < |keys| == |values| && 0 < comps && 0 < batch
      requires |k| == |v| == comps && AllShaped(k, batch, n) && AllShaped(v, batch, n)
      requires (keys[layer] == []) == (values[layer] == [])
      requires keys[layer] == [] || |keys[layer]| == |values[layer]| == comps
      requires AllShaped(keys[layer], batch, cap) && AllShaped(values[layer], batch, cap)
      requires if keys[layer] == [] then idx == 0 else idx <= cap
      modifies this`keys, this`values
      ensures |keys| == |old(keys)| && |values| == |old(values)|
      ensures keys == old(keys)[layer := keys[layer]] && values == old(values)[layer := values[layer]]
      ensures Updated(keys[layer], old(keys[layer]), k, batch, GrownCap(old(keys[layer]) != [], cap, idx, n), idx)
      ensures Updated(values[layer], old(values[layer]), v, batch, GrownCap(old(keys[layer]) != [], cap, idx, n), idx)
      ensures |ks| == |vs| == comps
      ensures forall i :: 0 <= i < comps ==> ks[i] == SliceSeq(keys[layer][i], 0, idx + n) && vs[i] == SliceSeq(values[layer][i], 0, idx + n)
    {
      var kg, vg;
      kg, ks := UpdateKvComponents(keys[layer], k, idx, batch, cap, n);
      vg, vs := UpdateKvComponents(values[layer], v, idx, batch, cap, n);
      keys := keys[layer := kg];
      values := values[layer := vg];
    }

    /** fetch_row_components: one row's components of a layer over slots [leftPad, leftPad + len). */
    method FetchRowComponents(layer: nat, row: nat, leftPad: nat, len: nat) returns (k: seq<Row>, v: seq<Row>)
      requires Valid() && layer < |keys| && keys[0] != [] && row < batch && leftPad + len <= SCap()
      ensures k == LayerSection(keys[layer], comps, row, leftPad, leftPad + len)
      ensures v == LayerSection(values[layer], comps, row, leftPad, leftPad + len)
    {
      k, v := [], [];
      for i := 0 to |keys[layer]|
        invariant |k| == i && forall c :: 0 <= c < i ==> k[c] == keys[layer][c][row][leftPad..leftPad + len]
      {
        k := k + [keys[layer][i][row][leftPad..leftPad + len]];
      }
      for i := 0 to |values[layer]|
        invariant |v| == i && forall c :: 0 <= c < i ==> v[c] == values[layer][c][row][leftPad..leftPad + len]
      {
        v := v + [values[layer][i][row][leftPad..leftPad + len]];
      }
    }

    /** pad_dummies: append `extra` rows that see only their own position. */
    method PadDummies(extra: nat)
      requires Valid() && 0 < batch
      modifies this
      ensures Valid() && |keys| == |old(keys)| && idx == old(idx) && (old(Aligned()) ==> Aligned())
      ensures (old(Started()) ==> Started()) && (old(keys[0]) == [] <==> keys[0] == [])
      ensures batch == old(batch) + extra
      ensures leftPadding == old(leftPadding) + Repeat(extra, idx)
      ensures Rows() == old(Rows()) + Repeat(extra, EmptyRow(|keys|, comps, 0))
    {
      ghost var keys0, values0, padding0, offset0, cap := keys, values, leftPadding, offset, SCap();
      if extra == 0 {
        return;
      }
      for l := 0 to |keys|
        invariant |keys| == |keys0| && |values| == |keys0|
        invariant batch == old(batch) && idx == old(idx) && offset == old(offset) && leftPadding == old(leftPadding)
        invariant forall k :: l <= k < |keys| ==> keys[k] == keys0[k] && values[k] == values0[k]
        invariant forall k :: 0 <= k < l ==> PaddedRows(keys[k], keys0[k], extra, cap) && PaddedRows(values[k], values0[k], extra, cap)
      {
        if keys[l] != [] {
          var ks := PadRowsLayer(keys[l], extra, batch, cap);
          var vs := PadRowsLayer(values[l], extra, batch, cap);
          keys := keys[l := ks];
          values := values[l := vs];
        }
      }
      offset := offset + Repeat(extra, 0);
      leftPadding := leftPadding + Repeat(extra, idx);
      batch := batch + extra;
      PadRowsKeepsRows(keys0, values0, keys, values, comps, offset0, padding0, idx, cap, extra);
    }

    /** filter: keep the given batch rows, then shift off any padding common to the survivors. */
    method Filter(keep: seq<nat>)
      requires Valid() && Started() && 0 < |keep|
      requires forall k :: 0 <= k < |keep| ==> keep[k] < batch
      modifies this
      ensures Valid() && Started() && |keys| == |old(keys)| && batch == |keep| && (old(keys[0]) == [] <==> keys[0] == [])
      ensures old(Aligned()) ==> Aligned()
      ensures exists b :: 0 <= b < batch && leftPadding[b] == 0
      ensures Rows() == Select(old(Rows()), keep)
    {
      TakeRows(keep);
      var minLeftPad := MinOf(leftPadding);
      ghost var least :| 0 <= least < batch && leftPadding[least] == minLeftPad;
      if minLeftPad > 0 {
        ShiftOff(minLeftPad);
      }
      assert leftPadding[least] == 0;
    }

    /** The first half of filter: gather the given rows. */
    method TakeRows(keep: seq<nat>)
      requires Valid() && 0 < |keep|
      requires forall k :: 0 <= k < |keep| ==> keep[k] < batch
      modifies this
      ensures Valid() && |keys| == |old(keys)| && idx == old(idx) && batch == |keep| && (old(keys[0]) == [] <==> keys[0] == [])
      ensures leftPadding == Select(old(leftPadding), keep) && offset == Select(old(offset), keep)
      ensures Rows() == Select(old(Rows()), keep)
    {
      ghost var keys0, values0, rows0, cap := keys, values, batch, SCap();
      for l := 0 to |keys|
        invariant |keys| == |keys0| && |values| == |keys0|
        invariant batch == rows0 && idx == old(idx) && offset == old(offset) && leftPadding == old(leftPadding)
        invariant forall k :: l <= k < |keys| ==> keys[k] == keys0[k] && values[k] == values0[k]
        invariant forall k :: 0 <= k < l ==> Taken(keys[k], keys0[k], keep, rows0) && Taken(values[k], values0[k], keep, rows0)
      {
        var ks := TakeLayer(keys[l], keep, rows0, cap);
        var vs := TakeLayer(values[l], keep, rows0, cap);
        keys := keys[l := ks];
        values := values[l := vs];
      }
      TakeKeepsRows(keys0, values0, keys, values, comps, offset, leftPadding, idx, cap, keep);
      offset := Select(offset, keep);
      leftPadding := Select(leftPadding, keep);
      batch := |keep|;
    }

    /** The second half of filter: drop the first `m` slots of every row. */
    method ShiftOff(m: nat)
      requires Valid() && Started() && 0 < batch
      requires forall b :: 0 <= b < batch ==> m <= leftPadding[b]
      modifies this
      ensures Valid() && Started() && |keys| == |old(keys)| && batch == old(batch) && (old(keys[0]) == [] <==> keys[0] == [])
      ensures leftPadding == Raise(old(leftPadding), m)
      ensures old(Aligned()) ==> Aligned()
      ensures Rows() == old(Rows())
    {
      hide SliceSeq;
      ghost var keys0, values0, padding0, cap := keys, values, leftPadding, SCap();
      assert m <= leftPadding[0] <= idx;
      for l := 0 to |keys|
        invariant |keys| == |keys0| && |values| == |keys0|
        invariant batch == old(batch) && idx == old(idx) && offset == old(offset) && leftPadding == old(leftPadding)
        invariant forall k :: l <= k < |keys| ==> keys[k] == keys0[k] && values[k] == values0[k]
        invariant forall k :: 0 <= k < l ==> Shifted(keys[k], keys0[k], batch, cap, m) && Shifted(values[k], values0[k], batch, cap, m)
      {
        var ks := ShiftLayer(keys[l], m, batch, cap);
        var vs := ShiftLayer(values[l], m, batch, cap);
        keys := keys[l := ks];
        values := values[l := vs];
      }
      ShiftKeepsRows(keys0, values0, keys, values, comps, offset, padding0, cap, idx, m);
      idx := idx - m;
      leftPadding := Raise(leftPadding, m);
    }

    /** merge: admit `other`'s rows after this cache's, right-justified at a common write index.
        Both caches have been written, unless one has no rows. */
    method Merge(other: BatchKVCache)
      requires Valid() && other.Valid() && other != this
      requires comps == other.comps && |keys| == |other.keys|
      requires 0 < batch && 0 < other.batch ==> keys[0] != [] && other.keys[0] != []
      requires Started() && other.Started()
      modifies this
      ensures Valid() && Started() && |keys| == |old(keys)|
      ensures old(Aligned()) && old(other.Aligned()) ==> Aligned()
      ensures batch == old(batch) + other.batch
      ensures other.batch == 0 ==> keys == old(keys)
      ensures 0 < other.batch ==> (keys[0] == [] <==> other.keys[0] == [])
      ensures Rows() == old(Rows()) + other.Rows()
    {
      if other.batch == 0 {
        return;
      }
      if batch == 0 {
        keys := other.keys;
        values := other.values;
        offset := other.offset;
        leftPadding := other.leftPadding;
        idx := other.idx;
        batch := other.batch;
        return;
      }
      MergeWritten(other);
    }

    /** merge of two written caches that both hold rows. */
    method MergeWritten(other: BatchKVCache)
      requires Valid() && other.Valid() && other != this && Started() && other.Started()
      requires comps == other.comps && |keys| == |other.keys| && keys[0] != [] && other.keys[0] != []
      requires 0 < batch && 0 < other.batch
      modifies this
      ensures Valid() && Started() && |keys| == |old(keys)| && keys[0] != []
      ensures old(Aligned()) && old(other.Aligned()) ==> Aligned()
      ensures batch == old(batch) + other.batch
      ensures Rows() == old(Rows()) + other.Rows()
    {
      var maxIdx := Max(idx, other.idx);
      var maxSize := Max(SCap(), other.SCap());
      MergeStores(other, maxIdx, maxSize);
      leftPadding := Deepen(leftPadding, maxIdx - idx) + Deepen(other.leftPadding, maxIdx - other.idx);
      offset := offset + other.offset;
      idx := maxIdx;
      batch := batch + other.batch;
    }

    /** The storage half of merge: both sides right-justified at `maxIdx`, sized `size`. */
    method MergeStores(other: BatchKVCache, maxIdx: nat, size: nat)
      requires Valid() && other.Valid() && other != this && Started() && other.Started()
      requires comps == other.comps && |keys| == |other.keys| && keys[0] != [] && other.keys[0] != []
      requires 0 < batch && 0 < other.batch && idx <= maxIdx <= size && other.idx <= maxIdx
      modifies this`keys, this`values
      ensures |keys| == |values| == |old(keys)| && keys[0] != [] && Uniform(keys, values)
      ensures StoreOk(keys, comps, batch + other.batch, size) && StoreOk(values, comps, batch + other.batch, size)
      ensures RowsOf(keys, values, comps, offset + other.offset,
                     Deepen(leftPadding, maxIdx - idx) + Deepen(other.leftPadding, maxIdx - other.idx), maxIdx)
           == old(Rows()) + other.Rows()
    {
      ghost var keys0, values0, capA, capB := keys, values, SCap(), other.SCap();
      MergeLayers(other, maxIdx - idx, maxIdx - other.idx, size);
      MergeKeepsRows(keys, values, keys0, values0, other.keys, other.values, comps, offset, leftPadding, other.offset,
                     other.leftPadding, capA, capB, idx, other.idx, maxIdx, size);
    }

    method MergeLayers(other: BatchKVCache, leftA: nat, leftB: nat, size: nat)
      requires Valid() && other.Valid() && other != this
      requires comps == other.comps && |keys| == |other.keys| && keys[0] != [] && other.keys[0] != []
      requires 0 < batch && 0 < other.batch && leftA <= size && leftB <= size
      modifies this`keys, this`values
      ensures |keys| == |values| == |old(keys)|
      ensures forall l :: 0 <= l < |keys| ==>
                          && Merged(keys[l], old(keys[l]), other.keys[l], batch, other.batch, old(SCap()), other.SCap(), leftA, leftB, size)
                          && Merged(values[l], old(values[l]), other.values[l], batch, other.batch, old(SCap()), other.SCap(), leftA, leftB, size)
    {
      ghost var keys0, values0, capA, capB := keys, values, SCap(), other.SCap();
      for l := 0 to |keys|
        invariant |keys| == |keys0| && |values| == |keys0|
        invariant forall k :: l <= k < |keys| ==> keys[k] == keys0[k] && values[k] == values0[k]
        invariant forall k :: 0 <= k < l ==> Merged(keys[k], keys0[k], other.keys[k], batch, other.batch, capA, capB, leftA, leftB, size)
        invariant forall k :: 0 <= k < l ==> Merged(values[k], values0[k], other.values[k], batch, other.batch, capA, capB, leftA, leftB, size)
      {
        var ks := MergeLayer(keys[l], other.keys[l], leftA, leftB, size, batch, other.batch, capA, capB);
        var vs := MergeLayer(values[l], other.values[l], leftA, leftB, size, batch, other.batch, capA, capB);
        keys := keys[l := ks];
        values := values[l := vs];
      }
    }
  }

  method PadRowsLayer(ts: seq<Tensor>, extra: nat, ghost rows: nat, ghost cap: nat) returns (out: seq<Tensor>)
    requires AllShaped(ts, rows, cap) && 0 < rows
    ensures PaddedRows(out, ts, extra, cap)
  {
    out := ts;
    for i := 0 to |ts|
      invariant |out| == |ts|
      invariant forall k :: 0 <= k < i ==> out[k] == PadRows(ts[k], extra, cap)
      invariant forall k :: i <= k < |ts| ==> out[k] == ts[k]
    {
      assert Shaped(ts[i], rows, cap);
      out := out[i := PadRows(out[i], extra, |ts[i][0]|)];
    }
  }
}
