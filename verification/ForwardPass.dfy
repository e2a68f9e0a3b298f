/** The batched forward pass over a left-padded BatchKVCache (src/model/decoder_model.cpp), proved
    to be the one-row forward pass on every row: padding, batch mates and stale slots vanish. */
module ForwardPass {
  import opened KvQuant
  import opened BatchCache
  import opened Transformer

  /** batch_mask: keep[b][q][k] for query column q and physical slot k. */
  function BatchMask(prev: nat, n: nat, padding: seq<nat>): seq<seq<seq<bool>>> {
    seq(|padding|, b requires 0 <= b < |padding| =>
      seq(n, q requires 0 <= q => seq(prev + n, k requires 0 <= k => prev + q >= k && padding[b] <= k)))
  }

  /** The entries of `row` that an additive 0 / -inf mask leaves with a non-zero weight. */
  function Visible(row: Row, keep: seq<bool>): Row
    requires |row| == |keep|
  {
    if row == [] then []
    else
      var last := |row| - 1;
      Visible(row[..last], keep[..last]) + if keep[last] then [row[last]] else []
  }

  function VisibleComps(ts: seq<Tensor>, b: nat, keep: seq<bool>): seq<Row>
    requires forall i :: 0 <= i < |ts| ==> b < |ts[i]| && |ts[i][b]| == |keep|
  {
    seq(|ts|, i requires 0 <= i < |ts| => Visible(ts[i][b], keep))
  }

  /** Roped K of every column: row b, column j sits at position offset[b] + j. */
  function ProjectKeys(m: Model, l: nat, h: seq<seq<Hidden>>, offset: seq<int>): seq<Tensor>
    requires |h| == |offset|
  {
    seq(m.comps, i requires 0 <= i => seq(|h|, b requires 0 <= b < |h| => KeyRow(m, l, h[b], offset[b], i)))
  }

  function ProjectValues(m: Model, l: nat, h: seq<seq<Hidden>>): seq<Tensor> {
    seq(m.comps, i requires 0 <= i => seq(|h|, b requires 0 <= b < |h| => ValueRow(m, l, h[b], i)))
  }

  /** Attention over the fetched slots, residual and MLP included. */
  function AttendRow(m: Model, l: nat, hs: seq<Hidden>, pos: int, keep: seq<seq<bool>>, ks: seq<Tensor>, vs: seq<Tensor>, b: nat): seq<Hidden>
    requires |keep| == |hs|
    requires forall i, j :: 0 <= i < |ks| && 0 <= j < |hs| ==> b < |ks[i]| && |ks[i][b]| == |keep[j]|
    requires forall i, j :: 0 <= i < |vs| && 0 <= j < |hs| ==> b < |vs[i]| && |vs[i][b]| == |keep[j]|
  {
    seq(|hs|, j requires 0 <= j < |hs| =>
      m.block(l, hs[j], pos + j, VisibleComps(ks, b, keep[j]), VisibleComps(vs, b, keep[j])))
  }

  /** An interval mask exposes exactly that interval. */
  lemma {:induction false} VisibleInterval(row: Row, keep: seq<bool>, lo: nat, hi: nat)
    requires |row| == |keep| && lo <= hi < |row|
    requires forall k :: 0 <= k < |row| ==> keep[k] == (lo <= k <= hi)
    ensures Visible(row, keep) == row[lo..hi + 1]
  {
    var last := |row| - 1;
    if last == hi {
      if lo == hi {
        VisibleNone(row[..last], keep[..last]);
      } else {
        VisibleInterval(row[..last], keep[..last], lo, hi - 1);
      }
      assert row[lo..hi + 1] == row[..last][lo..hi] + [row[last]];
    } else {
      VisibleInterval(row[..last], keep[..last], lo, hi);
    }
  }

  lemma {:induction false} VisibleNone(row: Row, keep: seq<bool>)
    requires |row| == |keep| && forall k :: 0 <= k < |row| ==> !keep[k]
    ensures Visible(row, keep) == []
  {
    if row != [] {
      VisibleNone(row[..|row| - 1], keep[..|row| - 1]);
    }
  }

  /** How many of the `n` columns written at `prev` are padding for a row padded to `padding`. */
  function PadCount(padding: nat, prev: nat, n: nat): nat {
    Max(0, Min(padding - prev, n))
  }

  /** Cached positions of a row. */
  function Cached(padding: nat, prev: nat): nat {
    prev - Min(padding, prev)
  }

  /** One layer, one row, K side: the stored section grows by the cells of its real columns. */
  lemma KeysGrow(m: Model, l: nat, h: seq<seq<Hidden>>, offset: seq<int>, ts: seq<Tensor>, ts0: seq<Tensor>,
                 cap: nat, cap0: nat, prev: nat, n: nat, padding: nat, b: nat)
    requires |h| == |offset| && b < |h| && forall r :: 0 <= r < |h| ==> |h[r]| == n
    requires Updated(ts, ts0, ProjectKeys(m, l, h, offset), |h|, cap, prev) && AllShaped(ts0, |h|, cap0)
    requires prev + n <= cap && prev <= cap0 && (ts0 == [] ==> prev == 0) && (ts0 == [] || |ts0| == m.comps)
    ensures
      var pad := PadCount(padding, prev, n);
      LayerSection(ts, m.comps, b, Min(padding, prev + n), prev + n)
      == Extend(LayerSection(ts0, m.comps, b, Min(padding, prev), prev), KeyCells(m, l, h[b][pad..], offset[b] + pad))
  {
    var pad := PadCount(padding, prev, n);
    var x := ProjectKeys(m, l, h, offset);
    forall i | 0 <= i < m.comps
      ensures x[i][b][pad..] == KeyRow(m, l, h[b][pad..], offset[b] + pad, i)
    {
    }
    forall i | 0 <= i < m.comps
      ensures ts[i][b][Min(padding, prev + n)..prev + n]
           == LayerSection(ts0, m.comps, b, Min(padding, prev), prev)[i] + KeyRow(m, l, h[b][pad..], offset[b] + pad, i)
    {
      UpdatedExtends(ts, ts0, x, |h|, cap, cap0, prev, n, b, padding, pad, i);
    }
  }

  lemma ValuesGrow(m: Model, l: nat, h: seq<seq<Hidden>>, ts: seq<Tensor>, ts0: seq<Tensor>,
                   cap: nat, cap0: nat, prev: nat, n: nat, padding: nat, b: nat)
    requires b < |h| && forall r :: 0 <= r < |h| ==> |h[r]| == n
    requires Updated(ts, ts0, ProjectValues(m, l, h), |h|, cap, prev) && AllShaped(ts0, |h|, cap0)
    requires prev + n <= cap && prev <= cap0 && (ts0 == [] ==> prev == 0) && (ts0 == [] || |ts0| == m.comps)
    ensures
      var pad := PadCount(padding, prev, n);
      LayerSection(ts, m.comps, b, Min(padding, prev + n), prev + n)
      == Extend(LayerSection(ts0, m.comps, b, Min(padding, prev), prev), ValueCells(m, l, h[b][pad..]))
  {
    var pad := PadCount(padding, prev, n);
    var x := ProjectValues(m, l, h);
    forall i | 0 <= i < m.comps
      ensures x[i][b][pad..] == ValueRow(m, l, h[b][pad..], i)
    {
    }
    forall i | 0 <= i < m.comps
      ensures ts[i][b][Min(padding, prev + n)..prev + n]
           == LayerSection(ts0, m.comps, b, Min(padding, prev), prev)[i] + ValueRow(m, l, h[b][pad..], i)
    {
      UpdatedExtends(ts, ts0, x, |h|, cap, cap0, prev, n, b, padding, pad, i);
    }
  }

  /** The mask row of a real column exposes the row's own history up to that column. */
  lemma MaskExposesHistory(ts: seq<Tensor>, fetched: seq<Tensor>, comps: nat, padding: seq<nat>, prev: nat, n: nat, b: nat, j: nat)
    requires b < |padding| && j < n && PadCount(padding[b], prev, n) <= j
    requires |ts| == |fetched| == comps
    requires forall i :: 0 <= i < comps ==> b < |ts[i]| && b < |fetched[i]| && prev + n <= |ts[i][b]|
    requires forall i :: 0 <= i < comps ==> fetched[i][b] == ts[i][b][..prev + n]
    ensures
      var sec := LayerSection(ts, comps, b, Min(padding[b], prev + n), prev + n);
      var seen := Cached(padding[b], prev) + (j - PadCount(padding[b], prev, n)) + 1;
      && (forall i :: 0 <= i < comps ==> seen <= |sec[i]|)
      && VisibleComps(fetched, b, BatchMask(prev, n, padding)[b][j]) == Upto(sec, seen)
  {
    var keep := BatchMask(prev, n, padding)[b][j];
    var sec := LayerSection(ts, comps, b, Min(padding[b], prev + n), prev + n);
    var seen := Cached(padding[b], prev) + (j - PadCount(padding[b], prev, n)) + 1;
    forall i | 0 <= i < comps
      ensures Visible(fetched[i][b], keep) == sec[i][..seen]
    {
      VisibleInterval(fetched[i][b], keep, padding[b], prev + j);
    }
  }

  /** Attention over the fetched slots gives the real columns what the one-row layer gives them. */
  lemma AttendIsLayerOut(m: Model, l: nat, hs: seq<Hidden>, pos: int, padding: seq<nat>, prev: nat, n: nat, b: nat,
                         kt: seq<Tensor>, vt: seq<Tensor>, fk: seq<Tensor>, fv: seq<Tensor>, ks0: seq<Row>, vs0: seq<Row>)
    requires b < |padding| && |hs| == n
    requires |kt| == |vt| == |fk| == |fv| == m.comps
    requires forall i :: 0 <= i < m.comps ==> b < |kt[i]| && b < |fk[i]| && prev + n <= |kt[i][b]| && fk[i][b] == kt[i][b][..prev + n]
    requires forall i :: 0 <= i < m.comps ==> b < |vt[i]| && b < |fv[i]| && prev + n <= |vt[i][b]| && fv[i][b] == vt[i][b][..prev + n]
    requires Long(ks0, m.comps, Cached(padding[b], prev)) && Long(vs0, m.comps, Cached(padding[b], prev))
    requires
      var pad := PadCount(padding[b], prev, n);
      && LayerSection(kt, m.comps, b, Min(padding[b], prev + n), prev + n) == Extend(ks0, KeyCells(m, l, hs[pad..], pos + pad))
      && LayerSection(vt, m.comps, b, Min(padding[b], prev + n), prev + n) == Extend(vs0, ValueCells(m, l, hs[pad..]))
    ensures
      var pad := PadCount(padding[b], prev, n);
      AttendRow(m, l, hs, pos, BatchMask(prev, n, padding)[b], fk, fv, b)[pad..]
      == LayerOut(m, l, ks0, vs0, Cached(padding[b], prev), pos + pad, hs[pad..])
  {
    var pad := PadCount(padding[b], prev, n);
    var got := AttendRow(m, l, hs, pos, BatchMask(prev, n, padding)[b], fk, fv, b);
    var want := LayerOut(m, l, ks0, vs0, Cached(padding[b], prev), pos + pad, hs[pad..]);
    forall j | pad <= j < n
      ensures got[j] == want[j - pad]
    {
      MaskExposesHistory(kt, fk, m.comps, padding, prev, n, b, j);
      MaskExposesHistory(vt, fv, m.comps, padding, prev, n, b, j);
    }
  }

  /** The one-row forward pass of row b: only its real columns, after its cached positions. */
  ghost function HiddenOf(m: Model, row: CacheRow, padding: nat, prev: nat, toks: seq<int>, l: nat): seq<Hidden>
    requires l <= m.nLayers && RowOk(m, row, Cached(padding, prev))
  {
    var pad := PadCount(padding, prev, |toks|);
    RowHidden(m, row, Cached(padding, prev), row.offset + pad, toks[pad..], l)
  }

  ghost function ForwardOf(m: Model, row: CacheRow, padding: nat, prev: nat, toks: seq<int>): CacheRow
    requires RowOk(m, row, Cached(padding, prev))
  {
    var pad := PadCount(padding, prev, |toks|);
    RowForward(m, row, Cached(padding, prev), row.offset + pad, toks[pad..])
  }

  lemma ValidRowsOk(m: Model, cache: BatchKVCache)
    requires cache.Valid() && cache.comps == m.comps && |cache.keys| == m.nLayers
    ensures forall b :: 0 <= b < cache.batch ==> RowOk(m, cache.Rows()[b], Cached(cache.leftPadding[b], cache.idx))
  {
  }

  /** Everything one layer of the sweep establishes about row b. */
  ghost predicate LayerDone(m: Model, l: nat, kt: seq<Tensor>, vt: seq<Tensor>, b: nat, rows: nat, cap: nat,
                            padding: nat, prev: nat, toks: seq<int>, row: CacheRow)
    requires l < m.nLayers && RowOk(m, row, Cached(padding, prev)) && b < rows && prev + |toks| <= cap
  {
    && |kt| == |vt| == m.comps && AllShaped(kt, rows, cap) && AllShaped(vt, rows, cap)
    && var end := prev + |toks|;
       var pos := row.offset + PadCount(padding, prev, |toks|);
       var hs := HiddenOf(m, row, padding, prev, toks, l);
       && LayerSection(kt, m.comps, b, Min(padding, end), end) == Extend(row.keys[l], KeyCells(m, l, hs, pos))
       && LayerSection(vt, m.comps, b, Min(padding, end), end) == Extend(row.values[l], ValueCells(m, l, hs))
  }

  lemma LayerOfRow(m: Model, l: nat, h: seq<seq<Hidden>>, offset: seq<int>, padding: seq<nat>, prev: nat, n: nat, b: nat,
                   kt: seq<Tensor>, vt: seq<Tensor>, kt0: seq<Tensor>, vt0: seq<Tensor>, fk: seq<Tensor>, fv: seq<Tensor>,
                   cap: nat, cap0: nat, toks: seq<int>, row: CacheRow)
    requires l < m.nLayers && b < |h| == |offset| == |padding| && forall r :: 0 <= r < |h| ==> |h[r]| == n
    requires |toks| == n && prev + n <= cap && prev <= cap0
    requires RowOk(m, row, Cached(padding[b], prev)) && row.offset == offset[b]
    requires (kt0 == [] || |kt0| == m.comps) && (vt0 == [] || |vt0| == m.comps) && (kt0 == [] || vt0 == [] ==> prev == 0)
    requires AllShaped(kt0, |h|, cap0) && AllShaped(vt0, |h|, cap0)
    requires row.keys[l] == LayerSection(kt0, m.comps, b, Min(padding[b], prev), prev)
    requires row.values[l] == LayerSection(vt0, m.comps, b, Min(padding[b], prev), prev)
    requires Updated(kt, kt0, ProjectKeys(m, l, h, offset), |h|, cap, prev)
    requires Updated(vt, vt0, ProjectValues(m, l, h), |h|, cap, prev)
    requires |fk| == |fv| == m.comps
    requires forall i :: 0 <= i < m.comps ==> fk[i] == SliceSeq(kt[i], 0, prev + n) && fv[i] == SliceSeq(vt[i], 0, prev + n)
    requires h[b][PadCount(padding[b], prev, n)..] == HiddenOf(m, row, padding[b], prev, toks, l)
    ensures LayerDone(m, l, kt, vt, b, |h|, cap, padding[b], prev, toks, row)
    ensures forall i :: 0 <= i < m.comps ==> |fk[i]| == |fv[i]| == |h| && |fk[i][b]| == |fv[i][b]| == prev + n
    ensures AttendRow(m, l, h[b], offset[b], BatchMask(prev, n, padding)[b], fk, fv, b)[PadCount(padding[b], prev, n)..]
         == HiddenOf(m, row, padding[b], prev, toks, l + 1)
  {
    hide LayerSection;
    hide Min;
    hide AttendRow;
    hide BatchMask;
    KeysGrow(m, l, h, offset, kt, kt0, cap, cap0, prev, n, padding[b], b);
    ValuesGrow(m, l, h, vt, vt0, cap, cap0, prev, n, padding[b], b);
    AttendIsLayerOut(m, l, h[b], offset[b], padding, prev, n, b, kt, vt, fk, fv, row.keys[l], row.values[l]);
  }

  function Embed(m: Model, tokens: seq<seq<int>>): seq<seq<Hidden>> {
    seq(|tokens|, b requires 0 <= b < |tokens| =>
      seq(|tokens[b]|, j requires 0 <= j < |tokens[b]| => m.embed(tokens[b][j])))
  }

  function HeadRow(m: Model, hs: seq<Hidden>): seq<Logits> {
    seq(|hs|, j requires 0 <= j < |hs| => m.head(hs[j]))
  }

  function Head(m: Model, h: seq<seq<Hidden>>): seq<seq<Logits>> {
    seq(|h|, b requires 0 <= b < |h| => HeadRow(m, h[b]))
  }

  /** What a forward pass does to one row: its cached positions become `after`, and the logits of
      its real columns are those of its own one-row forward pass. */
  ghost predicate Forwarded(m: Model, before: CacheRow, padding: nat, prev: nat, toks: seq<int>, after: CacheRow, logits: seq<Logits>) {
    && RowOk(m, before, Cached(padding, prev))
    && after == ForwardOf(m, before, padding, prev, toks)
    && |logits| == |toks|
    && logits[PadCount(padding, prev, |toks|)..] == HeadRow(m, HiddenOf(m, before, padding, prev, toks, m.nLayers))
  }

  ghost predicate AllForwarded(m: Model, before: seq<CacheRow>, padding: seq<nat>, prev: nat, tokens: seq<seq<int>>,
                               after: seq<CacheRow>, logits: seq<seq<Logits>>)
  {
    && |before| == |padding| == |tokens| == |after| == |logits|
    && forall b :: 0 <= b < |before| ==> Forwarded(m, before[b], padding[b], prev, tokens[b], after[b], logits[b])
  }

  /** The state of the sweep over layer `l`'s inputs: hidden states of the real columns. */
  ghost predicate Entering(m: Model, l: nat, h: seq<seq<Hidden>>, padding: seq<nat>, prev: nat, n: nat, tokens: seq<seq<int>>, rows: seq<CacheRow>) {
    && l <= m.nLayers && |h| == |padding| == |tokens| == |rows|
    && forall b :: 0 <= b < |h| ==>
         && |h[b]| == |tokens[b]| == n && RowOk(m, rows[b], Cached(padding[b], prev))
         && h[b][PadCount(padding[b], prev, n)..] == HiddenOf(m, rows[b], padding[b], prev, tokens[b], l)
  }

  /** The rows a cache held before the sweep, layer by layer. */
  ghost predicate Before(m: Model, l: nat, kt0: seq<Tensor>, vt0: seq<Tensor>, cap0: nat, offset: seq<int>, padding: seq<nat>, prev: nat, rows: seq<CacheRow>)
    requires l < m.nLayers
  {
    && |rows| == |padding| == |offset| && prev <= cap0
    && (kt0 == []) == (vt0 == []) && (kt0 == [] ==> prev == 0) && (kt0 != [] ==> |kt0| == |vt0| == m.comps)
    && AllShaped(kt0, |rows|, cap0) && AllShaped(vt0, |rows|, cap0)
    && forall b :: 0 <= b < |rows| ==>
         && RowOk(m, rows[b], Cached(padding[b], prev)) && rows[b].offset == offset[b]
         && rows[b].keys[l] == LayerSection(kt0, m.comps, b, Min(padding[b], prev), prev)
         && rows[b].values[l] == LayerSection(vt0, m.comps, b, Min(padding[b], prev), prev)
  }

  /** Fetched slots have one entry per mask column. */
  ghost predicate Fetched(m: Model, fk: seq<Tensor>, fv: seq<Tensor>, rows: nat, len: nat) {
    |fk| == |fv| == m.comps && AllShaped(fk, rows, len) && AllShaped(fv, rows, len)
  }

  function AttendAll(m: Model, l: nat, h: seq<seq<Hidden>>, offset: seq<int>, prev: nat, n: nat, padding: seq<nat>,
                     mask: seq<seq<seq<bool>>>, fk: seq<Tensor>, fv: seq<Tensor>): seq<seq<Hidden>>
    requires |h| == |offset| == |padding| && mask == BatchMask(prev, n, padding)
    requires Fetched(m, fk, fv, |h|, prev + n) && forall b :: 0 <= b < |h| ==> |h[b]| == n
  {
    seq(|h|, b requires 0 <= b < |h| => AttendRow(m, l, h[b], offset[b], mask[b], fk, fv, b))
  }

  /** Layer `l` is done for every row. */
  ghost predicate AllDone(m: Model, l: nat, kt: seq<Tensor>, vt: seq<Tensor>, cap: nat, padding: seq<nat>, prev: nat, n: nat,
                          tokens: seq<seq<int>>, rows: seq<CacheRow>)
  {
    && l < m.nLayers && |padding| == |tokens| == |rows| && prev + n <= cap
    && |kt| == |vt| == m.comps && AllShaped(kt, |rows|, cap) && AllShaped(vt, |rows|, cap)
    && forall b :: 0 <= b < |rows| ==>
         && |tokens[b]| == n && RowOk(m, rows[b], Cached(padding[b], prev))
         && LayerDone(m, l, kt, vt, b, |rows|, cap, padding[b], prev, tokens[b], rows[b])
  }

  lemma LayerOfRows(m: Model, l: nat, h: seq<seq<Hidden>>, offset: seq<int>, padding: seq<nat>, prev: nat, n: nat,
                    kt: seq<Tensor>, vt: seq<Tensor>, kt0: seq<Tensor>, vt0: seq<Tensor>, fk: seq<Tensor>, fv: seq<Tensor>,
                    cap: nat, cap0: nat, tokens: seq<seq<int>>, rows: seq<CacheRow>)
    requires l < m.nLayers && |h| == |offset| && prev + n <= cap && 0 < m.comps
    requires Entering(m, l, h, padding, prev, n, tokens, rows)
    requires Before(m, l, kt0, vt0, cap0, offset, padding, prev, rows)
    requires Updated(kt, kt0, ProjectKeys(m, l, h, offset), |h|, cap, prev)
    requires Updated(vt, vt0, ProjectValues(m, l, h), |h|, cap, prev)
    requires |fk| == |fv| == m.comps
    requires forall i :: 0 <= i < m.comps ==> fk[i] == SliceSeq(kt[i], 0, prev + n) && fv[i] == SliceSeq(vt[i], 0, prev + n)
    ensures Fetched(m, fk, fv, |h|, prev + n)
    ensures AllDone(m, l, kt, vt, cap, padding, prev, n, tokens, rows)
    ensures Entering(m, l + 1, AttendAll(m, l, h, offset, prev, n, padding, BatchMask(prev, n, padding), fk, fv), padding, prev, n, tokens, rows)
  {
    forall i | 0 <= i < m.comps
      ensures Shaped(fk[i], |h|, prev + n) && Shaped(fv[i], |h|, prev + n)
    {
    }
    forall b | 0 <= b < |h|
      ensures LayerDone(m, l, kt, vt, b, |h|, cap, padding[b], prev, tokens[b], rows[b])
      ensures AttendRow(m, l, h[b], offset[b], BatchMask(prev, n, padding)[b], fk, fv, b)[PadCount(padding[b], prev, n)..]
           == HiddenOf(m, rows[b], padding[b], prev, tokens[b], l + 1)
    {
      LayerOfRow(m, l, h, offset, padding, prev, n, b, kt, vt, kt0, vt0, fk, fv, cap, cap0, tokens[b], rows[b]);
    }
  }

  /** One attention layer of the sweep. */
  method RunLayer(m: Model, l: nat, h: seq<seq<Hidden>>, offset: seq<int>, mask: seq<seq<seq<bool>>>, cache: BatchKVCache,
                  n: nat, ghost cap: nat, ghost tokens: seq<seq<int>>, ghost rows: seq<CacheRow>)
    returns (out: seq<seq<Hidden>>)
    requires l < m.nLayers && |cache.keys| == |cache.values| == m.nLayers && m.Valid() && cache.comps == m.comps
    requires 0 < cache.batch == |h| == |offset|
    requires Entering(m, l, h, cache.leftPadding, cache.idx, n, tokens, rows)
    requires Before(m, l, cache.keys[l], cache.values[l], cap, offset, cache.leftPadding, cache.idx, rows)
    requires mask == BatchMask(cache.idx, n, cache.leftPadding)
    modifies cache`keys, cache`values
    ensures |cache.keys| == |cache.values| == m.nLayers
    ensures cache.keys == old(cache.keys)[l := cache.keys[l]] && cache.values == old(cache.values)[l := cache.values[l]]
    ensures |out| == |h| && Entering(m, l + 1, out, cache.leftPadding, cache.idx, n, tokens, rows)
    ensures AllDone(m, l, cache.keys[l], cache.values[l], GrownCap(old(cache.keys[l]) != [], cap, cache.idx, n),
                    cache.leftPadding, cache.idx, n, tokens, rows)
  {
    ghost var kt0, vt0, newCap := cache.keys[l], cache.values[l], GrownCap(cache.keys[l] != [], cap, cache.idx, n);
    var fk, fv := cache.UpdateAndFetch(l, ProjectKeys(m, l, h, offset), ProjectValues(m, l, h), cap, n);
    LayerOfRows(m, l, h, offset, cache.leftPadding, cache.idx, n, cache.keys[l], cache.values[l], kt0, vt0, fk, fv, newCap, cap, tokens, rows);
    out := AttendAll(m, l, h, offset, cache.idx, n, cache.leftPadding, mask, fk, fv);
  }

  /** Once every layer is done and the bookkeeping has moved, a row is its one-row result. */
  lemma SweepRow(m: Model, keys: Store, values: Store, cap: nat, offset: seq<int>, padding: seq<nat>, prev: nat, n: nat,
                 tokens: seq<seq<int>>, rows: seq<CacheRow>, b: nat)
    requires |keys| == |values| == m.nLayers && b < |padding| == |offset| == |tokens| == |rows| && prev + n <= cap
    requires |tokens[b]| == n && RowOk(m, rows[b], Cached(padding[b], prev))
    requires offset[b] == rows[b].offset + n
    requires Bounded(keys, m.comps, |padding|, prev + n) && Bounded(values, m.comps, |padding|, prev + n)
    requires forall k :: 0 <= k < m.nLayers ==> AllDone(m, k, keys[k], values[k], cap, padding, prev, n, tokens, rows)
    ensures RowOf(keys, values, m.comps, offset, padding, prev + n, b) == ForwardOf(m, rows[b], padding[b], prev, tokens[b])
  {
  }

  lemma SweepRows(m: Model, keys: Store, values: Store, cap: nat, offset: seq<int>, padding: seq<nat>, prev: nat, n: nat,
                  tokens: seq<seq<int>>, rows: seq<CacheRow>, h: seq<seq<Hidden>>, after: seq<CacheRow>, logits: seq<seq<Logits>>)
    requires |keys| == |values| == m.nLayers && |padding| == |offset| && prev + n <= cap
    requires Entering(m, m.nLayers, h, padding, prev, n, tokens, rows)
    requires forall b :: 0 <= b < |rows| ==> offset[b] == rows[b].offset + n
    requires Bounded(keys, m.comps, |padding|, prev + n) && Bounded(values, m.comps, |padding|, prev + n)
    requires forall k :: 0 <= k < m.nLayers ==> AllDone(m, k, keys[k], values[k], cap, padding, prev, n, tokens, rows)
    requires after == RowsOf(keys, values, m.comps, offset, padding, prev + n) && logits == Head(m, h)
    ensures AllForwarded(m, rows, padding, prev, tokens, after, logits)
  {
    forall b | 0 <= b < |rows|
      ensures RowOf(keys, values, m.comps, offset, padding, prev + n, b) == ForwardOf(m, rows[b], padding[b], prev, tokens[b])
      ensures HeadRow(m, h[b])[PadCount(padding[b], prev, n)..] == HeadRow(m, HiddenOf(m, rows[b], padding[b], prev, tokens[b], m.nLayers))
    {
      SweepRow(m, keys, values, cap, offset, padding, prev, n, tokens, rows, b);
    }
  }

  lemma SweptStores(m: Model, keys: Store, values: Store, cap: nat, padding: seq<nat>, prev: nat, n: nat,
                    tokens: seq<seq<int>>, rows: seq<CacheRow>)
    requires m.Valid() && |keys| == |values| == m.nLayers && 0 < |padding|
    requires forall k :: 0 <= k < m.nLayers ==> AllDone(m, k, keys[k], values[k], cap, padding, prev, n, tokens, rows)
    ensures StoreOk(keys, m.comps, |padding|, cap) && StoreOk(values, m.comps, |padding|, cap) && prev + n <= cap
    ensures Uniform(keys, values) && keys[0] != [] && keys[0][0] != [] && |keys[0][0][0]| == cap
    ensures Bounded(keys, m.comps, |padding|, prev + n) && Bounded(values, m.comps, |padding|, prev + n)
  {
    assert AllDone(m, 0, keys[0], values[0], cap, padding, prev, n, tokens, rows);
    assert Shaped(keys[0][0], |padding|, cap);
  }

  lemma CacheHolds(cache: BatchKVCache)
    requires cache.Valid()
    ensures 0 < |cache.keys| == |cache.values| && |cache.offset| == |cache.leftPadding| == cache.batch
    ensures cache.idx <= cache.SCap() && (cache.keys[0] == [] ==> cache.idx == 0)
    ensures forall b :: 0 <= b < cache.batch ==> cache.Rows()[b].offset == cache.offset[b]
  {
    hide Bounded;
  }

  /** The written stores, under the moved bookkeeping, are a valid cache again. */
  lemma AfterSweep(m: Model, cache: BatchKVCache, cap: nat)
    requires 0 < m.nLayers == |cache.keys| == |cache.values| && cache.comps == m.comps && m.Valid()
    requires |cache.offset| == |cache.leftPadding| == cache.batch
    requires StoreOk(cache.keys, m.comps, cache.batch, cap) && StoreOk(cache.values, m.comps, cache.batch, cap) && cache.idx <= cap
    requires Uniform(cache.keys, cache.values) && cache.keys[0] != [] && cache.keys[0][0] != [] && |cache.keys[0][0][0]| == cap
    requires Bounded(cache.keys, m.comps, cache.batch, cache.idx) && Bounded(cache.values, m.comps, cache.batch, cache.idx)
    ensures cache.Valid()
    ensures cache.Rows() == RowsOf(cache.keys, cache.values, m.comps, cache.offset, cache.leftPadding, cache.idx)
  {
    hide StoreOk;
    hide Bounded;
    hide Uniform;
    hide RowsOf;
  }

  lemma BeforeSweep(m: Model, cache: BatchKVCache, tokens: seq<seq<int>>, n: nat)
    requires cache.Valid() && cache.comps == m.comps && |cache.keys| == m.nLayers
    requires |tokens| == cache.batch && forall b :: 0 <= b < |tokens| ==> |tokens[b]| == n
    ensures forall l :: 0 <= l < m.nLayers ==>
              Before(m, l, cache.keys[l], cache.values[l], cache.SCap(), cache.offset, cache.leftPadding, cache.idx, cache.Rows())
    ensures Entering(m, 0, Embed(m, tokens), cache.leftPadding, cache.idx, n, tokens, cache.Rows())
  {
    ValidRowsOk(m, cache);
  }

  /** All layers of one token sweep; the shared bookkeeping has not moved yet. */
  method Sweep(m: Model, tokens: seq<seq<int>>, cache: BatchKVCache, n: nat) returns (h: seq<seq<Hidden>>)
    requires m.Valid() && cache.Valid() && cache.comps == m.comps && |cache.keys| == m.nLayers
    requires 0 < |tokens| == cache.batch && forall b :: 0 <= b < |tokens| ==> |tokens[b]| == n
    modifies cache`keys, cache`values
    ensures |cache.keys| == |cache.values| == m.nLayers
    ensures Entering(m, m.nLayers, h, cache.leftPadding, cache.idx, n, tokens, old(cache.Rows()))
    ensures forall k :: 0 <= k < m.nLayers ==>
              AllDone(m, k, cache.keys[k], cache.values[k], GrownCap(old(cache.keys[0]) != [], old(cache.SCap()), cache.idx, n),
                      cache.leftPadding, cache.idx, n, tokens, old(cache.Rows()))
  {
    hide RowsOf;
    var offset := cache.offset;
    var mask := BatchMask(cache.idx, n, cache.leftPadding);
    h := Embed(m, tokens);
    ghost var rows, cap, keys0, values0 := cache.Rows(), cache.SCap(), cache.keys, cache.values;
    ghost var newCap := GrownCap(cache.keys[0] != [], cap, cache.idx, n);
    BeforeSweep(m, cache, tokens, n);
    for l := 0 to m.nLayers
      invariant |cache.keys| == |cache.values| == m.nLayers
      invariant forall k :: l <= k < m.nLayers ==> cache.keys[k] == keys0[k] && cache.values[k] == values0[k]
      invariant Entering(m, l, h, cache.leftPadding, cache.idx, n, tokens, rows)
      invariant forall k :: 0 <= k < l ==>
                  AllDone(m, k, cache.keys[k], cache.values[k], newCap, cache.leftPadding, cache.idx, n, tokens, rows)
    {
      h := RunLayer(m, l, h, offset, mask, cache, n, cap, tokens, rows);
    }
  }

  /** DecoderModel::forward: every row's cached positions and real-column logits are those of its
      own one-row forward pass. */
  method Forward(m: Model, tokens: seq<seq<int>>, cache: BatchKVCache, ghost n: nat) returns (logits: seq<seq<Logits>>)
    requires m.Valid() && cache.Valid() && cache.comps == m.comps && |cache.keys| == m.nLayers
    requires 0 < |tokens| == cache.batch && 0 < n && forall b :: 0 <= b < |tokens| ==> |tokens[b]| == n
    modifies cache
    ensures cache.Valid() && |cache.keys| == m.nLayers && cache.keys[0] != []
    ensures old(cache.Aligned()) ==> cache.Aligned()
    ensures cache.batch == |tokens| && cache.idx == old(cache.idx) + n && cache.leftPadding == old(cache.leftPadding)
    ensures AllForwarded(m, old(cache.Rows()), cache.leftPadding, old(cache.idx), tokens, cache.Rows(), logits)
  {
    hide *;
    CacheHolds(cache);
    ghost var rows, prev, padding := cache.Rows(), cache.idx, cache.leftPadding;
    ghost var newCap := GrownCap(cache.keys[0] != [], cache.SCap(), prev, n);
    var len := |tokens[0]|;
    var h := Sweep(m, tokens, cache, len);
    SweptStores(m, cache.keys, cache.values, newCap, padding, prev, n, tokens, rows);
    cache.Advance(len);
    logits := Head(m, h);
    AfterSweep(m, cache, newCap);
    SweepRows(m, cache.keys, cache.values, newCap, cache.offset, padding, prev, n, tokens, rows, h, cache.Rows(), logits);
  }
}
