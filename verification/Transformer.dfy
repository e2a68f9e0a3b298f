/** The decoder as a causal function, and its batched forward pass over a BatchKVCache
    (src/model/decoder_model.cpp, DecoderModel::forward(tokens, BatchKVCache&)).

    The numerics are uninterpreted: what a layer makes of one position depends on the hidden
    state entering it, the RoPE position, and the K/V entries its mask row lets through. A masked
    entry has softmax weight exp(-inf) = 0, so it does not contribute. */
module Transformer {
  import opened KvQuant
  import opened BatchCache

  type Hidden(==, !new, 0)
  type Logits(==, !new, 0)

  datatype Model = Model(
    nLayers: nat,
    comps: nat,
    embed: int -> Hidden,
    key: (nat, Hidden, int, nat) -> Cell,   // layer, hidden, RoPE position, component
    value: (nat, Hidden, nat) -> Cell,      // layer, hidden, component (values are not roped)
    block: (nat, Hidden, int, seq<Row>, seq<Row>) -> Hidden,  // layer, hidden, position, visible K, visible V
    head: Hidden -> Logits)
  {
    ghost predicate Valid() {
      0 < nLayers && 0 < comps
    }
  }

  // ---------------------------------------------------------------- the reference: one sequence

  /** What a causal `f` of token prefixes gives at each position of `toks`. */
  function Hist(f: seq<int> -> Cell, toks: seq<int>): Row {
    seq(|toks|, p requires 0 <= p < |toks| => f(toks[..p + 1]))
  }

  /** Hidden state entering layer `l` at the last position of `toks`. */
  function HiddenAt(m: Model, l: nat, toks: seq<int>): Hidden
    decreases l, 1
  {
    if l == 0 then m.embed(if toks == [] then 0 else toks[|toks| - 1])
    else m.block(l - 1, HiddenAt(m, l - 1, toks), |toks| - 1, RefKeys(m, l - 1, toks), RefValues(m, l - 1, toks))
  }

  /** Component `i` of what layer `l` stores for the last position of a prefix. */
  function KeyFn(m: Model, l: nat, i: nat): seq<int> -> Cell
    decreases l, 2
  {
    toks => m.key(l, HiddenAt(m, l, toks), |toks| - 1, i)
  }

  function ValueFn(m: Model, l: nat, i: nat): seq<int> -> Cell
    decreases l, 2
  {
    toks => m.value(l, HiddenAt(m, l, toks), i)
  }

  /** The K entries layer `l` stores for `toks`: entry p is a function of the prefix ending at p. */
  function RefKeys(m: Model, l: nat, toks: seq<int>): (r: seq<Row>)
    ensures Long(r, m.comps, |toks|)
    decreases l, 3
  {
    seq(m.comps, i requires 0 <= i => Hist(KeyFn(m, l, i), toks))
  }

  function RefValues(m: Model, l: nat, toks: seq<int>): (r: seq<Row>)
    ensures Long(r, m.comps, |toks|)
    decreases l, 3
  {
    seq(m.comps, i requires 0 <= i => Hist(ValueFn(m, l, i), toks))
  }

  ghost function RefRow(m: Model, toks: seq<int>): CacheRow {
    CacheRow(seq(m.nLayers, l requires 0 <= l => RefKeys(m, l, toks)),
             seq(m.nLayers, l requires 0 <= l => RefValues(m, l, toks)), |toks|)
  }

  /** Next-token logits after `toks`. */
  function NextLogits(m: Model, toks: seq<int>): Logits {
    m.head(HiddenAt(m, m.nLayers, toks))
  }

  // ---------------------------------------------------------------- one row, several columns

  ghost function Extend(had: seq<Row>, more: seq<Row>): seq<Row>
    requires |had| == |more|
  {
    seq(|had|, i requires 0 <= i < |had| => had[i] + more[i])
  }

  /** Component `i` of the cells the new hidden states `hs` store, the first at position `pos`. */
  function KeyRow(m: Model, l: nat, hs: seq<Hidden>, pos: int, i: nat): Row {
    seq(|hs|, j requires 0 <= j < |hs| => m.key(l, hs[j], pos + j, i))
  }

  function ValueRow(m: Model, l: nat, hs: seq<Hidden>, i: nat): Row {
    seq(|hs|, j requires 0 <= j < |hs| => m.value(l, hs[j], i))
  }

  ghost function KeyCells(m: Model, l: nat, hs: seq<Hidden>, pos: int): (r: seq<Row>)
    ensures Long(r, m.comps, |hs|)
  {
    seq(m.comps, i requires 0 <= i => KeyRow(m, l, hs, pos, i))
  }

  ghost function ValueCells(m: Model, l: nat, hs: seq<Hidden>): (r: seq<Row>)
    ensures Long(r, m.comps, |hs|)
  {
    seq(m.comps, i requires 0 <= i => ValueRow(m, l, hs, i))
  }

  ghost function Upto(rows: seq<Row>, n: nat): seq<Row>
    requires forall i :: 0 <= i < |rows| ==> n <= |rows[i]|
  {
    seq(|rows|, i requires 0 <= i < |rows| => rows[i][..n])
  }

  /** Every component of a layer holds `n` positions. */
  ghost predicate Long(rows: seq<Row>, comps: nat, n: nat) {
    |rows| == comps && forall i :: 0 <= i < comps ==> |rows[i]| == n
  }

  ghost predicate RowOk(m: Model, row: CacheRow, n: nat) {
    && |row.keys| == |row.values| == m.nLayers
    && forall l :: 0 <= l < m.nLayers ==> Long(row.keys[l], m.comps, n) && Long(row.values[l], m.comps, n)
  }

  /** One layer over the new columns of a row whose cached positions are `ks0`, `vs0`. */
  ghost function LayerOut(m: Model, l: nat, ks0: seq<Row>, vs0: seq<Row>, n: nat, pos: int, hs: seq<Hidden>): (r: seq<Hidden>)
    requires Long(ks0, m.comps, n) && Long(vs0, m.comps, n)
    ensures |r| == |hs|
  {
    var ks := Extend(ks0, KeyCells(m, l, hs, pos));
    var vs := Extend(vs0, ValueCells(m, l, hs));
    seq(|hs|, j requires 0 <= j < |hs| => m.block(l, hs[j], pos + j, Upto(ks, n + j + 1), Upto(vs, n + j + 1)))
  }

  /** Hidden states entering layer `l` for the new columns `toks`, the first of which sits at
      position `pos` after `n` cached ones. */
  ghost function RowHidden(m: Model, row: CacheRow, n: nat, pos: int, toks: seq<int>, l: nat): (r: seq<Hidden>)
    requires l <= m.nLayers && RowOk(m, row, n)
    ensures |r| == |toks|
    decreases l
  {
    if l == 0 then seq(|toks|, j requires 0 <= j < |toks| => m.embed(toks[j]))
    else LayerOut(m, l - 1, row.keys[l - 1], row.values[l - 1], n, pos, RowHidden(m, row, n, pos, toks, l - 1))
  }

  ghost function RowForward(m: Model, row: CacheRow, n: nat, pos: int, toks: seq<int>): CacheRow
    requires RowOk(m, row, n)
  {
    CacheRow(
      seq(m.nLayers, l requires 0 <= l < m.nLayers => Extend(row.keys[l], KeyCells(m, l, RowHidden(m, row, n, pos, toks, l), pos))),
      seq(m.nLayers, l requires 0 <= l < m.nLayers => Extend(row.values[l], ValueCells(m, l, RowHidden(m, row, n, pos, toks, l)))),
      pos + |toks|)
  }

  lemma RefRowOk(m: Model, toks: seq<int>)
    ensures RowOk(m, RefRow(m, toks), |toks|)
  {
  }

  lemma HistSum(f: seq<int> -> Cell, toks: seq<int>, more: seq<int>, tail: Row)
    requires |tail| == |more| && forall j :: 0 <= j < |more| ==> tail[j] == f(toks + more[..j + 1])
    ensures Hist(f, toks + more) == Hist(f, toks) + tail
  {
    forall p | 0 <= p < |toks + more|
      ensures Hist(f, toks + more)[p] == (Hist(f, toks) + tail)[p]
    {
      if p < |toks| {
        assert (toks + more)[..p + 1] == toks[..p + 1];
      } else {
        assert (toks + more)[..p + 1] == toks + more[..p - |toks| + 1];
      }
    }
  }

  lemma HistPrefix(f: seq<int> -> Cell, toks: seq<int>, n: nat)
    requires n <= |toks|
    ensures Hist(f, toks)[..n] == Hist(f, toks[..n])
  {
    forall p | 0 <= p < n
      ensures Hist(f, toks)[p] == Hist(f, toks[..n])[p]
    {
      assert toks[..n][..p + 1] == toks[..p + 1];
    }
  }

  lemma HiddenDef(m: Model, l: nat, toks: seq<int>)
    requires 0 < l
    ensures HiddenAt(m, l, toks)
         == m.block(l - 1, HiddenAt(m, l - 1, toks), |toks| - 1, RefKeys(m, l - 1, toks), RefValues(m, l - 1, toks))
  {
  }

  /** `hs` are the hidden states entering layer `l` at the positions of `more`, after `toks`. */
  ghost predicate Continues(m: Model, toks: seq<int>, more: seq<int>, l: nat, hs: seq<Hidden>) {
    |hs| == |more| && forall j :: 0 <= j < |hs| ==> hs[j] == HiddenAt(m, l, toks + more[..j + 1])
  }

  lemma KeyAtEnd(m: Model, l: nat, hs: seq<Hidden>, pos: int, i: nat, j: nat, pre: seq<int>)
    requires j < |hs| && hs[j] == HiddenAt(m, l, pre) && |pre| == pos + j + 1
    ensures KeyRow(m, l, hs, pos, i)[j] == KeyFn(m, l, i)(pre)
  {
    hide HiddenAt;
    hide RefKeys;
    hide RefValues;
  }

  /** Cells computed from such hidden states extend the cells of `toks`. */
  lemma ChunkKeys(m: Model, toks: seq<int>, more: seq<int>, l: nat, hs: seq<Hidden>)
    requires Continues(m, toks, more, l, hs)
    ensures Extend(RefKeys(m, l, toks), KeyCells(m, l, hs, |toks|)) == RefKeys(m, l, toks + more)
  {
    forall i | 0 <= i < m.comps
      ensures RefKeys(m, l, toks + more)[i] == RefKeys(m, l, toks)[i] + KeyRow(m, l, hs, |toks|, i)
    {
      forall j | 0 <= j < |more|
        ensures KeyRow(m, l, hs, |toks|, i)[j] == KeyFn(m, l, i)(toks + more[..j + 1])
      {
        KeyAtEnd(m, l, hs, |toks|, i, j, toks + more[..j + 1]);
      }
      HistSum(KeyFn(m, l, i), toks, more, KeyRow(m, l, hs, |toks|, i));
    }
  }

  lemma ChunkValues(m: Model, toks: seq<int>, more: seq<int>, l: nat, hs: seq<Hidden>)
    requires Continues(m, toks, more, l, hs)
    ensures Extend(RefValues(m, l, toks), ValueCells(m, l, hs)) == RefValues(m, l, toks + more)
  {
    forall i | 0 <= i < m.comps
      ensures RefValues(m, l, toks + more)[i] == RefValues(m, l, toks)[i] + ValueRow(m, l, hs, i)
    {
      forall j | 0 <= j < |more|
        ensures ValueRow(m, l, hs, i)[j] == ValueFn(m, l, i)(toks + more[..j + 1])
      {
        var pre := toks + more[..j + 1];
        assert hs[j] == HiddenAt(m, l, pre);
      }
      HistSum(ValueFn(m, l, i), toks, more, ValueRow(m, l, hs, i));
    }
  }

  lemma PrefixCells(m: Model, l: nat, toks: seq<int>, n: nat)
    requires n <= |toks|
    ensures Upto(RefKeys(m, l, toks), n) == RefKeys(m, l, toks[..n])
    ensures Upto(RefValues(m, l, toks), n) == RefValues(m, l, toks[..n])
  {
    forall i | 0 <= i < m.comps
      ensures RefKeys(m, l, toks)[i][..n] == RefKeys(m, l, toks[..n])[i]
      ensures RefValues(m, l, toks)[i][..n] == RefValues(m, l, toks[..n])[i]
    {
      HistPrefix(KeyFn(m, l, i), toks, n);
      HistPrefix(ValueFn(m, l, i), toks, n);
    }
  }

  lemma ChunkStep(m: Model, toks: seq<int>, more: seq<int>, l: nat, hs: seq<Hidden>)
    requires Continues(m, toks, more, l, hs)
    ensures Continues(m, toks, more, l + 1, LayerOut(m, l, RefKeys(m, l, toks), RefValues(m, l, toks), |toks|, |toks|, hs))
  {
    ChunkKeys(m, toks, more, l, hs);
    ChunkValues(m, toks, more, l, hs);
    var out := LayerOut(m, l, RefKeys(m, l, toks), RefValues(m, l, toks), |toks|, |toks|, hs);
    forall j | 0 <= j < |more|
      ensures out[j] == HiddenAt(m, l + 1, toks + more[..j + 1])
    {
      var pre := toks + more[..j + 1];
      assert (toks + more)[..|toks| + j + 1] == pre;
      PrefixCells(m, l, toks + more, |toks| + j + 1);
      HiddenDef(m, l + 1, pre);
    }
  }

  /** Chunking does not matter: forwarding `more` over the cached row of `toks` reaches the
      hidden states of the one sequence `toks + more`. */
  lemma {:induction false} ChunkHidden(m: Model, toks: seq<int>, more: seq<int>, l: nat)
    requires l <= m.nLayers && RowOk(m, RefRow(m, toks), |toks|)
    ensures Continues(m, toks, more, l, RowHidden(m, RefRow(m, toks), |toks|, |toks|, more, l))
    decreases l
  {
    if l > 0 {
      ChunkHidden(m, toks, more, l - 1);
      ChunkStep(m, toks, more, l - 1, RowHidden(m, RefRow(m, toks), |toks|, |toks|, more, l - 1));
    }
  }

  lemma ForwardExtends(m: Model, toks: seq<int>, more: seq<int>)
    requires RowOk(m, RefRow(m, toks), |toks|)
    ensures RowForward(m, RefRow(m, toks), |toks|, |toks|, more) == RefRow(m, toks + more)
  {
    var row, n := RefRow(m, toks), |toks|;
    forall l | 0 <= l < m.nLayers
      ensures Extend(row.keys[l], KeyCells(m, l, RowHidden(m, row, n, n, more, l), n)) == RefKeys(m, l, toks + more)
      ensures Extend(row.values[l], ValueCells(m, l, RowHidden(m, row, n, n, more, l))) == RefValues(m, l, toks + more)
    {
      ChunkHidden(m, toks, more, l);
      ChunkKeys(m, toks, more, l, RowHidden(m, row, n, n, more, l));
      ChunkValues(m, toks, more, l, RowHidden(m, row, n, n, more, l));
    }
  }
}
