/** The prefill passes and bucket sizes (src/runtime/batching.cpp): whatever the batch mates, the
    left padding, the chunk size and the reused prefix, a row ends up holding the K/V of its own
    prompt, and its last logits are the prompt's next-token logits. */
module Prefill {
  import opened KvQuant
  import opened BatchCache
  import opened Transformer
  import opened ForwardPass
  import opened BlockPools
  import opened PrefixCaches
  import opened PrefixSeed

  /** The row that has consumed `done`, in a cache whose write index is `prev`. */
  ghost function RowFor(m: Model, done: seq<int>, padding: nat, prev: nat): CacheRow {
    RefRow(m, done).(offset := prev - padding)
  }

  lemma {:induction false} OffsetIrrelevant(m: Model, row: CacheRow, row': CacheRow, n: nat, pos: int, toks: seq<int>, l: nat)
    requires l <= m.nLayers && RowOk(m, row, n) && row'.keys == row.keys && row'.values == row.values
    ensures RowOk(m, row', n) && RowHidden(m, row, n, pos, toks, l) == RowHidden(m, row', n, pos, toks, l)
    decreases l
  {
    if l > 0 {
      OffsetIrrelevant(m, row, row', n, pos, toks, l - 1);
    }
  }

  lemma ForwardIrrelevant(m: Model, row: CacheRow, row': CacheRow, n: nat, pos: int, toks: seq<int>)
    requires RowOk(m, row, n) && row'.keys == row.keys && row'.values == row.values
    ensures RowOk(m, row', n) && RowForward(m, row, n, pos, toks) == RowForward(m, row', n, pos, toks)
  {
    var a, b := RowForward(m, row, n, pos, toks), RowForward(m, row', n, pos, toks);
    forall l | 0 <= l < m.nLayers
      ensures a.keys[l] == b.keys[l] && a.values[l] == b.values[l]
    {
      OffsetIrrelevant(m, row, row', n, pos, toks, l);
    }
  }

  lemma EmptyForward(m: Model, row: CacheRow, n: nat, pos: int)
    requires RowOk(m, row, n)
    ensures RowForward(m, row, n, pos, []) == row.(offset := pos)
  {
    var out := RowForward(m, row, n, pos, []);
    forall l | 0 <= l < m.nLayers
      ensures out.keys[l] == row.keys[l] && out.values[l] == row.values[l]
    {
      forall i | 0 <= i < m.comps
        ensures out.keys[l][i] == row.keys[l][i] && out.values[l][i] == row.values[l][i]
      {
        assert out.keys[l][i] == row.keys[l][i] + [];
        assert out.values[l][i] == row.values[l][i] + [];
      }
    }
  }

  /** One-row forward of `kept` over the row of `done`. */
  lemma RowForwardFor(m: Model, done: seq<int>, padding: nat, prev: nat, kept: seq<int>, pos: int)
    requires pos == |done| || kept == []
    ensures
      var row := RowFor(m, done, padding, prev);
      && RowOk(m, row, |done|)
      && RowForward(m, row, |done|, pos, kept) == RefRow(m, done + kept).(offset := pos + |kept|)
      && forall j :: 0 <= j < |kept| ==> RowHidden(m, row, |done|, pos, kept, m.nLayers)[j] == HiddenAt(m, m.nLayers, done + kept[..j + 1])
  {
    var row, ref := RowFor(m, done, padding, prev), RefRow(m, done);
    RefRowOk(m, done);
    if kept == [] {
      assert done + kept == done;
      EmptyForward(m, row, |done|, pos);
    } else {
      ForwardIrrelevant(m, ref, row, |done|, pos, kept);
      OffsetIrrelevant(m, ref, row, |done|, pos, kept, m.nLayers);
      ForwardExtends(m, done, kept);
      ChunkHidden(m, done, kept, m.nLayers);
    }
  }

  lemma ForwardedMeans(m: Model, before: CacheRow, padding: nat, prev: nat, toks: seq<int>, after: CacheRow, logits: seq<Logits>,
                       n: nat, pos: int)
    requires Forwarded(m, before, padding, prev, toks, after, logits)
    requires n == Cached(padding, prev) && pos == before.offset + PadCount(padding, prev, |toks|)
    ensures RowOk(m, before, n) && |logits| == |toks|
    ensures after == RowForward(m, before, n, pos, toks[PadCount(padding, prev, |toks|)..])
    ensures logits[PadCount(padding, prev, |toks|)..]
         == HeadRow(m, RowHidden(m, before, n, pos, toks[PadCount(padding, prev, |toks|)..], m.nLayers))
  {
    hide Cached;
    hide RowOk;
    hide RowForward;
  }

  /** A batched forward pass over a row that has consumed `done` makes it consume its real columns,
      and each real column's logits are the next-token logits of what precedes it. */
  lemma ForwardedFor(m: Model, done: seq<int>, padding: nat, prev: nat, toks: seq<int>, after: CacheRow, logits: seq<Logits>)
    requires |done| == Cached(padding, prev)
    requires Forwarded(m, RowFor(m, done, padding, prev), padding, prev, toks, after, logits)
    ensures after == RowFor(m, done + toks[PadCount(padding, prev, |toks|)..], padding, prev + |toks|)
    ensures forall j :: PadCount(padding, prev, |toks|) <= j < |toks| ==>
              logits[j] == NextLogits(m, done + toks[PadCount(padding, prev, |toks|)..j + 1])
  {
    var pad := PadCount(padding, prev, |toks|);
    var kept, pos, row := toks[pad..], prev - padding + pad, RowFor(m, done, padding, prev);
    RowForwardFor(m, done, padding, prev, kept, pos);
    ForwardedMeans(m, row, padding, prev, toks, after, logits, |done|, pos);
    var hs := RowHidden(m, row, |done|, pos, kept, m.nLayers);
    forall j | pad <= j < |toks|
      ensures logits[j] == NextLogits(m, done + toks[pad..j + 1])
    {
      LogitsAt(m, done, toks, pad, hs, logits, j);
    }
  }

  lemma LogitsAt(m: Model, done: seq<int>, toks: seq<int>, pad: nat, hs: seq<Hidden>, logits: seq<Logits>, j: nat)
    requires pad <= j < |toks| == |logits| && logits[pad..] == HeadRow(m, hs)
    requires forall k :: 0 <= k < |hs| ==> hs[k] == HiddenAt(m, m.nLayers, done + toks[pad..][..k + 1])
    ensures logits[j] == NextLogits(m, done + toks[pad..j + 1])
  {
    assert |logits[pad..]| == |hs|;
    assert logits[pad..][j - pad] == logits[j];
    assert toks[pad..][..j - pad + 1] == toks[pad..j + 1];
  }

  // ---------------------------------------------------------------- cold prefill

  /** Left-padded to `width` columns with `padId`. */
  function PadLeft(prompt: seq<int>, width: nat, padId: int): seq<int>
    requires |prompt| <= width
  {
    Repeat(width - |prompt|, padId) + prompt
  }

  /** Row of `prompt`, left-padded to `width`, after `pos` columns. */
  ghost function Partial(m: Model, prompt: seq<int>, width: nat, pos: nat): CacheRow
    requires |prompt| <= width && pos <= width
  {
    var padding := width - |prompt|;
    RowFor(m, prompt[..Cached(padding, pos)], padding, pos)
  }

  lemma PartialStep(m: Model, prompt: seq<int>, width: nat, pos: nat, n: nat, padId: int, after: CacheRow, logits: seq<Logits>)
    requires |prompt| <= width && pos + n <= width
    requires Forwarded(m, Partial(m, prompt, width, pos), width - |prompt|, pos, PadLeft(prompt, width, padId)[pos..pos + n], after, logits)
    ensures after == Partial(m, prompt, width, pos + n)
    ensures pos + n == width && 0 < n && prompt != [] ==> logits[n - 1] == NextLogits(m, prompt)
  {
    hide *;
    var padding := width - |prompt|;
    PaddedColumns(prompt, width, pos, n, padId);
    PartialIs(m, prompt, width, pos);
    PartialIs(m, prompt, width, pos + n);
    PadLength(prompt, width, padId);
    var cols := PadLeft(prompt, width, padId)[pos..pos + n];
    ForwardedFor(m, prompt[..Cached(padding, pos)], padding, pos, cols, after, logits);
    var pad := PadCount(padding, pos, n);
    if pos + n == width && 0 < n && prompt != [] {
      assert cols[pad..(n - 1) + 1] == cols[pad..];
      assert prompt[..|prompt|] == prompt;
    }
  }

  lemma PartialIs(m: Model, prompt: seq<int>, width: nat, pos: nat)
    requires |prompt| <= width && pos <= width
    ensures Cached(width - |prompt|, pos) <= |prompt| && (pos == width ==> Cached(width - |prompt|, pos) == |prompt|)
    ensures Partial(m, prompt, width, pos) == RowFor(m, prompt[..Cached(width - |prompt|, pos)], width - |prompt|, pos)
  {
  }

  lemma PadLength(prompt: seq<int>, width: nat, padId: int)
    requires |prompt| <= width
    ensures |PadLeft(prompt, width, padId)| == width
  {
  }

  lemma PaddedColumns(prompt: seq<int>, width: nat, pos: nat, n: nat, padId: int)
    requires |prompt| <= width && pos + n <= width
    ensures
      var padding := width - |prompt|;
      var cols := PadLeft(prompt, width, padId)[pos..pos + n];
      && PadCount(padding, pos, n) <= n && (prompt != [] && pos + n == width && 0 < n ==> PadCount(padding, pos, n) < n)
      && prompt[..Cached(padding, pos)] + cols[PadCount(padding, pos, n)..] == prompt[..Cached(padding, pos + n)]
  {
    var padding := width - |prompt|;
    var all := PadLeft(prompt, width, padId);
    var pad := PadCount(padding, pos, n);
    assert all[pos..pos + n][pad..] == all[pos + pad..pos + n];
    assert all[padding..] == prompt;
    if padding <= pos {
      assert all[pos..pos + n] == prompt[pos - padding..pos + n - padding];
    } else if padding < pos + n {
      assert all[padding..pos + n] == prompt[..pos + n - padding];
    }
  }

  lemma PartialStart(m: Model, prompt: seq<int>, width: nat)
    requires |prompt| <= width
    ensures Partial(m, prompt, width, 0) == EmptyRow(m.nLayers, m.comps, -((width - |prompt|) as int))
  {
    var row := Partial(m, prompt, width, 0);
    assert prompt[..Cached(width - |prompt|, 0)] == [];
    forall l | 0 <= l < m.nLayers
      ensures RefKeys(m, l, []) == Repeat(m.comps, []) && RefValues(m, l, []) == Repeat(m.comps, [])
    {
    }
    assert row.keys == Repeat(m.nLayers, Repeat(m.comps, []));
    assert row.values == Repeat(m.nLayers, Repeat(m.comps, []));
  }

  lemma PartialEnd(m: Model, prompt: seq<int>, width: nat)
    requires |prompt| <= width
    ensures Partial(m, prompt, width, width) == RefRow(m, prompt)
  {
    assert prompt[..|prompt|] == prompt;
  }

  /** `c` holds the first `pos` of the `width` left-padded columns of `prompts`. A unit seeded from
      the prefix pool is the one-prompt case with width == |prompt| and pos starting at its reuse. */
  ghost predicate PrefilledTo(m: Model, c: BatchKVCache, prompts: seq<seq<int>>, width: nat, pos: nat)
    reads c
  {
    && c.Valid() && c.Aligned() && c.comps == m.comps && |c.keys| == m.nLayers
    && 0 < |prompts| == c.batch && c.idx == pos <= width && (0 < pos ==> c.keys[0] != [])
    && forall b :: 0 <= b < |prompts| ==>
         && 0 < |prompts[b]| <= width && c.leftPadding[b] == width - |prompts[b]|
         && c.Rows()[b] == Partial(m, prompts[b], width, pos)
  }

  function SliceCols(tokens: seq<seq<int>>, start: nat, stop: nat): seq<seq<int>>
    requires start <= stop && forall b :: 0 <= b < |tokens| ==> stop <= |tokens[b]|
  {
    seq(|tokens|, b requires 0 <= b < |tokens| => tokens[b][start..stop])
  }

  /** Every row's last column. */
  function LastColumn(logits: seq<seq<Logits>>): seq<Logits>
    requires forall b :: 0 <= b < |logits| ==> 0 < |logits[b]|
  {
    seq(|logits|, b requires 0 <= b < |logits| => logits[b][|logits[b]| - 1])
  }

  /** One prefill chunk. */
  method ForwardChunk(m: Model, c: BatchKVCache, chunk: seq<seq<int>>, ghost prompts: seq<seq<int>>, ghost width: nat, ghost pos: nat,
                      ghost n: nat, ghost padId: int)
    returns (logits: seq<seq<Logits>>)
    requires m.Valid() && PrefilledTo(m, c, prompts, width, pos) && 0 < n && pos + n <= width
    requires |chunk| == |prompts|
    requires forall b :: 0 <= b < |prompts| ==> chunk[b] == PadLeft(prompts[b], width, padId)[pos..pos + n]
    modifies c
    ensures PrefilledTo(m, c, prompts, width, pos + n)
    ensures |logits| == |prompts| && forall b :: 0 <= b < |prompts| ==> |logits[b]| == n
    ensures pos + n == width ==> forall b :: 0 <= b < |prompts| ==> LastColumn(logits)[b] == NextLogits(m, prompts[b])
  {
    hide Partial;
    hide StoreOk;
    hide Forwarded;
    hide NextLogits;
    ghost var before, padding := c.Rows(), c.leftPadding;
    logits := Forward(m, chunk, c, n);
    ChunkRows(m, prompts, width, pos, n, padId, padding, before, chunk, c.Rows(), logits);
  }

  /** What a chunk's forward leaves in every row. */
  lemma ChunkRows(m: Model, prompts: seq<seq<int>>, width: nat, pos: nat, n: nat, padId: int, padding: seq<nat>, before: seq<CacheRow>,
                  chunk: seq<seq<int>>, after: seq<CacheRow>, logits: seq<seq<Logits>>)
    requires AllForwarded(m, before, padding, pos, chunk, after, logits) && |before| == |prompts| && 0 < n && pos + n <= width
    requires forall b :: 0 <= b < |prompts| ==>
               && 0 < |prompts[b]| <= width && padding[b] == width - |prompts[b]| && before[b] == Partial(m, prompts[b], width, pos)
               && chunk[b] == PadLeft(prompts[b], width, padId)[pos..pos + n]
    ensures forall b :: 0 <= b < |prompts| ==> after[b] == Partial(m, prompts[b], width, pos + n) && |logits[b]| == n
    ensures pos + n == width ==> forall b :: 0 <= b < |prompts| ==> logits[b][n - 1] == NextLogits(m, prompts[b])
  {
    hide Partial;
    hide NextLogits;
    hide PadLeft;
    hide HiddenOf;
    hide ForwardOf;
    forall b | 0 <= b < |prompts|
      ensures after[b] == Partial(m, prompts[b], width, pos + n) && |logits[b]| == n
      ensures pos + n == width ==> logits[b][n - 1] == NextLogits(m, prompts[b])
    {
      assert Forwarded(m, before[b], padding[b], pos, chunk[b], after[b], logits[b]);
      PadLength(prompts[b], width, padId);
      PartialStep(m, prompts[b], width, pos, n, padId, after[b], logits[b]);
    }
  }

  /** Longest prompt length. */
  method MaxLength(prompts: seq<seq<int>>) returns (pMax: nat)
    ensures forall b :: 0 <= b < |prompts| ==> |prompts[b]| <= pMax
    ensures prompts != [] ==> exists b :: 0 <= b < |prompts| && pMax == |prompts[b]|
    ensures prompts == [] ==> pMax == 0
  {
    pMax := 0;
    for b := 0 to |prompts|
      invariant forall k :: 0 <= k < b ==> |prompts[k]| <= pMax
      invariant if b == 0 then pMax == 0 else exists k :: 0 <= k < b && pMax == |prompts[k]|
    {
      pMax := Max(pMax, |prompts[b]|);
    }
  }

  /** Left-pad every prompt to a common width; the pad count is the row's left padding. */
  method PadPrompts(prompts: seq<seq<int>>, width: nat, padId: int) returns (padded: seq<seq<int>>, padding: seq<nat>)
    requires forall b :: 0 <= b < |prompts| ==> |prompts[b]| <= width
    ensures |padded| == |padding| == |prompts|
    ensures forall b :: 0 <= b < |prompts| ==> padded[b] == PadLeft(prompts[b], width, padId) && padding[b] == width - |prompts[b]|
  {
    padded, padding := [], [];
    for b := 0 to |prompts|
      invariant |padded| == |padding| == b
      invariant forall k :: 0 <= k < b ==> padded[k] == PadLeft(prompts[k], width, padId) && padding[k] == width - |prompts[k]|
    {
      padded := padded + [PadLeft(prompts[b], width, padId)];
      padding := padding + [width - |prompts[b]|];
    }
  }

  /** A new left-padded cache has prefilled nothing. */
  lemma StartsEmpty(m: Model, c: BatchKVCache, prompts: seq<seq<int>>, width: nat, padding: seq<nat>)
    requires m.Valid() && c.Valid() && c.Aligned() && c.comps == m.comps && |c.keys| == m.nLayers && c.idx == 0
    requires 0 < |prompts| == |padding| == c.batch && c.leftPadding == padding
    requires forall b :: 0 <= b < |prompts| ==> 0 < |prompts[b]| <= width && padding[b] == width - |prompts[b]|
    requires forall b :: 0 <= b < |padding| ==> c.Rows()[b] == EmptyRow(m.nLayers, m.comps, Neg(padding)[b])
    ensures PrefilledTo(m, c, prompts, width, 0)
  {
    forall b | 0 <= b < |prompts|
      ensures c.Rows()[b] == Partial(m, prompts[b], width, 0)
    {
      PartialStart(m, prompts[b], width);
    }
  }

  /** Left-pad the prompts to the longest one, over a new cache. */
  method StartCold(m: Model, prompts: seq<seq<int>>, padId: int) returns (pMax: nat, tokens: seq<seq<int>>, c: BatchKVCache, ghost widest: nat)
    requires m.Valid() && 0 < |prompts| && forall b :: 0 <= b < |prompts| ==> 0 < |prompts[b]|
    ensures fresh(c) && PrefilledTo(m, c, prompts, pMax, 0) && |tokens| == |prompts|
    ensures forall b :: 0 <= b < |prompts| ==> |prompts[b]| <= pMax && tokens[b] == PadLeft(prompts[b], pMax, padId)
    ensures widest < |prompts| && pMax == |prompts[widest]|
  {
    pMax := MaxLength(prompts);
    widest :| widest < |prompts| && pMax == |prompts[widest]|;
    var padding;
    tokens, padding := PadPrompts(prompts, pMax, padId);
    c := new BatchKVCache(m.nLayers, padding, m.comps);
    StartsEmpty(m, c, prompts, pMax, padding);
  }

  /** All rows hold their prompts, and `last` are the prompts' next-token logits. */
  ghost predicate Ready(m: Model, c: BatchKVCache, prompts: seq<seq<int>>, last: seq<Logits>)
    reads c
  {
    && c.Valid() && c.Aligned() && c.Started() && c.comps == m.comps && |c.keys| == m.nLayers && c.keys[0] != []
    && c.batch == |prompts| == |last|
    && forall b :: 0 <= b < |prompts| ==>
         0 < |prompts[b]| && c.Rows()[b] == RefRow(m, prompts[b]) && last[b] == NextLogits(m, prompts[b])
  }

  lemma PrefilledReady(m: Model, c: BatchKVCache, prompts: seq<seq<int>>, width: nat, last: seq<Logits>)
    requires PrefilledTo(m, c, prompts, width, width) && |last| == |prompts|
    requires forall b :: 0 <= b < |prompts| ==> last[b] == NextLogits(m, prompts[b])
    ensures Ready(m, c, prompts, last)
  {
    assert 0 < |prompts[0]| <= width;
    forall b | 0 <= b < |prompts|
      ensures c.Rows()[b] == RefRow(m, prompts[b])
    {
      PartialEnd(m, prompts[b], width);
    }
  }

  /** prefill: the cold, batched pass, chunked at `stepSize`. */
  method PrefillCold(m: Model, prompts: seq<seq<int>>, stepSize: nat, padId: int) returns (c: BatchKVCache, last: seq<Logits>)
    requires m.Valid() && 0 < |prompts| && 0 < stepSize && forall b :: 0 <= b < |prompts| ==> 0 < |prompts[b]|
    ensures fresh(c) && Ready(m, c, prompts, last)
  {
    hide PrefilledTo;
    hide Ready;
    hide NextLogits;
    var pMax, tokens; ghost var widest;
    pMax, tokens, c, widest := StartCold(m, prompts, padId);
    last := [];
    var pos := 0;
    while pos < pMax
      invariant pos <= pMax && fresh(c) && PrefilledTo(m, c, prompts, pMax, pos)
      invariant pos == pMax ==> |last| == |prompts| && forall b :: 0 <= b < |prompts| ==> last[b] == NextLogits(m, prompts[b])
    {
      var n := Min(stepSize, pMax - pos);
      var logits := ForwardChunk(m, c, SliceCols(tokens, pos, pos + n), prompts, pMax, pos, n, padId);
      last := LastColumn(logits);
      pos := pos + n;
    }
    PrefilledReady(m, c, prompts, pMax, last);
  }

  /** A cache seeded with the first `len` tokens of `prompt`. */
  method SeedPrompt(m: Model, prompt: seq<int>, blocks: seq<KVBlock>, len: nat, ghost size: nat) returns (c: BatchKVCache)
    requires m.Valid() && 0 < size && Matches(m, prompt, blocks, len, size)
    ensures fresh(c) && PrefilledTo(m, c, [prompt], |prompt|, len)
  {
    ModelPositive(m);
    hide *;
    MatchedSlices(m, prompt, blocks, len, size);
    ghost var covered := |blocks| * size;
    ghost var whole := RefRow(m, prompt[..covered]);
    c := FromPrefix(m.nLayers, m.comps, blocks, len, whole.keys, whole.values, size);
    UptoIsRef(m, prompt[..covered], len);
    assert prompt[..covered][..len] == prompt[..len];
    SeededPrefilled(m, c, prompt, len);
  }

  lemma ModelPositive(m: Model)
    requires m.Valid()
    ensures 0 < m.nLayers && 0 < m.comps
  {
  }

  lemma MatchedSlices(m: Model, prompt: seq<int>, blocks: seq<KVBlock>, len: nat, size: nat)
    requires 0 < size && Matches(m, prompt, blocks, len, size)
    ensures 0 < len < |prompt| && len <= |blocks| * size <= |prompt|
    ensures
      var whole := RefRow(m, prompt[..|blocks| * size]);
      && Whole(whole.keys, whole.values, m.nLayers, m.comps, |blocks| * size)
      && forall b :: 0 <= b < |blocks| ==> Slice(blocks[b], whole.keys, whole.values, m.nLayers, m.comps, size, b * size)
  {
    hide Slice;
    hide RefRow;
    hide RefBlock;
    RefRowWhole(m, prompt[..|blocks| * size]);
    forall b | 0 <= b < |blocks|
      ensures
        var whole := RefRow(m, prompt[..|blocks| * size]);
        Slice(blocks[b], whole.keys, whole.values, m.nLayers, m.comps, size, b * size)
    {
      MatchedSlice(m, size, prompt, |blocks|, |blocks| * size, b);
    }
  }

  lemma SeededPrefilled(m: Model, c: BatchKVCache, prompt: seq<int>, len: nat)
    requires c.Valid() && c.Aligned() && c.comps == m.comps && |c.keys| == m.nLayers && 0 < len <= |prompt|
    requires c.batch == 1 && c.idx == len && c.leftPadding == [0] && c.keys[0] != [] && c.Rows() == [RefRow(m, prompt[..len])]
    ensures PrefilledTo(m, c, [prompt], |prompt|, len)
  {
    hide RefKeys;
    hide RefValues;
    assert Partial(m, prompt, |prompt|, len) == RefRow(m, prompt[..len]);
  }

  /** What PrefixCache::match returns for `prompt`. */
  ghost predicate Matches(m: Model, prompt: seq<int>, blocks: seq<KVBlock>, len: nat, size: nat)
    requires 0 < size
  {
    && |blocks| <= |prompt| / size && |blocks| * size <= |prompt| && 0 < len < |prompt| && len <= |blocks| * size
    && forall b :: 0 <= b < |blocks| ==> blocks[b] == RefBlock(m, size, BlockKeys(prompt, size)[b])
  }

  /** One chunk of a single prompt's suffix. */
  method SuffixChunk(m: Model, c: BatchKVCache, prompt: seq<int>, start: nat, n: nat) returns (last: seq<Logits>)
    requires m.Valid() && PrefilledTo(m, c, [prompt], |prompt|, start) && 0 < n && start + n <= |prompt|
    modifies c
    ensures PrefilledTo(m, c, [prompt], |prompt|, start + n)
    ensures start + n == |prompt| ==> |last| == 1 && last[0] == NextLogits(m, prompt)
  {
    var chunk := [prompt[start..start + n]];
    assert PadLeft(prompt, |prompt|, 0) == prompt;
    var logits := ForwardChunk(m, c, chunk, [prompt], |prompt|, start, n, 0);
    last := LastColumn(logits);
  }

  /** prefill_with_prefix: seed from matched blocks, then prefill only the suffix. */
  method PrefillWithPrefix(m: Model, prompt: seq<int>, blocks: seq<KVBlock>, cachedLen: nat, stepSize: nat, ghost size: nat)
    returns (c: BatchKVCache, last: seq<Logits>)
    requires m.Valid() && 0 < size && 0 < stepSize && Matches(m, prompt, blocks, cachedLen, size)
    ensures fresh(c) && Ready(m, c, [prompt], last)
  {
    c := SeedPrompt(m, prompt, blocks, cachedLen, size);
    var suffix := |prompt| - cachedLen;
    last := [];
    var pos := 0;
    while pos < suffix
      invariant pos <= suffix && fresh(c) && PrefilledTo(m, c, [prompt], |prompt|, cachedLen + pos)
      invariant pos == suffix ==> |last| == 1 && last[0] == NextLogits(m, prompt)
    {
      var n := Min(stepSize, suffix - pos);
      last := SuffixChunk(m, c, prompt, cachedLen + pos, n);
      pos := pos + n;
    }
    PrefilledReady(m, c, [prompt], |prompt|, last);
  }

  // ---------------------------------------------------------------- buckets

  /** next_bucket: the decode batch sizes whose graph shape recurs. */
  function NextBucket(n: nat): (r: nat)
    ensures n <= r
    ensures r in {1, 2, 4, 8, 16, 32} || (32 < n && r % 32 == 0)
    ensures forall k :: n <= k && (k in {1, 2, 4, 8, 16, 32} || (32 < k && k % 32 == 0)) ==> r <= k
  {
    if n <= 1 then 1
    else if n <= 2 then 2
    else if n <= 4 then 4
    else if n <= 8 then 8
    else if n <= 16 then 16
    else if n <= 32 then 32
    else (n + 31) / 32 * 32
  }

  // ---------------------------------------------------------------- decode

  /** Row b of `c` holds exactly the tokens `consumed[b]`. */
  ghost predicate Holding(m: Model, c: BatchKVCache, consumed: seq<seq<int>>)
    reads c
  {
    && c.Valid() && c.Aligned() && c.Started() && c.comps == m.comps && |c.keys| == m.nLayers && c.keys[0] != []
    && c.batch == |consumed|
    && forall b :: 0 <= b < |consumed| ==> c.Rows()[b] == RefRow(m, consumed[b])
  }

  /** Indices 0..n-1. */
  function Iota(n: nat): seq<nat> {
    seq(n, i requires 0 <= i => i)
  }

  /** One decode forward: the batch padded to its bucket with dummy rows that feed token 0, run one
      column further. The real rows take in their own token and give their own logits. */
  method DecodeForward(m: Model, c: BatchKVCache, feed: seq<int>, ghost consumed: seq<seq<int>>) returns (logits: seq<Logits>)
    requires m.Valid() && 0 < |feed| == |consumed| && Holding(m, c, consumed)
    modifies c
    ensures c.Valid() && c.Aligned() && c.Started() && c.comps == m.comps && |c.keys| == m.nLayers && c.keys[0] != []
    ensures c.batch == NextBucket(|feed|)
    ensures |logits| == NextBucket(|feed|)
    ensures forall b :: 0 <= b < |feed| ==>
              && c.Rows()[b] == RefRow(m, consumed[b] + [feed[b]])
              && logits[b] == NextLogits(m, consumed[b] + [feed[b]])
  {
    hide StoreOk;
    hide HiddenOf;
    hide NextBucket;
    hide RowOk;
    var B := |feed|;
    var bucket := NextBucket(B);
    var extra := bucket - B;
    if extra > 0 {
      c.PadDummies(extra);
    }
    assert forall b :: 0 <= b < B ==> c.Rows()[b] == RefRow(m, consumed[b]);
    var fed := feed + Repeat(extra, 0);
    ghost var rows, prev, padding := c.Rows(), c.idx, c.leftPadding;
    var inputs := seq(bucket, b requires 0 <= b < bucket => [fed[b]]);
    var out := Forward(m, inputs, c, 1);
    forall b | 0 <= b < B
      ensures c.Rows()[b] == RefRow(m, consumed[b] + [feed[b]]) && |out[b]| == 1 && out[b][0] == NextLogits(m, consumed[b] + [feed[b]])
    {
      DecodedRow(m, consumed[b], feed[b], padding[b], prev, rows[b], c.Rows()[b], out[b]);
    }
    forall b | 0 <= b < |out|
      ensures |out[b]| == 1
    {
      assert Forwarded(m, rows[b], padding[b], prev, inputs[b], c.Rows()[b], out[b]);
    }
    logits := LastColumn(out);
  }

  lemma DecodedRow(m: Model, done: seq<int>, token: int, padding: nat, prev: nat, before: CacheRow, after: CacheRow, logits: seq<Logits>)
    requires before == RefRow(m, done) && padding <= prev && |done| == prev - padding
    requires Forwarded(m, before, padding, prev, [token], after, logits)
    ensures after == RefRow(m, done + [token]) && |logits| == 1 && logits[0] == NextLogits(m, done + [token])
  {
    assert before == RowFor(m, done, padding, prev);
    ForwardedFor(m, done, padding, prev, [token], after, logits);
    assert [token][0..] == [token] && [token][0..0 + 1] == [token];
  }

  /** Dropping the dummy rows leaves the real ones. */
  method DropDummies(m: Model, c: BatchKVCache, B: nat, ghost consumed: seq<seq<int>>)
    requires c.Valid() && c.Aligned() && c.Started() && c.comps == m.comps && |c.keys| == m.nLayers && c.keys[0] != []
    requires 0 < B == |consumed| <= c.batch
    requires forall b :: 0 <= b < B ==> c.Rows()[b] == RefRow(m, consumed[b])
    modifies c
    ensures Holding(m, c, consumed)
  {
    if c.batch > B {
      c.Filter(Iota(B));
    }
  }

  /** Keeping some of the rows keeps what they hold. */
  method FilterHeld(m: Model, c: BatchKVCache, keep: seq<nat>, ghost consumed: seq<seq<int>>)
    requires Holding(m, c, consumed) && 0 < |keep| && forall k :: 0 <= k < |keep| ==> keep[k] < |consumed|
    modifies c
    ensures Holding(m, c, Select(consumed, keep))
  {
    c.Filter(keep);
  }

  /** Merging puts the other cache's rows after this one's. */
  method MergeHeld(m: Model, c: BatchKVCache, other: BatchKVCache, ghost consumed: seq<seq<int>>, ghost more: seq<seq<int>>)
    requires Holding(m, c, consumed) && Holding(m, other, more) && c != other
    modifies c
    ensures Holding(m, c, consumed + more)
  {
    c.Merge(other);
  }
}
