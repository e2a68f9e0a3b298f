/** Longest-prefix matching and harvesting over the block pool (src/cache/prefix_cache.cpp). */
module PrefixCaches {
  import opened KvQuant
  import opened BlockPools

  /** The key of block `b`: the whole prefix up to its end. */
  function BlockKey(ids: seq<int>, blockSize: nat, b: nat): Key
    requires (b + 1) * blockSize <= |ids|
  {
    ids[..(b + 1) * blockSize]
  }

  lemma BlockFits(n: nat, blockSize: nat, b: nat)
    requires 0 < blockSize && b < n / blockSize
    ensures (b + 1) * blockSize <= n
  {
    assert (b + 1) * blockSize <= (n / blockSize) * blockSize;
  }

  /** The chain of keys of every full block of `ids`. */
  function BlockKeys(ids: seq<int>, blockSize: nat): (r: seq<Key>)
    requires 0 < blockSize
    ensures |r| == |ids| / blockSize
  {
    seq(|ids| / blockSize, b requires 0 <= b < |ids| / blockSize => BlockFits(|ids|, blockSize, b); BlockKey(ids, blockSize, b))
  }

  /** block_bytes, counted in cells. */
  function BlockBytes(keys: seq<seq<Row>>, values: seq<seq<Row>>): nat {
    SumLayers(keys) + SumLayers(values)
  }

  function SumLayers(s: seq<seq<Row>>): nat {
    if s == [] then 0 else SumLayers(s[..|s| - 1]) + SumRows(s[|s| - 1])
  }

  function SumRows(s: seq<Row>): nat {
    if s == [] then 0 else SumRows(s[..|s| - 1]) + |s[|s| - 1]|
  }

  function SliceRows(rows: seq<Row>, start: nat, stop: nat): seq<Row>
    requires start <= stop && forall i :: 0 <= i < |rows| ==> stop <= |rows[i]|
  {
    seq(|rows|, i requires 0 <= i < |rows| => rows[i][start..stop])
  }

  function SliceLayers(s: seq<seq<Row>>, start: nat, stop: nat): seq<seq<Row>>
    requires start <= stop && forall l, i :: 0 <= l < |s| && 0 <= i < |s[l]| ==> stop <= |s[l][i]|
  {
    seq(|s|, l requires 0 <= l < |s| => SliceRows(s[l], start, stop))
  }

  /** Positions [start, stop) of a row, as a block. */
  function CutBlock(keys: seq<seq<Row>>, values: seq<seq<Row>>, start: nat, stop: nat): KVBlock
    requires start <= stop
    requires forall l, i :: 0 <= l < |keys| && 0 <= i < |keys[l]| ==> stop <= |keys[l][i]|
    requires forall l, i :: 0 <= l < |values| && 0 <= i < |values[l]| ==> stop <= |values[l][i]|
  {
    var ks, vs := SliceLayers(keys, start, stop), SliceLayers(values, start, stop);
    KVBlock(ks, vs, BlockBytes(ks, vs))
  }

  /** Tokens a match of `n` blocks reuses of a prompt of `len` tokens: never its last one. */
  function ReusedTokens(n: nat, blockSize: nat, len: nat): (r: nat)
    ensures r < len || r == 0
  {
    if n * blockSize < len then n * blockSize else if len == 0 then 0 else len - 1
  }

  lemma AllButLast(n: nat, size: nat, len: nat)
    ensures ReusedTokens(n, size, len) == if n * size <= len - 1 then n * size else if len == 0 then 0 else len - 1
  {
  }

  /** Every component covers `len` positions. */
  predicate Spans(s: seq<seq<Row>>, len: nat) {
    forall l, i :: 0 <= l < |s| && 0 <= i < |s[l]| ==> |s[l][i]| == len
  }

  /** Block `b` of a row of `len` positions. */
  function SealedBlock(keys: seq<seq<Row>>, values: seq<seq<Row>>, len: nat, blockSize: nat, b: nat): KVBlock
    requires 0 < blockSize && b < len / blockSize && Spans(keys, len) && Spans(values, len)
  {
    BlockFits(len, blockSize, b);
    assert b * blockSize <= (b + 1) * blockSize;
    CutBlock(keys, values, b * blockSize, (b + 1) * blockSize)
  }

  /** The keys of `chain` not in `held`, in order. */
  ghost function Missing(chain: seq<Key>, held: set<Key>): seq<Key> {
    if chain == [] then []
    else Missing(chain[..|chain| - 1], held) + if chain[|chain| - 1] in held then [] else [chain[|chain| - 1]]
  }

  lemma MissingNext(chain: seq<Key>, b: nat, held: set<Key>)
    requires b < |chain|
    ensures Missing(chain[..b + 1], held) == Missing(chain[..b], held) + if chain[b] in held then [] else [chain[b]]
  {
    assert chain[..b + 1][..b] == chain[..b];
  }

  lemma MissingNone(chain: seq<Key>, held: set<Key>)
    ensures Missing(chain[..0], held) == []
  {
  }

  /** Exactly the keys not held, each as often as in the chain. */
  lemma {:induction false} MissingMeans(chain: seq<Key>, held: set<Key>)
    requires forall i, j :: 0 <= i < j < |chain| ==> chain[i] != chain[j]
    ensures forall h :: h in Missing(chain, held) <==> h in chain && h !in held
    ensures forall i, j :: 0 <= i < j < |Missing(chain, held)| ==> Missing(chain, held)[i] != Missing(chain, held)[j]
    decreases |chain|
  {
    if chain != [] {
      var head := chain[..|chain| - 1];
      assert chain == head + [chain[|chain| - 1]];
      MissingMeans(head, held);
    }
  }

  lemma ChainDistinct(ids: seq<int>, size: nat)
    requires 0 < size
    ensures forall i, j :: 0 <= i < j < |BlockKeys(ids, size)| ==> BlockKeys(ids, size)[i] != BlockKeys(ids, size)[j]
  {
    forall i, j | 0 <= i < j < |BlockKeys(ids, size)|
      ensures BlockKeys(ids, size)[i] != BlockKeys(ids, size)[j]
    {
      BlockFits(|ids|, size, i);
      BlockFits(|ids|, size, j);
      assert (i + 1) * size < (j + 1) * size;
    }
  }

  /** `n` is the length of the longest run of the chain that is available. */
  ghost predicate LongestRun(chain: seq<Key>, available: set<Key>, n: nat) {
    n <= |chain| && (forall b :: 0 <= b < n ==> chain[b] in available) && (n < |chain| ==> chain[n] !in available)
  }

  /** The keys lead the order, the last of them first. */
  ghost predicate Recent(keys: seq<Key>, order: seq<Key>) {
    |keys| <= |order| && forall b :: 0 <= b < |keys| ==> order[|keys| - 1 - b] == keys[b]
  }

  class PrefixCache {
    const blockSize: nat
    const pool: BlockPool
    /** The K/V each key names; every stored block must be it. */
    ghost const truth: Key -> KVBlock

    ghost predicate Valid()
      reads this, pool, pool.spill
    {
      && 0 < blockSize && pool.Valid()
      && (pool.spill != null ==> (pool.spill as object) != pool && (pool.spill as object) != this)
      && (pool as object) != this
      && (forall k :: k in pool.blocks ==> pool.blocks[k] == truth(k))
      && (pool.spill != null ==> forall k :: k in pool.spill.visible ==> pool.spill.visible[k] == truth(k))
    }

    /** Keys a lookup can serve: in RAM, or (with a spill tier) queued or on disk. */
    ghost function Available(): set<Key>
      reads this, pool, pool.spill
    {
      pool.blocks.Keys + if pool.spill == null then {} else pool.spill.visible.Keys
    }

    /** No block is lost while it waits on disk: there is no disk tier, or it is lossless. */
    ghost predicate Sure()
      reads this
    {
      pool.spill == null || pool.spill.lossless
    }

    /** The disk tier loses nothing that leaves the pool. */
    ghost predicate Keeps()
      reads this
    {
      pool.spill != null && pool.spill.lossless
    }

    /** The pool admits the block `h` names. */
    ghost predicate Admissible(h: Key) {
      pool.budget == 0 || truth(h).bytes <= pool.budget
    }

    /** `order` after every admissible one of `keys`, in turn, is put in front. */
    ghost function Pushed(keys: seq<Key>, order: seq<Key>): seq<Key> {
      if keys == [] then order
      else
        var last := |keys| - 1;
        (if Admissible(keys[last]) then [keys[last]] else []) + Pushed(keys[..last], order)
    }

    ghost function Truths(order: seq<Key>): map<Key, KVBlock> {
      map k | k in order :: truth(k)
    }

    /** Cell count of the blocks `keys` name. */
    ghost function Bytes(keys: seq<Key>): nat {
      if keys == [] then 0 else Bytes(keys[..|keys| - 1]) + truth(keys[|keys| - 1]).bytes
    }

    /** The pool holds the most recent part of `order`, cut no shorter than its budget demands. */
    ghost predicate Keeping(order: seq<Key>)
      reads pool
    {
      EvictedTo(order, Truths(order), pool.lru, pool.blocks, pool.budget)
    }

    constructor (size: nat, budget: nat, spill: SpillTier?, ghost names: Key -> KVBlock)
      requires 0 < size && (spill != null ==> forall k :: k in spill.visible ==> spill.visible[k] == names(k))
      ensures Valid() && blockSize == size && truth == names
      ensures Available() == if spill == null then {} else spill.visible.Keys
      ensures fresh(pool) && pool.spill == spill && pool.budget == budget
    {
      blockSize := size;
      truth := names;
      pool := new BlockPool(budget, spill);
    }

    /** Pool `block` under `h`; with a spill tier, whatever that evicts stays available. */
    method Add(h: Key, block: KVBlock)
      requires Valid() && block == truth(h)
      modifies pool, pool.spill
      ensures Valid()
      ensures Available() <= old(Available()) + {h}
      ensures Keeps() ==> old(Available()) <= Available()
      ensures Keeps() && Admissible(h) ==> h in Available()
      ensures old(h in pool.blocks) || !Admissible(h) ==> pool.lru == old(pool.lru) && pool.blocks == old(pool.blocks)
      ensures old(h !in pool.blocks) && Admissible(h) ==>
                && h in pool.blocks && pool.lru[..1] == [h]
                && EvictedTo([h] + old(pool.lru), old(pool.blocks)[h := truth(h)], pool.lru, pool.blocks, pool.budget)
    {
      hide EvictedTo;
      hide Total;
      hide BlockPool.Valid;
      ghost var lru0, blocks0 := pool.lru, pool.blocks;
      pool.Insert(h, block);
      if h !in blocks0 && Admissible(h) {
        EvictedParts([h] + lru0, blocks0[h := block], pool.lru, pool.blocks, pool.budget);
      }
      assert forall k :: k in pool.blocks ==> k in blocks0 || k == h;
    }

    /** The keys of every full block of `ids`. */
    ghost function Named(ids: seq<int>): set<Key>
      requires 0 < blockSize
    {
      set h | h in BlockKeys(ids, blockSize)
    }

    /** Those whose block the pool admits. */
    ghost function Fitting(ids: seq<int>): set<Key>
      requires 0 < blockSize
    {
      set h | h in BlockKeys(ids, blockSize) && Admissible(h)
    }

    lemma NamedMean(ids: seq<int>)
      requires 0 < blockSize
      ensures forall h :: h in Named(ids) <==> h in BlockKeys(ids, blockSize)
      ensures forall h :: h in Fitting(ids) <==> h in BlockKeys(ids, blockSize) && Admissible(h)
    {
    }

    lemma NoneRecent(order: seq<Key>)
      ensures Recent([], order)
    {
    }

    lemma RecentNext(chain: seq<Key>, n: nat, before: seq<Key>, after: seq<Key>)
      requires n < |chain| && forall i, j :: 0 <= i < j < |chain| ==> chain[i] != chain[j]
      ensures Recent(chain[..n], before) && Touched(chain[n], before, after) ==> Recent(chain[..n + 1], after)
    {
      if Recent(chain[..n], before) && Touched(chain[n], before, after) {
        forall i | 0 <= i < n
          ensures before[i] == chain[n - 1 - i]
        {
          assert before[n - 1 - (n - 1 - i)] == chain[..n][n - 1 - i];
        }
        var at :| 0 <= at < |before| && before[at] == chain[n] && after == Splice(before, at);
        assert n <= at;
        assert after[0] == chain[n] && forall i :: 0 <= i < n ==> after[i + 1] == before[i];
      }
    }

    lemma Fronted(h: Key, before: seq<Key>, after: seq<Key>)
      ensures Touched(h, before, after) ==> after[..1] == [h]
    {
    }

    /** `h` was moved to the front of the order. */
    ghost predicate Touched(h: Key, before: seq<Key>, after: seq<Key>) {
      exists at :: 0 <= at < |before| && before[at] == h && after == Splice(before, at)
    }

    /** One lookup: the pool, then the spill tier, re-promoting what it revives. What it finds is the most recent. */
    method Lookup(h: Key) returns (found: bool, block: KVBlock)
      requires Valid()
      modifies pool, pool.spill
      ensures Valid() && Available() <= old(Available())
      ensures found ==> h in old(Available()) && block == truth(h)
      ensures Sure() ==> Available() == old(Available()) && (found <==> h in Available())
      ensures old(h in pool.blocks) ==> found
      ensures !found ==> pool.lru == old(pool.lru) && pool.blocks == old(pool.blocks)
      ensures found && Admissible(h) ==> h in pool.blocks && pool.lru[..1] == [h]
      ensures pool.spill == null || old(h in pool.blocks) ==> pool.blocks == old(pool.blocks)
      ensures pool.spill == null && found ==> h in pool.blocks && Touched(h, old(pool.lru), pool.lru)
    {
      hide EvictedTo;
      hide Total;
      hide Splice;
      hide BlockPool.Valid;
      ghost var available := Available();
      found, block := pool.Get(h);
      assert Valid() && Available() == available && (found <==> h in pool.blocks);
      Fronted(h, old(pool.lru), pool.lru);
      if !found && pool.spill != null {
        found, block := Miss(h);
      }
    }

    /** The miss hook, and the re-promotion of what it revives. */
    method Miss(h: Key) returns (found: bool, block: KVBlock)
      requires Valid() && pool.spill != null && h !in pool.blocks
      modifies pool, pool.spill
      ensures Valid() && Available() <= old(Available())
      ensures found ==> h in old(Available()) && block == truth(h)
      ensures Sure() ==> Available() == old(Available()) && (found <==> h in Available())
      ensures !found ==> pool.lru == old(pool.lru) && pool.blocks == old(pool.blocks)
      ensures found && Admissible(h) ==> h in pool.blocks && pool.lru[..1] == [h]
    {
      ghost var available := Available();
      found, block := pool.spill.Revive(h);
      assert Valid() && Available() <= available;
      assert found ==> h in available && block == truth(h);
      assert Sure() ==> Keeps() && Available() == available && (found <==> h in available);
      hide *;
      if found {
        Add(h, block);
      }
    }

    /** match: a run of blocks that were available at entry, clamped so that the prompt's last token is
        always recomputed; the longest one unless the disk tier fails. Promotions made on the way evict
        pool blocks, but never make a block unavailable. Without a disk tier it is the longest run in the pool, and
        its blocks become the most recent ones, the last of them first. */
    method Match(ids: seq<int>) returns (run: seq<KVBlock>, tokens: nat)
      requires Valid()
      modifies pool, pool.spill
      ensures Valid() && Available() <= old(Available()) && (Sure() ==> Available() == old(Available()))
      ensures |run| <= |BlockKeys(ids, blockSize)| == |ids| / blockSize
      ensures forall b :: 0 <= b < |run| ==>
                BlockKeys(ids, blockSize)[b] in old(Available()) && run[b] == truth(BlockKeys(ids, blockSize)[b])
      ensures Sure() && |run| < |BlockKeys(ids, blockSize)| ==> BlockKeys(ids, blockSize)[|run|] !in old(Available())
      ensures tokens == ReusedTokens(|run|, blockSize, |ids|)
      ensures tokens == if |run| * blockSize <= |ids| - 1 then |run| * blockSize else if |ids| == 0 then 0 else |ids| - 1
      ensures pool.spill == null ==>
                && pool.blocks == old(pool.blocks) && Recent(BlockKeys(ids, blockSize)[..|run|], pool.lru)
                && (|run| < |BlockKeys(ids, blockSize)| ==> BlockKeys(ids, blockSize)[|run|] !in pool.blocks)
    {
      assert 0 < blockSize;
      hide *;
      ChainDistinct(ids, blockSize);
      run := LookupRun(BlockKeys(ids, blockSize));
      tokens := ReusedTokens(|run|, blockSize, |ids|);
      AllButLast(|run|, blockSize, |ids|);
    }

    /** The lookups of match, along a prompt's chain of keys. */
    method LookupRun(chain: seq<Key>) returns (run: seq<KVBlock>)
      requires Valid() && forall i, j :: 0 <= i < j < |chain| ==> chain[i] != chain[j]
      modifies pool, pool.spill
      ensures Valid() && Available() <= old(Available()) && (Sure() ==> Available() == old(Available()))
      ensures |run| <= |chain|
      ensures forall b :: 0 <= b < |run| ==> chain[b] in old(Available()) && run[b] == truth(chain[b])
      ensures Sure() && |run| < |chain| ==> chain[|run|] !in old(Available())
      ensures pool.spill == null ==>
                && pool.blocks == old(pool.blocks) && Recent(chain[..|run|], pool.lru)
                && (|run| < |chain| ==> chain[|run|] !in pool.blocks)
    {
      hide *;
      run := [];
      NoneRecent(pool.lru);
      while |run| < |chain|
        invariant Valid() && Available() <= old(Available()) && (Sure() ==> Available() == old(Available()))
        invariant |run| <= |chain|
        invariant forall k :: 0 <= k < |run| ==> chain[k] in old(Available()) && run[k] == truth(chain[k])
        invariant pool.spill == null ==> pool.blocks == old(pool.blocks) && Recent(chain[..|run|], pool.lru)
      {
        ghost var before := pool.lru;
        var found, block := Lookup(chain[|run|]);
        if !found {
          break;
        }
        RecentNext(chain, |run|, before, pool.lru);
        run := run + [block];
      }
    }

    /** harvest: seal every full block of ids[..len) the pool does not hold. `keys` and `values`
        are the row's fetched components, one position per id. The pool then holds the most recent part of
        the blocks sealed, newest first, and those it had: all of them when it is unbounded or they fit, and
        always the last one sealed. With a spill tier nothing that was available is lost, and every block
        that fits the budget becomes available. */
    method Harvest(ids: seq<int>, len: nat, keys: seq<seq<Row>>, values: seq<seq<Row>>)
      requires Valid() && len <= |ids|
      requires Spans(keys, len) && Spans(values, len)
      requires forall b :: 0 <= b < len / blockSize ==> SealedBlock(keys, values, len, blockSize, b) == truth(BlockKeys(ids[..len], blockSize)[b])
      modifies pool, pool.spill
      ensures Valid()
      ensures forall k :: k in Available() ==> k in old(Available()) || k in BlockKeys(ids[..len], blockSize)
      ensures Keeps() ==> old(Available()) <= Available()
      ensures Keeps() ==>
                forall h :: h in BlockKeys(ids[..len], blockSize) && Admissible(h) ==> h in Available()
      ensures Keeping(Pushed(Missing(BlockKeys(ids[..len], blockSize), old(pool.blocks.Keys)), old(pool.lru)))
      ensures pool.budget == 0 || old(pool.bytes) + Bytes(Missing(BlockKeys(ids[..len], blockSize), old(pool.blocks.Keys))) <= pool.budget ==>
                forall h :: h in old(pool.blocks) || h in BlockKeys(ids[..len], blockSize) ==> h in pool.blocks
      ensures forall b :: 0 <= b < |BlockKeys(ids[..len], blockSize)| && LastSealed(BlockKeys(ids[..len], blockSize), old(pool.blocks.Keys), b) ==>
                BlockKeys(ids[..len], blockSize)[b] in pool.blocks && pool.lru[..1] == [BlockKeys(ids[..len], blockSize)[b]]
      ensures pool.budget == 0 ==> old(pool.blocks.Keys) + Named(ids[..len]) <= pool.blocks.Keys
      ensures Keeps() ==> old(Available()) + Fitting(ids[..len]) <= Available()
    {
      assert 0 < blockSize && forall h :: h in pool.blocks ==> h in Available();
      ghost var lru0, held, bytes0 := pool.lru, pool.blocks.Keys, pool.bytes;
      Standing();
      hide *;
      var chain := BlockKeys(ids[..len], blockSize);
      ChainDistinct(ids[..len], blockSize);
      MissingMeans(chain, held);
      var hashes, sealed := Seal(chain, len, keys, values);
      AddAll(hashes, sealed);
      Harvested(chain, held, lru0, bytes0);
      NamedMean(ids[..len]);
    }

    /** The blocks of the chain that the pool does not hold, cut from the row. */
    method Seal(chain: seq<Key>, len: nat, keys: seq<seq<Row>>, values: seq<seq<Row>>) returns (hashes: seq<Key>, sealed: seq<KVBlock>)
      requires 0 < blockSize && Spans(keys, len) && Spans(values, len) && |chain| == len / blockSize
      requires forall b :: 0 <= b < |chain| ==> SealedBlock(keys, values, len, blockSize, b) == truth(chain[b])
      ensures hashes == Missing(chain, pool.blocks.Keys) && |sealed| == |hashes|
      ensures forall j :: 0 <= j < |hashes| ==> hashes[j] in chain && sealed[j] == truth(hashes[j])
      ensures forall k :: 0 <= k < |chain| ==> chain[k] in hashes || chain[k] in pool.blocks
    {
      hide *;
      ghost var held := pool.blocks.Keys;
      var nFull := len / blockSize;
      hashes, sealed := [], [];
      MissingNone(chain, held);
      for b := 0 to nFull
        invariant |hashes| == |sealed| && forall j :: 0 <= j < |hashes| ==> hashes[j] in chain && sealed[j] == truth(hashes[j])
        invariant forall k :: 0 <= k < b ==> chain[k] in hashes || chain[k] in pool.blocks
        invariant hashes == Missing(chain[..b], held)
      {
        MissingNext(chain, b, held);
        if chain[b] !in pool.blocks {
          hashes := hashes + [chain[b]];
          sealed := sealed + [SealedBlock(keys, values, len, blockSize, b)];
        }
      }
      assert chain[..|chain|] == chain;
    }

    /** Block `b` is the last one of the chain that is new and admissible. */
    ghost predicate LastSealed(chain: seq<Key>, held: set<Key>, b: nat) {
      && b < |chain| && chain[b] !in held && Admissible(chain[b])
      && forall c :: b < c < |chain| ==> chain[c] in held || !Admissible(chain[c])
    }

    lemma Standing()
      requires Valid()
      ensures Keeping(pool.lru) && (forall k :: k in pool.lru <==> k in pool.blocks) && pool.bytes == Total(pool.lru, Truths(pool.lru))
    {
      forall k: Key
        ensures k in pool.lru <==> k in pool.blocks
      {
        assert k in multiset(pool.lru) <==> k in multiset(pool.blocks.Keys);
      }
      TotalSame(pool.lru, pool.blocks, Truths(pool.lru));
      assert pool.lru == pool.lru[..|pool.lru|];
    }

    /** What follows from the pool keeping the most recent part. */
    lemma Harvested(chain: seq<Key>, held: set<Key>, lru0: seq<Key>, bytes0: nat)
      requires Valid() && (forall k :: k in lru0 <==> k in held) && bytes0 == Total(lru0, Truths(lru0))
      requires forall i, j :: 0 <= i < j < |chain| ==> chain[i] != chain[j]
      requires Keeping(Pushed(Missing(chain, held), lru0))
      ensures pool.budget == 0 || bytes0 + Bytes(Missing(chain, held)) <= pool.budget ==>
                forall h :: h in held || h in chain ==> h in pool.blocks
      ensures forall b :: 0 <= b < |chain| && LastSealed(chain, held, b) ==> chain[b] in pool.blocks && pool.lru[..1] == [chain[b]]
    {
      hide *;
      var added := Missing(chain, held);
      var order := Pushed(added, lru0);
      KeepingMeans(order);
      MissingMeans(chain, held);
      PushedHolds(added, lru0);
      PushedBytes(added, lru0);
      Standing();
      if pool.budget == 0 || bytes0 + Bytes(added) <= pool.budget {
        forall h | h in held || h in chain
          ensures h in pool.blocks
        {
          if h !in lru0 {
            assert h in added;
            Fits(added, h);
          }
          assert h in order;
        }
      }
      forall b | 0 <= b < |chain| && LastSealed(chain, held, b)
        ensures chain[b] in pool.blocks && pool.lru[..1] == [chain[b]]
      {
        SealedFirst(chain, held, lru0, b);
        assert pool.lru[0] in pool.lru;
      }
    }

    lemma KeepingMeans(order: seq<Key>)
      requires Keeping(order)
      ensures forall k :: k in order ==> k in Truths(order)
      ensures EvictedTo(order, Truths(order), pool.lru, pool.blocks, pool.budget)
      ensures pool.budget == 0 || Total(order, Truths(order)) <= pool.budget ==> pool.lru == order
      ensures order != [] && Admissible(order[0]) ==> pool.lru != [] && pool.lru[0] == order[0] && pool.lru[..1] == [order[0]]
    {
      hide Total;
      EvictedMeans(order, Truths(order), pool.lru, pool.blocks, pool.budget);
    }

    lemma {:induction false} PushedHolds(keys: seq<Key>, order: seq<Key>)
      ensures forall k :: k in order || (k in keys && Admissible(k)) <==> k in Pushed(keys, order)
      decreases |keys|
    {
      if keys != [] {
        var head := keys[..|keys| - 1];
        assert keys == head + [keys[|keys| - 1]];
        PushedHolds(head, order);
      }
    }

    lemma {:induction false} PushedBytes(keys: seq<Key>, order: seq<Key>)
      ensures Total(Pushed(keys, order), Truths(Pushed(keys, order))) <= Total(order, Truths(order)) + Bytes(keys)
      decreases |keys|
    {
      if keys != [] {
        var last := |keys| - 1;
        PushedBytes(keys[..last], order);
        var rest, h := Pushed(keys[..last], order), keys[last];
        if Admissible(h) {
          var m := Truths([h] + rest);
          TotalSum([h], rest, m);
          TotalSame(rest, Truths(rest), m);
          assert [h][..0] == [];
        } else {
          assert [] + rest == rest;
        }
      }
    }

    lemma {:induction false} Fits(keys: seq<Key>, h: Key)
      requires h in keys && (pool.budget == 0 || Bytes(keys) <= pool.budget)
      ensures Admissible(h)
      decreases |keys|
    {
      var head := keys[..|keys| - 1];
      assert keys == head + [keys[|keys| - 1]];
      if h in head {
        Fits(head, h);
      }
    }

    /** The last block sealed is in front. */
    lemma {:induction false} SealedFirst(chain: seq<Key>, held: set<Key>, order: seq<Key>, b: nat)
      requires LastSealed(chain, held, b)
      ensures Pushed(Missing(chain, held), order) != [] && Pushed(Missing(chain, held), order)[0] == chain[b] && Admissible(chain[b])
      decreases |chain|
    {
      var last := |chain| - 1;
      var added, before := Missing(chain, held), Missing(chain[..last], held);
      if chain[last] !in held {
        assert added[..|added| - 1] == before;
      } else {
        assert before + [] == before;
      }
      if b < last {
        assert LastSealed(chain[..last], held, b);
        SealedFirst(chain[..last], held, order, b);
        assert [] + Pushed(before, order) == Pushed(before, order);
      }
    }

    method AddAll(hashes: seq<Key>, sealed: seq<KVBlock>)
      requires Valid() && |sealed| == |hashes| && forall j :: 0 <= j < |hashes| ==> sealed[j] == truth(hashes[j])
      requires forall i, j :: 0 <= i < j < |hashes| ==> hashes[i] != hashes[j]
      requires forall j :: 0 <= j < |hashes| ==> hashes[j] !in pool.blocks
      modifies pool, pool.spill
      ensures Keeping(Pushed(hashes, old(pool.lru)))
      ensures Valid()
      ensures forall k :: k in Available() ==> k in old(Available()) || k in hashes
      ensures Keeps() ==> old(Available()) <= Available()
      ensures Keeps() ==> forall h :: h in hashes && Admissible(h) ==> h in Available()
    {
      hide *;
      ghost var lru0 := pool.lru;
      Standing();
      PushedNone(hashes, lru0);
      for j := 0 to |hashes|
        invariant Valid() && Keeping(Pushed(hashes[..j], lru0))
        invariant forall k :: j <= k < |hashes| ==> hashes[k] !in pool.blocks
        invariant forall k :: k in Available() ==> k in old(Available()) || k in hashes
        invariant Keeps() ==> old(Available()) <= Available()
        invariant Keeps() ==> forall h :: h in hashes[..j] && Admissible(h) ==> h in Available()
      {
        assert hashes[..j + 1] == hashes[..j] + [hashes[j]];
        ghost var mid, held := pool.lru, pool.blocks;
        KeepingMeans(Pushed(hashes[..j], lru0));
        Add(hashes[j], sealed[j]);
        AddedNext(hashes, j, lru0, mid, held);
      }
      assert hashes[..|hashes|] == hashes;
    }

    lemma PushedNone(keys: seq<Key>, order: seq<Key>)
      ensures Pushed(keys[..0], order) == order
    {
    }

    /** One more key put in front. */
    lemma AddedNext(hashes: seq<Key>, j: nat, lru0: seq<Key>, mid: seq<Key>, held: map<Key, KVBlock>)
      requires j < |hashes| && EvictedTo(Pushed(hashes[..j], lru0), Truths(Pushed(hashes[..j], lru0)), mid, held, pool.budget)
      requires hashes[j] !in held && (forall i, k :: 0 <= i < k < |hashes| ==> hashes[i] != hashes[k])
      requires forall k :: j <= k < |hashes| ==> hashes[k] !in held
      requires !Admissible(hashes[j]) ==> pool.lru == mid && pool.blocks == held
      requires Admissible(hashes[j]) ==> EvictedTo([hashes[j]] + mid, held[hashes[j] := truth(hashes[j])], pool.lru, pool.blocks, pool.budget)
      ensures Keeping(Pushed(hashes[..j + 1], lru0))
      ensures forall k :: j < k < |hashes| ==> hashes[k] !in pool.blocks
    {
      hide Total;
      var h, order := hashes[j], Pushed(hashes[..j], lru0);
      assert hashes[..j + 1][..j] == hashes[..j];
      if Admissible(h) {
        EvictedAgain(h, truth(h), order, Truths(order), mid, held, pool.lru, pool.blocks, pool.budget);
        assert Truths([h] + order) == Truths(order)[h := truth(h)];
      } else {
        assert [] + order == order;
      }
    }
  }
}
