/** The prefix pool: blocks of cached K/V keyed by the token prefix they end
    (src/cache/block_pool.cpp), and the hook that spills what it evicts. */
module BlockPools {
  import opened KvQuant

  /** A chained hash, taken as injective: it names the whole token prefix up to the block's end. */
  type Key = seq<int>

  /** One block_size-token span of K/V: [layer][component][position]. */
  datatype KVBlock = KVBlock(keys: seq<seq<Row>>, values: seq<seq<Row>>, bytes: nat)

  ghost function Total(order: seq<Key>, m: map<Key, KVBlock>): nat
    requires forall k :: k in order ==> k in m
  {
    if order == [] then 0
    else Total(order[..|order| - 1], m) + m[order[|order| - 1]].bytes
  }

  lemma {:induction false} TotalSame(order: seq<Key>, m: map<Key, KVBlock>, m': map<Key, KVBlock>)
    requires forall k :: k in order ==> k in m && k in m' && m[k] == m'[k]
    ensures Total(order, m) == Total(order, m')
  {
    if order != [] {
      TotalSame(order[..|order| - 1], m, m');
    }
  }

  lemma {:induction false} TotalSum(a: seq<Key>, b: seq<Key>, m: map<Key, KVBlock>)
    requires forall k :: k in a + b ==> k in m
    ensures (forall k :: k in a ==> k in m) && (forall k :: k in b ==> k in m)
    ensures Total(a + b, m) == Total(a, m) + Total(b, m)
  {
    assert forall k :: k in a ==> k in a + b;
    assert forall k :: k in b ==> k in a + b;
    if b == [] {
      assert a + b == a;
    } else {
      assert (a + b)[..|a + b| - 1] == a + b[..|b| - 1];
      TotalSum(a, b[..|b| - 1], m);
    }
  }

  lemma AloneFits(h: Key, rest: seq<Key>, m: map<Key, KVBlock>)
    requires h in m && forall k :: k in [h] + rest ==> k in m
    ensures Total([h], m) == m[h].bytes && Total(([h] + rest)[..1], m) == m[h].bytes
  {
    assert [h][..0] == [] && ([h] + rest)[..1] == [h];
  }

  /** list::splice: the element at `at` moves to the front. */
  function Splice(order: seq<Key>, at: nat): seq<Key>
    requires at < |order|
  {
    [order[at]] + (order[..at] + order[at + 1..])
  }

  lemma SpliceReorders(order: seq<Key>, at: nat, m: map<Key, KVBlock>)
    requires at < |order| && forall k :: k in order ==> k in m
    ensures multiset(Splice(order, at)) == multiset(order)
    ensures (forall k :: k in Splice(order, at) ==> k in m) && Total(Splice(order, at), m) == Total(order, m)
  {
    var a, x, b := order[..at], [order[at]], order[at + 1..];
    assert order == a + (x + b);
    assert multiset(Splice(order, at)) == multiset(order);
    forall k | k in Splice(order, at)
      ensures k in m
    {
      assert k in multiset(order);
    }
    TotalSum(a, x + b, m);
    TotalSum(x, b, m);
    TotalSum(x, a + b, m);
    TotalSum(a, b, m);
  }

  lemma DropLast(order: seq<Key>, m: map<Key, KVBlock>)
    requires order != [] && multiset(order) == multiset(m.Keys)
    ensures
      var last := |order| - 1;
      var m' := m - {order[last]};
      && multiset(order[..last]) == multiset(m'.Keys)
      && forall k :: k in order[..last] ==> k in m'
  {
    var last := |order| - 1;
    var victim := order[last];
    var m' := m - {victim};
    assert order == order[..last] + [victim];
    assert multiset(order) == multiset(order[..last]) + multiset{victim};
    assert victim in multiset(order);
    assert m.Keys == m'.Keys + {victim};
    assert multiset(m.Keys) == multiset(m'.Keys) + multiset{victim};
    assert multiset(order[..last]) == multiset(order) - multiset{victim};
    assert multiset(m'.Keys) == multiset(m.Keys) - multiset{victim};
    forall k | k in order[..last]
      ensures k in m'
    {
      assert k in multiset(order[..last]);
      assert k in multiset(m'.Keys);
    }
  }

  /** The SSD tier as the worker sees it: blocks still queued or on disk. */
  class SpillTier {
    var visible: map<Key, KVBlock>
    /** Unbounded disk, and no write, read or decode fails. */
    const lossless: bool

    /** Over what an earlier run left on disk. */
    constructor (held: map<Key, KVBlock>, sure: bool)
      ensures visible == held && lossless == sure
    {
      visible, lossless := held, sure;
    }

    /** Failed writes and disk evictions, of any blocks at any time. */
    method Lose()
      modifies this
      ensures visible.Keys <= old(visible).Keys && forall k :: k in visible ==> visible[k] == old(visible)[k]
      ensures lossless ==> visible == old(visible)
    {
      if !lossless {
        var gone: set<Key> := *;
        visible := visible - gone;
      }
    }

    /** The evict hook: contains-then-put. */
    method Spill(h: Key, block: KVBlock)
      modifies this
      ensures forall k :: k in visible ==> (k in old(visible) && visible[k] == old(visible)[k]) || (k == h && visible[k] == block)
      ensures lossless ==> visible == if h in old(visible) then old(visible) else old(visible)[h := block]
    {
      Lose();
      if h in visible {
        return;
      }
      visible := visible[h := block];
    }

    /** The miss hook: read the block back; a file that cannot be read or decoded is a miss. */
    method Revive(h: Key) returns (found: bool, block: KVBlock)
      modifies this
      ensures visible.Keys <= old(visible).Keys && forall k :: k in visible ==> visible[k] == old(visible)[k]
      ensures found ==> h in old(visible) && block == old(visible)[h]
      ensures lossless ==> visible == old(visible) && (found <==> h in visible)
    {
      Lose();
      found, block := h in visible, KVBlock([], [], 0);
      if found {
        block := visible[h];
        if !lossless {
          found := *;
        }
      }
    }
  }

  class BlockPool {
    /** Most recent first. */
    var lru: seq<Key>
    var blocks: map<Key, KVBlock>
    var bytes: nat
    /** 0 means unbounded. */
    const budget: nat
    /** Set when the evict hook is installed. */
    const spill: SpillTier?

    /** The list and the map hold the same keys, each once, and `bytes` is their sum. */
    ghost predicate Agrees()
      reads this
    {
      && multiset(lru) == multiset(blocks.Keys)
      && (forall k :: k in lru ==> k in blocks)
      && bytes == Total(lru, blocks)
    }

    ghost predicate Valid()
      reads this
    {
      Agrees() && (budget != 0 ==> bytes <= budget)
    }

    constructor (budgetBytes: nat, tier: SpillTier?)
      ensures Valid() && blocks == map[] && budget == budgetBytes && spill == tier
    {
      lru, blocks, bytes := [], map[], 0;
      budget := budgetBytes;
      spill := tier;
    }

    method Get(h: Key) returns (found: bool, block: KVBlock)
      requires Valid()
      modifies this`lru
      ensures Valid()
      ensures found <==> h in blocks
      ensures !found ==> lru == old(lru)
      ensures found ==> block == blocks[h]
      ensures found ==> exists at :: 0 <= at < |old(lru)| && old(lru)[at] == h && lru == Splice(old(lru), at)
    {
      if h !in blocks {
        return false, KVBlock([], [], 0);
      }
      assert h in multiset(lru);
      var at: nat :| at < |lru| && lru[at] == h;
      SpliceReorders(lru, at, blocks);
      lru := Splice(lru, at);
      return true, blocks[h];
    }

    /** Drop the least recently used block. */
    method EvictLast()
      requires Agrees() && lru != []
      requires spill != null ==> (spill as object) != this
      modifies this, spill
      ensures Agrees() && lru == old(lru)[..|old(lru)| - 1]
      ensures blocks == old(blocks) - {old(lru)[|old(lru)| - 1]}
      ensures spill != null ==> SpilledEvicted(old(blocks), blocks, old(spill.visible), spill.visible, spill.lossless)
    {
      ghost var order, before := lru, blocks;
      var last := |lru| - 1;
      var victim := lru[last];
      if spill != null {
        spill.Spill(victim, blocks[victim]);
      }
      DropLast(order, before);
      bytes := bytes - blocks[victim].bytes;
      blocks := blocks - {victim};
      lru := lru[..last];
      TotalSame(lru, before, blocks);
    }

    /** Evict from the back while over budget; every victim is offered to the spill hook first. */
    method EvictToBudget()
      requires Agrees()
      requires spill != null ==> (spill as object) != this
      modifies this, spill
      ensures Valid()
      ensures EvictedTo(old(lru), old(blocks), lru, blocks, budget)
      ensures spill != null ==> SpilledEvicted(old(blocks), blocks, old(spill.visible), spill.visible, spill.lossless)
    {
      hide Total;
      hide EvictedTo;
      hide SpilledEvicted;
      ghost var lru0, blocks0 := lru, blocks;
      NoneEvicted(lru, blocks, budget);
      if spill != null {
        NoneSpilled(blocks, spill.visible, spill.lossless);
      }
      if budget == 0 {
        return;
      }
      while bytes > budget && lru != []
        invariant Agrees()
        invariant EvictedTo(lru0, blocks0, lru, blocks, budget)
        invariant spill != null ==> SpilledEvicted(blocks0, blocks, old(spill.visible), spill.visible, spill.lossless)
        decreases |lru|
      {
        ghost var order, before := lru, blocks;
        ghost var held := if spill != null then spill.visible else map[];
        EvictLast();
        EvictedMore(lru0, blocks0, order, before, lru, blocks, budget);
        if spill != null {
          SpilledMore(blocks0, before, blocks, old(spill.visible), held, spill.visible, spill.lossless);
        }
      }
      TotalNone(blocks);
    }

    /** First write wins; a block bigger than the whole budget is not admitted; an admitted block
        is never the victim of its own insertion. */
    method Insert(h: Key, block: KVBlock)
      requires Valid()
      requires spill != null ==> (spill as object) != this
      modifies this, spill
      ensures Valid()
      ensures old(h in blocks) || (budget != 0 && block.bytes > budget) ==>
                lru == old(lru) && blocks == old(blocks) && (spill != null ==> spill.visible == old(spill.visible))
      ensures old(h !in blocks) && (budget == 0 || block.bytes <= budget) ==>
                && h in blocks && lru != [] && lru[0] == h
                && EvictedTo([h] + old(lru), old(blocks)[h := block], lru, blocks, budget)
                && (spill != null ==> SpilledEvicted(old(blocks)[h := block], blocks, old(spill.visible), spill.visible, spill.lossless))
    {
      if h in blocks {
        return;
      }
      if budget != 0 && block.bytes > budget {
        return;
      }
      ghost var lru0, blocks0 := lru, blocks;
      lru := [h] + lru;
      bytes := bytes + block.bytes;
      blocks := blocks[h := block];
      TotalSame(lru0, blocks0, blocks);
      TotalSum([h], lru0, blocks);
      assert blocks.Keys == blocks0.Keys + {h};
      assert multiset(blocks.Keys) == multiset(blocks0.Keys) + multiset{h};
      AloneFits(h, lru0, blocks);
      EvictToBudget();
      assert h in lru;
    }
  }

  /** `lru` is the most recent part of `lru0`, cut no shorter than the budget demands. */
  ghost predicate EvictedTo(lru0: seq<Key>, blocks0: map<Key, KVBlock>, lru: seq<Key>, blocks: map<Key, KVBlock>, budget: nat) {
    && |lru| <= |lru0| && lru == lru0[..|lru|]
    && (forall k :: k in lru0 ==> k in blocks0)
    && (|lru| < |lru0| ==> 0 < budget < Total(lru0[..|lru| + 1], blocks0))
    && (forall k :: k in blocks ==> k in blocks0 && blocks[k] == blocks0[k])
  }

  lemma EvictedParts(lru0: seq<Key>, blocks0: map<Key, KVBlock>, lru: seq<Key>, blocks: map<Key, KVBlock>, budget: nat)
    requires EvictedTo(lru0, blocks0, lru, blocks, budget)
    ensures lru == lru0[..|lru|] && forall k :: k in blocks ==> k in blocks0 && blocks[k] == blocks0[k]
  {
  }

  lemma TotalNone(m: map<Key, KVBlock>)
    ensures Total([], m) == 0
  {
  }

  lemma NoneEvicted(lru: seq<Key>, blocks: map<Key, KVBlock>, budget: nat)
    requires forall k :: k in lru ==> k in blocks
    ensures EvictedTo(lru, blocks, lru, blocks, budget)
  {
    hide Total;
    assert lru == lru[..|lru|];
  }

  /** One more block off the end while the list is over budget. */
  lemma EvictedMore(lru0: seq<Key>, blocks0: map<Key, KVBlock>, order: seq<Key>, before: map<Key, KVBlock>,
                    lru: seq<Key>, blocks: map<Key, KVBlock>, budget: nat)
    requires order != [] && EvictedTo(lru0, blocks0, order, before, budget) && forall k :: k in order ==> k in before
    requires 0 < budget < Total(order, before)
    requires lru == order[..|order| - 1] && blocks == before - {order[|order| - 1]}
    ensures EvictedTo(lru0, blocks0, lru, blocks, budget)
    ensures forall k :: k in before ==> k in blocks0 && before[k] == blocks0[k]
  {
    hide Total;
    assert lru0[..|order|][..|order| - 1] == lru0[..|order| - 1];
    TotalSame(order, before, blocks0);
  }

  lemma {:induction false} TotalGrows(order: seq<Key>, n: nat, m: map<Key, KVBlock>)
    requires n <= |order| && forall k :: k in order ==> k in m
    ensures forall k :: k in order[..n] ==> k in m
    ensures Total(order[..n], m) <= Total(order, m)
    decreases |order|
  {
    if n < |order| {
      TotalGrows(order[..|order| - 1], n, m);
      assert order[..|order| - 1][..n] == order[..n];
    } else {
      assert order[..n] == order;
    }
  }

  /** Evicting, inserting `h` in front and evicting again cuts the whole list as one eviction would. */
  lemma EvictedAgain(h: Key, block: KVBlock, lru0: seq<Key>, blocks0: map<Key, KVBlock>, mid: seq<Key>, held: map<Key, KVBlock>,
                     lru: seq<Key>, blocks: map<Key, KVBlock>, budget: nat)
    requires EvictedTo(lru0, blocks0, mid, held, budget) && EvictedTo([h] + mid, held[h := block], lru, blocks, budget)
    requires h in blocks0 ==> blocks0[h] == block
    ensures EvictedTo([h] + lru0, blocks0[h := block], lru, blocks, budget)
  {
    hide Total;
    var whole, part, m := [h] + lru0, [h] + mid, blocks0[h := block];
    assert part == whole[..|part|];
    assert lru == part[..|lru|] == whole[..|lru|];
    if |lru| < |part| {
      assert part[..|lru| + 1] == whole[..|lru| + 1];
      assert forall k :: k in part[..|lru| + 1] ==> k in part;
      TotalSame(part[..|lru| + 1], held[h := block], m);
    } else if |lru| < |whole| {
      var front := lru0[..|mid| + 1];
      assert whole[..|lru| + 1] == [h] + front;
      assert forall k :: k in [h] + front ==> k in whole;
      TotalSum([h], front, m);
      TotalSame(front, blocks0, m);
    }
  }

  /** What an eviction may not do: drop what fits, the most recent block that fits alone, or anything out of turn. */
  lemma EvictedMeans(lru0: seq<Key>, blocks0: map<Key, KVBlock>, lru: seq<Key>, blocks: map<Key, KVBlock>, budget: nat)
    requires EvictedTo(lru0, blocks0, lru, blocks, budget)
    ensures budget == 0 || Total(lru0, blocks0) <= budget ==> lru == lru0
    ensures lru0 != [] && blocks0[lru0[0]].bytes <= budget ==> lru != [] && lru[0] == lru0[0]
  {
    if |lru| < |lru0| {
      TotalGrows(lru0, |lru| + 1, blocks0);
    } else {
      assert lru0[..|lru|] == lru0;
    }
    if lru == [] && lru0 != [] {
      assert lru0[..1] == [lru0[0]] && lru0[..1][..0] == [];
    }
  }

  /** The spill tier only gained blocks of `before`; a lossless one lost nothing and has every block that left. */
  ghost predicate SpilledEvicted(before: map<Key, KVBlock>, after: map<Key, KVBlock>, spill0: map<Key, KVBlock>, spill1: map<Key, KVBlock>, lossless: bool) {
    && (lossless ==> forall k :: k in before && k !in after ==> k in spill1)
    && (lossless ==> forall k :: k in spill0 ==> k in spill1)
    && (forall k :: k in spill1 ==> (k in spill0 && spill1[k] == spill0[k]) || (k in before && spill1[k] == before[k]))
  }

  lemma NoneSpilled(blocks: map<Key, KVBlock>, spill: map<Key, KVBlock>, lossless: bool)
    ensures SpilledEvicted(blocks, blocks, spill, spill, lossless)
  {
  }

  lemma SpilledMore(first: map<Key, KVBlock>, before: map<Key, KVBlock>, after: map<Key, KVBlock>,
                    spill0: map<Key, KVBlock>, spill1: map<Key, KVBlock>, spill2: map<Key, KVBlock>, lossless: bool)
    requires SpilledEvicted(first, before, spill0, spill1, lossless) && SpilledEvicted(before, after, spill1, spill2, lossless)
    requires forall k :: k in before ==> k in first && before[k] == first[k]
    ensures SpilledEvicted(first, after, spill0, spill2, lossless)
  {
  }
}
