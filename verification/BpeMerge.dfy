/** The BPE merge loop (src/tokenizer/bpe.cpp, bpe_piece; src/tokenizer/spm.cpp, encode_plain): merging
    every occurrence of the best pair per pass, against merging one pair at a time. */
module BpeMerge {
  import opened AddedTokens

  type Pair = (Sym, Sym)
  /** Merge rules by rank; no two rules share one. */
  type Ranks = map<Pair, nat>

  ghost predicate Ranked(ranks: Ranks) {
    forall p, q :: p in ranks && q in ranks && ranks[p] == ranks[q] ==> p == q
  }

  /** A rule that uses a merge's product ranks after that merge. */
  ghost predicate Ordered(ranks: Ranks) {
    forall p, q :: p in ranks && q in ranks && (q.0 == p.0 + p.1 || q.1 == p.0 + p.1) ==> ranks[p] < ranks[q]
  }

  ghost predicate NonEmpty(syms: seq<Sym>) {
    forall i :: 0 <= i < |syms| ==> syms[i] != []
  }

  function PairAt(syms: seq<Sym>, i: nat): Pair
    requires i + 1 < |syms|
  {
    (syms[i], syms[i + 1])
  }

  function Concat(syms: seq<Sym>): Sym {
    if syms == [] then [] else syms[0] + Concat(syms[1..])
  }

  datatype Best = NoRule | Rule(at: nat, rank: nat)

  /** The leftmost adjacent pair of lowest rank among the first `n` pairs. */
  function BestIn(ranks: Ranks, syms: seq<Sym>, n: nat): (b: Best)
    requires n == 0 || n < |syms|
    ensures b.Rule? ==>
              && b.at < n && PairAt(syms, b.at) in ranks && ranks[PairAt(syms, b.at)] == b.rank
              && (forall i :: 0 <= i < n && PairAt(syms, i) in ranks ==> b.rank <= ranks[PairAt(syms, i)])
              && (forall i :: 0 <= i < b.at && PairAt(syms, i) in ranks ==> b.rank < ranks[PairAt(syms, i)])
    ensures b.NoRule? ==> forall i :: 0 <= i < n ==> PairAt(syms, i) !in ranks
  {
    if n == 0 then NoRule
    else
      var b := BestIn(ranks, syms, n - 1);
      var p := PairAt(syms, n - 1);
      if p in ranks && (b.NoRule? || ranks[p] < b.rank) then Rule(n - 1, ranks[p]) else b
  }

  function BestRule(ranks: Ranks, syms: seq<Sym>): Best {
    if |syms| < 2 then NoRule else BestIn(ranks, syms, |syms| - 1)
  }

  /** Replace every non-overlapping occurrence of (a, b), left to right. */
  function MergeAll(syms: seq<Sym>, a: Sym, b: Sym): (r: seq<Sym>)
    ensures |r| <= |syms|
  {
    if |syms| < 2 then syms
    else if syms[0] == a && syms[1] == b then [a + b] + MergeAll(syms[2..], a, b)
    else [syms[0]] + MergeAll(syms[1..], a, b)
  }

  lemma {:induction false} MergeShrinks(syms: seq<Sym>, a: Sym, b: Sym, i: nat)
    requires i + 1 < |syms| && PairAt(syms, i) == (a, b)
    ensures |MergeAll(syms, a, b)| < |syms|
    decreases |syms|
  {
    if !(syms[0] == a && syms[1] == b) {
      MergeShrinks(syms[1..], a, b, i - 1);
    }
  }

  /** Pass by pass: every occurrence of the best pair at once. */
  function Passes(ranks: Ranks, syms: seq<Sym>): seq<Sym>
    decreases |syms|
  {
    var b := BestRule(ranks, syms);
    if b.NoRule? then syms
    else
      MergeShrinks(syms, syms[b.at], syms[b.at + 1], b.at);
      Passes(ranks, MergeAll(syms, syms[b.at], syms[b.at + 1]))
  }

  function MergeOne(syms: seq<Sym>, i: nat): seq<Sym>
    requires i + 1 < |syms|
  {
    syms[..i] + [syms[i] + syms[i + 1]] + syms[i + 2..]
  }

  /** One at a time: always the leftmost pair of lowest rank. */
  function OneByOne(ranks: Ranks, syms: seq<Sym>): seq<Sym>
    decreases |syms|
  {
    var b := BestRule(ranks, syms);
    if b.NoRule? then syms else OneByOne(ranks, MergeOne(syms, b.at))
  }

  // ---------------------------------------------------------------- nothing is lost

  lemma {:induction false} ConcatSplit(x: seq<Sym>, y: seq<Sym>)
    ensures Concat(x + y) == Concat(x) + Concat(y)
    decreases |x|
  {
    if x == [] {
      assert x + y == y;
    } else {
      assert (x + y)[1..] == x[1..] + y;
      ConcatSplit(x[1..], y);
    }
  }

  lemma {:induction false} MergeAllConcat(syms: seq<Sym>, a: Sym, b: Sym)
    ensures Concat(MergeAll(syms, a, b)) == Concat(syms)
    ensures NonEmpty(syms) ==> NonEmpty(MergeAll(syms, a, b))
    decreases |syms|
  {
    if |syms| >= 2 {
      if syms[0] == a && syms[1] == b {
        MergeAllConcat(syms[2..], a, b);
        assert syms == [a] + ([b] + syms[2..]);
        assert MergeAll(syms, a, b)[1..] == MergeAll(syms[2..], a, b);
        assert Concat(syms) == a + (b + Concat(syms[2..])) by {
          assert syms[1..][1..] == syms[2..];
        }
      } else {
        MergeAllConcat(syms[1..], a, b);
        assert MergeAll(syms, a, b)[1..] == MergeAll(syms[1..], a, b);
      }
    }
  }

  lemma {:induction false} PassesConcat(ranks: Ranks, syms: seq<Sym>)
    ensures Concat(Passes(ranks, syms)) == Concat(syms)
    ensures BestRule(ranks, Passes(ranks, syms)).NoRule?
    decreases |syms|
  {
    var b := BestRule(ranks, syms);
    if b.Rule? {
      MergeShrinks(syms, syms[b.at], syms[b.at + 1], b.at);
      MergeAllConcat(syms, syms[b.at], syms[b.at + 1]);
      PassesConcat(ranks, MergeAll(syms, syms[b.at], syms[b.at + 1]));
    }
  }

  // ---------------------------------------------------------------- a pass is that many single merges

  /** No applicable pair ranks below `k`. */
  ghost predicate AtLeast(ranks: Ranks, syms: seq<Sym>, k: nat) {
    forall i: nat :: i + 1 < |syms| && PairAt(syms, i) in ranks ==> k <= ranks[PairAt(syms, i)]
  }

  /** In the middle of a pass over the pair of rank `k`: `pre` is done. */
  ghost predicate MidPass(ranks: Ranks, pre: seq<Sym>, rest: seq<Sym>, p: Pair, k: nat) {
    && p in ranks && ranks[p] == k && AtLeast(ranks, pre + rest, k) && NonEmpty(pre + rest)
    && forall i: nat :: i + 1 < |pre + rest| && i < |pre| ==> PairAt(pre + rest, i) != p
  }

  lemma Leftmost(ranks: Ranks, pre: seq<Sym>, rest: seq<Sym>, p: Pair, k: nat)
    requires Ranked(ranks) && MidPass(ranks, pre, rest, p, k) && 2 <= |rest| && (rest[0], rest[1]) == p
    ensures BestRule(ranks, pre + rest) == Rule(|pre|, k)
  {
    var all := pre + rest;
    assert PairAt(all, |pre|) == p;
    var b := BestRule(ranks, all);
    assert b.Rule? && b.rank <= k;
    assert PairAt(all, b.at) in ranks && k <= ranks[PairAt(all, b.at)];
    assert PairAt(all, b.at) == p;
  }

  lemma MergedMidPass(ranks: Ranks, pre: seq<Sym>, rest: seq<Sym>, p: Pair, k: nat)
    requires Ordered(ranks) && MidPass(ranks, pre, rest, p, k) && 2 <= |rest| && (rest[0], rest[1]) == p
    ensures MidPass(ranks, pre + [p.0 + p.1], rest[2..], p, k)
    ensures MergeOne(pre + rest, |pre|) == (pre + [p.0 + p.1]) + rest[2..]
  {
    var all, now := pre + rest, (pre + [p.0 + p.1]) + rest[2..];
    assert now == MergeOne(all, |pre|);
    assert all[|pre|] == p.0 && all[|pre| + 1] == p.1;
    forall i: nat | i + 1 < |now|
      ensures PairAt(now, i) in ranks ==> k <= ranks[PairAt(now, i)]
      ensures i < |pre| + 1 ==> PairAt(now, i) != p
    {
      if i + 1 < |pre| {
        assert PairAt(now, i) == PairAt(all, i);
      } else if i > |pre| {
        assert PairAt(now, i) == PairAt(all, i + 1);
      }
    }
  }

  lemma SkippedMidPass(ranks: Ranks, pre: seq<Sym>, rest: seq<Sym>, p: Pair, k: nat)
    requires MidPass(ranks, pre, rest, p, k) && rest != [] && (2 <= |rest| ==> (rest[0], rest[1]) != p)
    ensures MidPass(ranks, pre + [rest[0]], rest[1..], p, k)
    ensures (pre + [rest[0]]) + rest[1..] == pre + rest
  {
    assert (pre + [rest[0]]) + rest[1..] == pre + rest;
  }

  lemma {:induction false} PassIsSteps(ranks: Ranks, pre: seq<Sym>, rest: seq<Sym>, p: Pair, k: nat)
    requires Ranked(ranks) && Ordered(ranks) && MidPass(ranks, pre, rest, p, k)
    ensures OneByOne(ranks, pre + rest) == OneByOne(ranks, pre + MergeAll(rest, p.0, p.1))
    decreases |rest|
  {
    PassText(pre, rest, p);
    hide *;
    if |rest| >= 2 {
      if (rest[0], rest[1]) == p {
        Leftmost(ranks, pre, rest, p, k);
        MergedMidPass(ranks, pre, rest, p, k);
        Step(ranks, pre + rest, Rule(|pre|, k));
        PassIsSteps(ranks, pre + [p.0 + p.1], rest[2..], p, k);
      } else {
        SkippedMidPass(ranks, pre, rest, p, k);
        PassIsSteps(ranks, pre + [rest[0]], rest[1..], p, k);
      }
    }
  }

  lemma Step(ranks: Ranks, syms: seq<Sym>, b: Best)
    requires BestRule(ranks, syms) == b && b.Rule?
    ensures b.at + 1 < |syms| && OneByOne(ranks, syms) == OneByOne(ranks, MergeOne(syms, b.at))
  {
  }

  lemma PassText(pre: seq<Sym>, rest: seq<Sym>, p: Pair)
    ensures pre + MergeAll(rest, p.0, p.1) ==
              if |rest| < 2 then pre + rest
              else if (rest[0], rest[1]) == p then (pre + [p.0 + p.1]) + MergeAll(rest[2..], p.0, p.1)
              else (pre + [rest[0]]) + MergeAll(rest[1..], p.0, p.1)
  {
    hide *;
    MergeHead(rest, p.0, p.1);
    if |rest| >= 2 {
      if (rest[0], rest[1]) == p {
        Associate(pre, [p.0 + p.1], MergeAll(rest[2..], p.0, p.1));
      } else {
        Associate(pre, [rest[0]], MergeAll(rest[1..], p.0, p.1));
      }
    }
  }

  lemma MergeHead(rest: seq<Sym>, a: Sym, b: Sym)
    ensures MergeAll(rest, a, b) ==
              if |rest| < 2 then rest
              else if rest[0] == a && rest[1] == b then [a + b] + MergeAll(rest[2..], a, b)
              else [rest[0]] + MergeAll(rest[1..], a, b)
  {
  }

  lemma Associate<T>(a: seq<T>, b: seq<T>, c: seq<T>)
    ensures a + (b + c) == (a + b) + c
  {
  }

  /** For a table whose rules come after the merges they use, merging pass by pass gives the symbols
      that merging one leftmost pair at a time gives. */
  lemma {:induction false} PassesAreSteps(ranks: Ranks, syms: seq<Sym>)
    requires Ranked(ranks) && Ordered(ranks) && NonEmpty(syms)
    ensures Passes(ranks, syms) == OneByOne(ranks, syms)
    decreases |syms|
  {
    var b := BestRule(ranks, syms);
    if b.Rule? {
      var p := PairAt(syms, b.at);
      assert [] + syms == syms;
      assert [] + MergeAll(syms, p.0, p.1) == MergeAll(syms, p.0, p.1);
      PassIsSteps(ranks, [], syms, p, b.rank);
      MergeShrinks(syms, p.0, p.1, b.at);
      MergeAllConcat(syms, p.0, p.1);
      PassesAreSteps(ranks, MergeAll(syms, p.0, p.1));
    }
  }

  /** Such a table is enough, though not every other table differs; without any order the two can differ: with (ab, a) before (a, b), on a b a b. */
  lemma UnorderedDiffers() returns (ranks: Ranks, syms: seq<Sym>)
    ensures Ranked(ranks) && NonEmpty(syms) && Passes(ranks, syms) != OneByOne(ranks, syms)
  {
    var a, b := [0], [1];
    var ab := a + b;
    ranks := map[(ab, a) := 0, (a, b) := 1];
    syms := [a, b, a, b];
    FirstBest(ranks, a, b);
    PassOnce(ranks, a, b);
    StepTwice(ranks, a, b);
    assert |ab| == 2 && |ab + a| == 3 && Passes(ranks, syms)[0] != OneByOne(ranks, syms)[0];
  }

  lemma FirstBest(ranks: Ranks, a: Sym, b: Sym)
    requires a == [0] && b == [1] && ranks == map[(a + b, a) := 0, (a, b) := 1]
    ensures BestRule(ranks, [a, b, a, b]) == Rule(0, 1)
  {
    assert BestIn(ranks, [a, b, a, b], 1) == Rule(0, 1) && BestIn(ranks, [a, b, a, b], 2) == Rule(0, 1);
  }

  lemma PassOnce(ranks: Ranks, a: Sym, b: Sym)
    requires a == [0] && b == [1] && ranks == map[(a + b, a) := 0, (a, b) := 1]
    requires BestRule(ranks, [a, b, a, b]) == Rule(0, 1)
    ensures Passes(ranks, [a, b, a, b]) == [a + b, a + b]
  {
    var ab, syms := a + b, [a, b, a, b];
    assert syms[2..] == [a, b] && MergeAll([a, b], a, b) == [ab] + MergeAll([a, b][2..], a, b) == [ab];
    assert MergeAll(syms, a, b) == [ab, ab];
    assert BestIn(ranks, [ab, ab], 0) == NoRule && BestRule(ranks, [ab, ab]) == NoRule;
  }

  lemma StepTwice(ranks: Ranks, a: Sym, b: Sym)
    requires a == [0] && b == [1] && ranks == map[(a + b, a) := 0, (a, b) := 1]
    requires BestRule(ranks, [a, b, a, b]) == Rule(0, 1)
    ensures OneByOne(ranks, [a, b, a, b]) == [a + b + a, b]
  {
    var ab := a + b;
    assert MergeOne([a, b, a, b], 0) == [ab, a, b];
    assert BestIn(ranks, [ab, a, b], 1) == Rule(0, 0) && BestRule(ranks, [ab, a, b]) == Rule(0, 0);
    assert MergeOne([ab, a, b], 0) == [ab + a, b];
    assert BestIn(ranks, [ab + a, b], 0) == NoRule && BestRule(ranks, [ab + a, b]) == NoRule;
    Step(ranks, [a, b, a, b], Rule(0, 1));
    Step(ranks, [ab, a, b], Rule(0, 0));
  }
}
