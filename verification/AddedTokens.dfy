/** Added tokens, cut out of the text before it is tokenized (src/tokenizer/bpe.cpp and
    src/tokenizer/spm.cpp, encode). */
module AddedTokens {
  type Sym = seq<int>
  /** Literals with their ids, in the order they are tried. */
  type Literals = seq<(Sym, int)>

  predicate IsBytes(s: Sym) {
    forall i :: 0 <= i < |s| ==> 0 <= s[i] < 256
  }

  predicate LiteralAt(text: Sym, i: nat, lit: Sym) {
    i + |lit| <= |text| && text[i..i + |lit|] == lit
  }

  /** What encoding assumes of a loaded tokenizer: no added token is empty, and the first-byte filter
      knows them all. With an empty one, at a byte some other added token begins with, encode would
      match it again and again without moving. */
  ghost predicate LiteralsOk(specials: Literals, firstBytes: set<int>) {
    forall i :: 0 <= i < |specials| ==> specials[i].0 != [] && specials[i].0[0] in firstBytes
  }

  predicate NoLiteral(specials: Literals, text: Sym) {
    forall i: nat, k: nat :: i < |text| && k < |specials| ==> !LiteralAt(text, i, specials[k].0)
  }

  /** An added token's text. */
  predicate IsLiteral(specials: Literals, bs: Sym) {
    exists k: nat :: k < |specials| && specials[k].0 == bs
  }

  /** No part of `bs` is an added token's text. */
  ghost predicate Clean(specials: Literals, bs: Sym) {
    forall i: nat, j: nat :: i < j <= |bs| ==> !IsLiteral(specials, bs[i..j])
  }

  lemma CleanPart(specials: Literals, bs: Sym, i: nat, j: nat)
    requires Clean(specials, bs) && i <= j <= |bs|
    ensures Clean(specials, bs[i..j]) && (i < j ==> !IsLiteral(specials, bs[i..j]))
  {
    forall a: nat, b: nat | a < b <= j - i
      ensures !IsLiteral(specials, bs[i..j][a..b])
    {
      SliceOfSlice(bs, i, j, a, b);
    }
  }

  lemma SliceOfSlice<T>(s: seq<T>, i: nat, j: nat, a: nat, b: nat)
    requires i <= j <= |s| && a <= b <= j - i
    ensures s[i..j][a..b] == s[i + a..i + b]
  {
    var x, y := s[i..j][a..b], s[i + a..i + b];
    forall k | 0 <= k < |x|
      ensures x[k] == y[k]
    {
    }
  }

  lemma CleanSplit(specials: Literals, bs: Sym, first: Sym, tail: Sym)
    requires Clean(specials, bs) && bs == first + tail && first != []
    ensures Clean(specials, tail) && !IsLiteral(specials, first)
  {
    CleanPart(specials, bs, 0, |first|);
    CleanPart(specials, bs, |first|, |bs|);
    assert bs[0..|first|] == first && bs[|first|..|bs|] == tail;
  }

  lemma NoLiteralClean(specials: Literals, text: Sym)
    requires NoLiteral(specials, text)
    ensures Clean(specials, text)
  {
    forall i: nat, j: nat | i < j <= |text|
      ensures !IsLiteral(specials, text[i..j])
    {
      forall k: nat | k < |specials|
        ensures specials[k].0 != text[i..j]
      {
        assert !LiteralAt(text, i, specials[k].0);
      }
    }
  }

  /** The first added token, in list order, that stands at `i`; |specials| when there is none. */
  function FirstLiteral(specials: Literals, text: Sym, i: nat, k: nat): (r: nat)
    requires k <= |specials|
    ensures k <= r <= |specials| && (r < |specials| ==> LiteralAt(text, i, specials[r].0))
    ensures forall j :: k <= j < r ==> !LiteralAt(text, i, specials[j].0)
    decreases |specials| - k
  {
    if k == |specials| || LiteralAt(text, i, specials[k].0) then k else FirstLiteral(specials, text, i, k + 1)
  }

  method FindLiteral(specials: Literals, text: Sym, i: nat) returns (k: nat)
    ensures k == FirstLiteral(specials, text, i, 0)
  {
    k := 0;
    while k < |specials| && !LiteralAt(text, i, specials[k].0)
      invariant k <= |specials| && FirstLiteral(specials, text, i, k) == FirstLiteral(specials, text, i, 0)
    {
      k := k + 1;
    }
  }

  lemma LiteralFits(specials: Literals, firstBytes: set<int>, text: Sym, i: nat, k: nat)
    requires LiteralsOk(specials, firstBytes) && i <= |text| && k < |specials| && LiteralAt(text, i, specials[k].0)
    ensures i < i + |specials[k].0| <= |text|
  {
  }

  /** The first-byte filter only skips places where no added token stands. */
  lemma Prefilter(specials: Literals, firstBytes: set<int>, text: Sym, i: nat)
    requires LiteralsOk(specials, firstBytes) && i < |text| && text[i] !in firstBytes
    ensures FirstLiteral(specials, text, i, 0) == |specials|
  {
    forall lit: Sym | lit != [] && LiteralAt(text, i, lit)
      ensures text[i] == lit[0]
    {
      assert text[i..i + |lit|][0] == text[i];
    }
  }

  lemma NoneHere(specials: Literals, text: Sym, i: nat)
    requires NoLiteral(specials, text) && i < |text|
    ensures FirstLiteral(specials, text, i, 0) == |specials|
  {
    hide LiteralAt;
  }

  lemma SliceBytes(s: Sym, i: nat, j: nat)
    requires IsBytes(s) && i <= j <= |s|
    ensures IsBytes(s[i..j])
  {
  }
}
