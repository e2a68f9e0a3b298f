/** The SentencePiece-style BPE tokenizer (src/tokenizer/spm.cpp): spaces as markers, merging over the
    whole segment, byte fallback. */
module SpmTokenizer {
  import opened AddedTokens
  import opened BpeMerge

  const SPACE: int := 0x20
  /** U+2581, which stands in for a space. */
  const MARKER: Sym := [0xE2, 0x96, 0x81]

  // ---------------------------------------------------------------- characters

  /** Length of the character `s` begins with, by its first byte; a truncated one is taken shorter. */
  function CharLen(s: Sym): (n: nat)
    requires s != []
    ensures 1 <= n <= |s| && n <= 4
  {
    if s[0] >= 0xF0 && 3 < |s| then 4
    else if s[0] >= 0xE0 && 2 < |s| then 3
    else if s[0] >= 0xC0 && 1 < |s| then 2
    else 1
  }

  /** utf8_chars */
  function Chars(s: Sym): (r: seq<Sym>)
    ensures NonEmpty(r) && Concat(r) == s
    decreases |s|
  {
    if s == [] then []
    else
      var r := [s[..CharLen(s)]] + Chars(s[CharLen(s)..]);
      assert r[1..] == Chars(s[CharLen(s)..]);
      r
  }

  method SplitChars(s: Sym) returns (out: seq<Sym>)
    ensures out == Chars(s)
  {
    hide *;
    out := [];
    var i := 0;
    CharsWhole(s);
    while i < |s|
      invariant i <= |s| && out + Chars(s[i..]) == Chars(s)
    {
      var rest := s[i..];
      var len := if rest[0] >= 0xF0 && i + 3 < |s| then 4
                 else if rest[0] >= 0xE0 && i + 2 < |s| then 3
                 else if rest[0] >= 0xC0 && i + 1 < |s| then 2 else 1;
      CharsHead(rest, out);
      assert rest[len..] == s[i + len..];
      out := out + [rest[..len]];
      i := i + len;
    }
    CharsDone(s, out);
  }

  lemma CharsWhole(s: Sym)
    ensures s[0..] == s && [] + Chars(s) == Chars(s)
  {
    hide Chars;
  }

  lemma CharsHead(s: Sym, before: seq<Sym>)
    requires s != []
    ensures
      var n := CharLen(s);
      n == (if s[0] >= 0xF0 && 3 < |s| then 4 else if s[0] >= 0xE0 && 2 < |s| then 3 else if s[0] >= 0xC0 && 1 < |s| then 2 else 1)
      && before + Chars(s) == (before + [s[..n]]) + Chars(s[n..])
  {
    var n := CharLen(s);
    assert Chars(s) == [s[..n]] + Chars(s[n..]);
    hide Chars;
    Associate(before, [s[..n]], Chars(s[n..]));
  }

  lemma CharsDone(s: Sym, out: seq<Sym>)
    ensures out + Chars(s[|s|..]) == out
  {
  }

  predicate Continues(b: int) { 0x80 <= b < 0xC0 }

  /** A whole UTF-8 character: its first byte gives its length, the others continue it. */
  predicate IsChar(c: Sym) {
    && c != [] && |c| == (if c[0] >= 0xF0 then 4 else if c[0] >= 0xE0 then 3 else if c[0] >= 0xC0 then 2 else 1)
    && !Continues(c[0]) && 0 <= c[0] < 256 && forall i :: 1 <= i < |c| ==> Continues(c[i])
  }

  function LeadLen(b: int): nat { if b >= 0xF0 then 4 else if b >= 0xE0 then 3 else if b >= 0xC0 then 2 else 1 }

  /** Whole UTF-8 characters, none of them the marker. */
  predicate Plain(s: Sym)
    decreases |s|
  {
    s == [] || (LeadLen(s[0]) <= |s| && IsChar(s[..LeadLen(s[0])]) && s[..LeadLen(s[0])] != MARKER && Plain(s[LeadLen(s[0])..]))
  }

  /** Every space becomes the marker. */
  function Normalize(s: Sym): Sym {
    if s == [] then [] else (if s[0] == SPACE then MARKER else [s[0]]) + Normalize(s[1..])
  }

  /** A space becomes U+2581, in UTF-8; nothing else changes. */
  lemma NormalizeText(a: Sym, c: int, b: Sym)
    ensures Normalize(a + [c] + b) == Normalize(a) + (if c == 0x20 then [0xE2, 0x96, 0x81] else [c]) + Normalize(b)
  {
    assert a + [c] + b == a + ([c] + b);
    NormalizeSplit(a, [c] + b);
    NormalizeSplit([c], b);
    assert [c][1..] == [];
    assert Normalize([c]) == if c == 0x20 then [0xE2, 0x96, 0x81] else [c];
    hide Normalize;
    Joined3(Normalize(a), Normalize([c]), Normalize(b));
  }

  lemma Joined3(a: Sym, b: Sym, c: Sym)
    ensures a + (b + c) == a + b + c
  {
  }

  /** Every marker becomes a space. */
  function Unmark(s: Sym): Sym
    decreases |s|
  {
    if s == [] then []
    else if 3 <= |s| && s[..3] == MARKER then [SPACE] + Unmark(s[3..])
    else [s[0]] + Unmark(s[1..])
  }

  lemma {:induction false} NormalizeSplit(a: Sym, b: Sym)
    ensures Normalize(a + b) == Normalize(a) + Normalize(b)
    decreases |a|
  {
    if a == [] {
      assert a + b == b;
    } else {
      assert (a + b)[1..] == a[1..] + b;
      NormalizeSplit(a[1..], b);
    }
  }

  lemma {:induction false} PlainSplit(a: Sym, b: Sym)
    requires Plain(a) && Plain(b)
    ensures Plain(a + b)
    decreases |a|
  {
    if a == [] {
      assert a + b == b;
    } else {
      var n := LeadLen(a[0]);
      assert (a + b)[..n] == a[..n] && (a + b)[n..] == a[n..] + b;
      PlainSplit(a[n..], b);
    }
  }

  /** Bytes other than a marker's first are passed through. */
  lemma {:induction false} UnmarkBytes(a: Sym, b: Sym)
    requires forall i :: 0 <= i < |a| ==> a[i] != MARKER[0]
    ensures Unmark(a + b) == a + Unmark(b)
    decreases |a|
  {
    if a == [] {
      assert a + b == b;
    } else {
      assert (a + b)[1..] == a[1..] + b;
      UnmarkBytes(a[1..], b);
      if 3 <= |a + b| {
        assert (a + b)[..3][0] == a[0];
      }
    }
  }

  /** A character that is neither a space nor the marker is unchanged both ways. */
  lemma UnmarkChar(c: Sym, rest: Sym)
    requires IsChar(c) && c != MARKER
    ensures Unmark(c + rest) == c + Unmark(rest)
  {
    if c[0] != MARKER[0] {
      UnmarkBytes(c, rest);
    } else {
      assert (c + rest)[..3] == c && (c + rest)[1..] == c[1..] + rest;
      UnmarkBytes(c[1..], rest);
      assert [c[0]] + (c[1..] + Unmark(rest)) == c + Unmark(rest);
    }
  }

  lemma {:induction false} NormalizeSame(c: Sym)
    requires forall i :: 0 <= i < |c| ==> c[i] != SPACE
    ensures Normalize(c) == c
    decreases |c|
  {
    if c != [] {
      NormalizeSame(c[1..]);
    }
  }

  /** Marking spaces and unmarking gives text without markers back. */
  lemma {:induction false} UnmarkNormalize(s: Sym)
    requires Plain(s)
    ensures Unmark(Normalize(s)) == s
    decreases |s|
  {
    if s != [] {
      var n := LeadLen(s[0]);
      var c, rest := s[..n], s[n..];
      assert s == c + rest;
      NormalizeSplit(c, rest);
      UnmarkNormalize(rest);
      if s[0] == SPACE {
        assert c == [SPACE] && Normalize(c) == MARKER + Normalize(c[1..]) == MARKER;
        var m := MARKER + Normalize(rest);
        assert m[..3] == MARKER && m[3..] == Normalize(rest);
      } else {
        NormalizeSame(c);
        UnmarkChar(c, Normalize(rest));
      }
    }
  }

  /** Text without markers is determined by its normal form. */
  lemma Normalized(a: Sym, b: Sym)
    requires Plain(a) && Plain(b) && Normalize(a) == Normalize(b)
    ensures a == b
  {
    UnmarkNormalize(a);
    UnmarkNormalize(b);
  }

  // ---------------------------------------------------------------- merging by rank

  /** A pass that merges every adjacent pair whose rank is the best one. */
  function RankMerge(ranks: Ranks, syms: seq<Sym>, best: nat): (r: seq<Sym>)
  {
    if |syms| < 2 then syms
    else if (syms[0], syms[1]) in ranks && ranks[(syms[0], syms[1])] == best then [syms[0] + syms[1]] + RankMerge(ranks, syms[2..], best)
    else [syms[0]] + RankMerge(ranks, syms[1..], best)
  }

  /** Ranks being distinct, that is every occurrence of one pair. */
  lemma {:induction false} RankMergeIsMergeAll(ranks: Ranks, syms: seq<Sym>, p: Pair)
    requires Ranked(ranks) && p in ranks
    ensures RankMerge(ranks, syms, ranks[p]) == MergeAll(syms, p.0, p.1)
    decreases |syms|
  {
    if |syms| >= 2 {
      var q := (syms[0], syms[1]);
      assert q in ranks && ranks[q] == ranks[p] ==> q == p;
      hide Ranked;
      if q == p {
        RankMergeIsMergeAll(ranks, syms[2..], p);
      } else {
        RankMergeIsMergeAll(ranks, syms[1..], p);
      }
    }
  }

  method MergeByRank(ranks: Ranks, symbols: seq<Sym>, best: nat) returns (merged: seq<Sym>)
    ensures merged == RankMerge(ranks, symbols, best)
  {
    hide *;
    merged := [];
    var i := 0;
    RankMergeWhole(ranks, symbols, best);
    while i < |symbols|
      invariant i <= |symbols| && merged + RankMerge(ranks, symbols[i..], best) == RankMerge(ranks, symbols, best)
    {
      var rest := symbols[i..];
      RankMergeHead(ranks, rest, best, merged);
      if i + 1 < |symbols| && (symbols[i], symbols[i + 1]) in ranks && ranks[(symbols[i], symbols[i + 1])] == best {
        assert rest[2..] == symbols[i + 2..];
        merged := merged + [symbols[i] + symbols[i + 1]];
        i := i + 2;
      } else {
        assert rest[1..] == symbols[i + 1..];
        merged := merged + [symbols[i]];
        i := i + 1;
      }
    }
    RankMergeDone(ranks, symbols, best, merged);
  }

  lemma RankMergeWhole(ranks: Ranks, syms: seq<Sym>, best: nat)
    ensures syms[0..] == syms && [] + RankMerge(ranks, syms, best) == RankMerge(ranks, syms, best)
  {
    hide RankMerge;
  }

  lemma RankMergeDone(ranks: Ranks, syms: seq<Sym>, best: nat, done: seq<Sym>)
    ensures done + RankMerge(ranks, syms[|syms|..], best) == done
  {
  }

  lemma RankMergeHead(ranks: Ranks, syms: seq<Sym>, best: nat, done: seq<Sym>)
    requires syms != []
    ensures
      if 2 <= |syms| && (syms[0], syms[1]) in ranks && ranks[(syms[0], syms[1])] == best then
        done + RankMerge(ranks, syms, best) == (done + [syms[0] + syms[1]]) + RankMerge(ranks, syms[2..], best)
      else done + RankMerge(ranks, syms, best) == (done + [syms[0]]) + RankMerge(ranks, syms[1..], best)
  {
    RankMergeIs(ranks, syms, best);
    hide *;
    if 2 <= |syms| && (syms[0], syms[1]) in ranks && ranks[(syms[0], syms[1])] == best {
      Associate(done, [syms[0] + syms[1]], RankMerge(ranks, syms[2..], best));
    } else {
      Associate(done, [syms[0]], RankMerge(ranks, syms[1..], best));
    }
  }

  lemma RankMergeIs(ranks: Ranks, syms: seq<Sym>, best: nat)
    requires syms != []
    ensures RankMerge(ranks, syms, best) ==
              if 2 <= |syms| && (syms[0], syms[1]) in ranks && ranks[(syms[0], syms[1])] == best
              then [syms[0] + syms[1]] + RankMerge(ranks, syms[2..], best)
              else [syms[0]] + RankMerge(ranks, syms[1..], best)
  {
  }

  /** The merge loop gives what merging pass by pass gives. */
  method MergeLoop(ranks: Ranks, start: seq<Sym>) returns (symbols: seq<Sym>)
    requires Ranked(ranks)
    ensures symbols == Passes(ranks, start)
  {
    hide *;
    symbols := start;
    while |symbols| > 1
      invariant Passes(ranks, symbols) == Passes(ranks, start)
      decreases |symbols|
    {
      var best := NoRule;
      BestNone(ranks, symbols);
      for i := 0 to |symbols| - 1
        invariant best == BestIn(ranks, symbols, i)
      {
        BestNext(ranks, symbols, i);
        var p := (symbols[i], symbols[i + 1]);
        if p in ranks && (best.NoRule? || ranks[p] < best.rank) {
          best := Rule(i, ranks[p]);
        }
      }
      PassIs(ranks, symbols);
      if best.NoRule? {
        break;
      }
      symbols := MergeByRank(ranks, symbols, best.rank);
    }
    PassIs(ranks, symbols);
  }

  lemma BestNone(ranks: Ranks, syms: seq<Sym>)
    requires 2 <= |syms|
    ensures BestIn(ranks, syms, 0) == NoRule
  {
  }

  lemma BestNext(ranks: Ranks, syms: seq<Sym>, i: nat)
    requires i + 1 < |syms|
    ensures
      var b, p := BestIn(ranks, syms, i), (syms[i], syms[i + 1]);
      BestIn(ranks, syms, i + 1) == if p in ranks && (b.NoRule? || ranks[p] < b.rank) then Rule(i, ranks[p]) else b
  {
  }

  lemma PassIs(ranks: Ranks, syms: seq<Sym>)
    requires Ranked(ranks)
    ensures |syms| < 2 ==> Passes(ranks, syms) == syms
    ensures 2 <= |syms| ==>
              var b := BestIn(ranks, syms, |syms| - 1);
              if b.NoRule? then Passes(ranks, syms) == syms
              else
                && |RankMerge(ranks, syms, b.rank)| < |syms|
                && Passes(ranks, RankMerge(ranks, syms, b.rank)) == Passes(ranks, syms)
  {
    if 2 <= |syms| {
      var b := BestIn(ranks, syms, |syms| - 1);
      if b.Rule? {
        var p := PairAt(syms, b.at);
        RankMergeIsMergeAll(ranks, syms, p);
        MergeShrinks(syms, p.0, p.1, b.at);
      }
      hide BestIn;
      hide RankMerge;
      hide MergeAll;
    }
  }

  // ---------------------------------------------------------------- vocabulary

  /** `byteFallback` gives each byte's token, -1 when it has none; `byteValue` leads back. */
  datatype Vocab = Vocab(
    tokenToId: map<Sym, int>, idToToken: seq<Sym>, ranks: Ranks, byteFallback: seq<int>, byteValue: map<int, int>, unkId: int,
    specialIds: set<int>, specials: Literals, firstBytes: set<int>)

  function Hex(d: int): int { if d < 10 then 0x30 + d else 0x37 + d }

  /** byte_token_name: <0xNN> */
  function ByteName(b: int): Sym { [0x3C, 0x30, 0x78, Hex(b / 16), Hex(b % 16), 0x3E] }

  /** The name is "<0x", the byte in two upper-case hexadecimal digits, and ">". */
  lemma ByteNameIs(b: int)
    requires 0 <= b < 256
    ensures
      var n := ByteName(b);
      && |n| == 6 && n[..3] == [0x3C, 0x30, 0x78] && n[5] == 0x3E
      && (0x30 <= n[3] <= 0x39 || 0x41 <= n[3] <= 0x46) && (0x30 <= n[4] <= 0x39 || 0x41 <= n[4] <= 0x46)
      && b == (if n[3] <= 0x39 then n[3] - 0x30 else n[3] - 0x41 + 10) * 16 + (if n[4] <= 0x39 then n[4] - 0x30 else n[4] - 0x41 + 10)
  {
  }

  predicate Sized(v: Vocab) { |v.byteFallback| == 256 }

  /** Ids of bytes that have no token of their own. */
  function FallbackIds(v: Vocab, sym: Sym): seq<int>
    requires Sized(v) && IsBytes(sym)
  {
    if sym == [] then []
    else
      var id := v.byteFallback[sym[0]];
      (if id >= 0 then [id] else if v.unkId >= 0 then [v.unkId] else []) + FallbackIds(v, sym[1..])
  }

  function EmitIds(v: Vocab, sym: Sym): seq<int>
    requires Sized(v) && IsBytes(sym)
  {
    if sym in v.tokenToId then [v.tokenToId[sym]] else FallbackIds(v, sym)
  }

  /** emit_symbol */
  method EmitSymbol(v: Vocab, sym: Sym) returns (ids: seq<int>)
    requires Sized(v) && IsBytes(sym)
    ensures ids == EmitIds(v, sym)
  {
    EmitIs(v, sym);
    hide *;
    if sym in v.tokenToId {
      return [v.tokenToId[sym]];
    }
    ids := [];
    for i := 0 to |sym|
      invariant IsBytes(sym[i..]) && ids + FallbackIds(v, sym[i..]) == FallbackIds(v, sym)
    {
      FallbackHead(v, sym, i, ids);
      var id := v.byteFallback[sym[i]];
      if id >= 0 {
        ids := ids + [id];
      } else if v.unkId >= 0 {
        ids := ids + [v.unkId];
      }
    }
    FallbackDone(v, sym, ids);
  }

  lemma EmitIs(v: Vocab, sym: Sym)
    requires Sized(v) && IsBytes(sym)
    ensures EmitIds(v, sym) == if sym in v.tokenToId then [v.tokenToId[sym]] else FallbackIds(v, sym)
    ensures IsBytes(sym[0..]) && [] + FallbackIds(v, sym[0..]) == FallbackIds(v, sym)
  {
    assert sym[0..] == sym;
    hide FallbackIds;
  }

  lemma FallbackHead(v: Vocab, sym: Sym, i: nat, ids: seq<int>)
    requires Sized(v) && IsBytes(sym) && i < |sym|
    ensures |v.byteFallback| == 256 && 0 <= sym[i] < 256 && IsBytes(sym[i..]) && IsBytes(sym[i + 1..])
    ensures
      var id := v.byteFallback[sym[i]];
      ids + FallbackIds(v, sym[i..]) ==
        (if id >= 0 then ids + [id] else if v.unkId >= 0 then ids + [v.unkId] else ids) + FallbackIds(v, sym[i + 1..])
  {
    assert sym[i..][1..] == sym[i + 1..];
    var id := v.byteFallback[sym[i]];
    var here := if id >= 0 then [id] else if v.unkId >= 0 then [v.unkId] else [];
    assert FallbackIds(v, sym[i..]) == here + FallbackIds(v, sym[i + 1..]);
    hide FallbackIds;
    Associate(ids, here, FallbackIds(v, sym[i + 1..]));
    assert ids + [] == ids;
  }

  lemma FallbackDone(v: Vocab, sym: Sym, ids: seq<int>)
    requires Sized(v) && IsBytes(sym)
    ensures IsBytes(sym[|sym|..]) && ids + FallbackIds(v, sym[|sym|..]) == ids
  {
  }

  predicate AllBytes(syms: seq<Sym>) { forall i :: 0 <= i < |syms| ==> IsBytes(syms[i]) }

  function EmitAll(v: Vocab, syms: seq<Sym>): seq<int>
    requires Sized(v) && AllBytes(syms)
  {
    if syms == [] then [] else EmitIds(v, syms[0]) + EmitAll(v, syms[1..])
  }

  // ---------------------------------------------------------------- decoding

  function IdText(v: Vocab, id: int): Sym {
    if id < 0 || id >= |v.idToToken| || id in v.specialIds then []
    else if id in v.byteValue then [v.byteValue[id]]
    else Unmark(v.idToToken[id])
  }

  function Text(v: Vocab, ids: seq<int>): Sym {
    if ids == [] then [] else IdText(v, ids[0]) + Text(v, ids[1..])
  }

  lemma {:induction false} TextSplit(v: Vocab, a: seq<int>, b: seq<int>)
    ensures Text(v, a + b) == Text(v, a) + Text(v, b)
    decreases |a|
  {
    hide IdText;
    if a == [] {
      assert a + b == b;
    } else {
      assert (a + b)[1..] == a[1..] + b;
      TextSplit(v, a[1..], b);
    }
  }

  /** decode: byte tokens are held back and flushed before the next text token. */
  method Decode(v: Vocab, ids: seq<int>) returns (out: Sym)
    ensures out == Text(v, ids)
  {
    hide *;
    out := [];
    var pending: Sym := [];
    TextWhole(v, ids);
    for i := 0 to |ids|
      invariant (out + pending) + Text(v, ids[i..]) == Text(v, ids)
    {
      var id := ids[i];
      TextHead(v, ids, i, out + pending);
      IdTextIs(v, id, out + pending);
      if id < 0 || id >= |v.idToToken| {
        continue;
      }
      if id in v.specialIds {
        continue;
      }
      if id in v.byteValue {
        Associate(out, pending, [v.byteValue[id]]);
        pending := pending + [v.byteValue[id]];
        continue;
      }
      out := out + pending;
      pending := [];
      var text := UnmarkToken(v.idToToken[id]);
      out := out + text;
      assert out + [] == out;
    }
    TextDone(v, ids, out + pending);
    out := out + pending;
  }

  lemma TextWhole(v: Vocab, ids: seq<int>)
    ensures ids[0..] == ids && ([] + []) + Text(v, ids) == Text(v, ids)
  {
    hide Text;
  }

  lemma TextHead(v: Vocab, ids: seq<int>, i: nat, out: Sym)
    requires i < |ids|
    ensures out + Text(v, ids[i..]) == (out + IdText(v, ids[i])) + Text(v, ids[i + 1..])
  {
    hide IdText;
    assert ids[i..][1..] == ids[i + 1..];
    Associate(out, IdText(v, ids[i]), Text(v, ids[i + 1..]));
  }

  lemma IdTextIs(v: Vocab, id: int, out: Sym)
    ensures out + IdText(v, id) ==
              if id < 0 || id >= |v.idToToken| || id in v.specialIds then out
              else if id in v.byteValue then out + [v.byteValue[id]] else out + Unmark(v.idToToken[id])
  {
    hide Unmark;
  }

  lemma TextDone(v: Vocab, ids: seq<int>, out: Sym)
    ensures out + Text(v, ids[|ids|..]) == out
  {
  }

  method UnmarkToken(tok: Sym) returns (out: Sym)
    ensures out == Unmark(tok)
  {
    hide *;
    out := [];
    var p := 0;
    UnmarkEnds(tok);
    while p < |tok|
      invariant p <= |tok| && out + Unmark(tok[p..]) == Unmark(tok)
    {
      UnmarkHead(tok, p, out);
      if p + 3 <= |tok| && tok[p..p + 3] == MARKER {
        out := out + [SPACE];
        p := p + 3;
      } else {
        out := out + [tok[p]];
        p := p + 1;
      }
    }
    assert out + [] == out;
  }

  lemma UnmarkEnds(tok: Sym)
    ensures [] + Unmark(tok[0..]) == Unmark(tok) && Unmark(tok[|tok|..]) == []
  {
    assert tok[0..] == tok && tok[|tok|..] == [];
    assert [] + Unmark(tok) == Unmark(tok);
  }

  lemma UnmarkHead(tok: Sym, p: nat, out: Sym)
    requires p < |tok|
    ensures out + Unmark(tok[p..]) ==
              if p + 3 <= |tok| && tok[p..p + 3] == MARKER then (out + [SPACE]) + Unmark(tok[p + 3..])
              else (out + [tok[p]]) + Unmark(tok[p + 1..])
  {
    var rest := tok[p..];
    if p + 3 <= |tok| && tok[p..p + 3] == MARKER {
      assert rest[..3] == tok[p..p + 3] && rest[3..] == tok[p + 3..];
      Associate(out, [SPACE], Unmark(tok[p + 3..]));
    } else {
      assert 3 <= |rest| ==> rest[..3] == tok[p..p + 3];
      assert rest[1..] == tok[p + 1..];
      Associate(out, [tok[p]], Unmark(tok[p + 1..]));
    }
  }

  // ---------------------------------------------------------------- encoding

  lemma {:induction false} NormalizeBytes(s: Sym)
    requires IsBytes(s)
    ensures IsBytes(Normalize(s))
    decreases |s|
  {
    if s != [] {
      NormalizeBytes(s[1..]);
    }
  }

  lemma {:induction false} ConcatBytes(syms: seq<Sym>)
    ensures AllBytes(syms) <==> IsBytes(Concat(syms))
    decreases |syms|
  {
    if syms != [] {
      ConcatBytes(syms[1..]);
      var whole := Concat(syms);
      assert whole == syms[0] + Concat(syms[1..]);
      assert IsBytes(whole) ==> IsBytes(syms[0]) by {
        assert forall i :: 0 <= i < |syms[0]| ==> whole[i] == syms[0][i];
      }
      assert IsBytes(whole) ==> IsBytes(Concat(syms[1..])) by {
        assert forall i :: 0 <= i < |Concat(syms[1..])| ==> whole[|syms[0]| + i] == Concat(syms[1..])[i];
      }
      hide Concat;
      assert AllBytes(syms) ==> AllBytes(syms[1..]) && IsBytes(syms[0]);
      assert AllBytes(syms[1..]) && IsBytes(syms[0]) ==> AllBytes(syms);
    }
  }

  /** The symbols a segment ends up as. */
  function Final(v: Vocab, segment: Sym): (syms: seq<Sym>)
    requires IsBytes(segment)
    ensures AllBytes(syms) && Concat(syms) == Normalize(segment)
  {
    var norm := Normalize(segment);
    NormalizeBytes(segment);
    PassesConcat(v.ranks, Chars(norm));
    ConcatBytes(Passes(v.ranks, Chars(norm)));
    Passes(v.ranks, Chars(norm))
  }

  function PlainIds(v: Vocab, segment: Sym): seq<int>
    requires Sized(v) && IsBytes(segment)
  {
    EmitAll(v, Final(v, segment))
  }

  /** What the loader establishes, besides distinct ranks: a token, or none, for each byte. */
  ghost predicate Loaded(v: Vocab) { Sized(v) && Ranked(v.ranks) && LiteralsOk(v.specials, v.firstBytes) }

  /** encode_plain */
  method EncodePlain(v: Vocab, segment: Sym) returns (ids: seq<int>)
    requires Loaded(v) && IsBytes(segment)
    ensures Sized(v) && ids == PlainIds(v, segment)
  {
    hide *;
    LoadedMeans(v);
    ids := [];
    if segment == [] {
      NothingPlain(v);
      return;
    }
    var normalized := MarkSpaces(segment);
    var symbols := SplitChars(normalized);
    symbols := MergeLoop(v.ranks, symbols);
    FinalIs(v, segment);
    EmitWhole(v, symbols);
    for i := 0 to |symbols|
      invariant AllBytes(symbols[i..]) && ids + EmitAll(v, symbols[i..]) == EmitAll(v, symbols)
    {
      EmitHead(v, symbols, i, ids);
      var more := EmitSymbol(v, symbols[i]);
      ids := ids + more;
    }
    EmitDone(v, symbols, ids);
  }

  lemma LoadedMeans(v: Vocab)
    requires Loaded(v)
    ensures Sized(v) && Ranked(v.ranks) && LiteralsOk(v.specials, v.firstBytes)
  {
  }

  lemma NothingPlain(v: Vocab)
    requires Sized(v)
    ensures IsBytes([]) && PlainIds(v, []) == []
  {
    assert Concat(Final(v, [])) == [];
    assert Chars([]) == [] && Passes(v.ranks, []) == [];
  }

  lemma FinalIs(v: Vocab, segment: Sym)
    requires Sized(v) && IsBytes(segment)
    ensures
      var syms := Passes(v.ranks, Chars(Normalize(segment)));
      AllBytes(syms) && PlainIds(v, segment) == EmitAll(v, syms) && Final(v, segment) == syms
  {
    assert Final(v, segment) == Passes(v.ranks, Chars(Normalize(segment)));
    hide Passes;
    hide EmitAll;
  }

  lemma EmitWhole(v: Vocab, syms: seq<Sym>)
    requires Sized(v) && AllBytes(syms)
    ensures AllBytes(syms[0..]) && [] + EmitAll(v, syms[0..]) == EmitAll(v, syms)
  {
    assert syms[0..] == syms;
    hide EmitAll;
  }

  lemma EmitHead(v: Vocab, syms: seq<Sym>, i: nat, ids: seq<int>)
    requires Sized(v) && AllBytes(syms) && i < |syms|
    ensures IsBytes(syms[i]) && AllBytes(syms[i..]) && AllBytes(syms[i + 1..])
    ensures ids + EmitAll(v, syms[i..]) == (ids + EmitIds(v, syms[i])) + EmitAll(v, syms[i + 1..])
  {
    hide EmitIds;
    hide IsBytes;
    assert syms[i..][1..] == syms[i + 1..];
    Associate(ids, EmitIds(v, syms[i]), EmitAll(v, syms[i + 1..]));
  }

  lemma EmitDone(v: Vocab, syms: seq<Sym>, ids: seq<int>)
    requires Sized(v) && AllBytes(syms)
    ensures AllBytes(syms[|syms|..]) && ids + EmitAll(v, syms[|syms|..]) == ids
  {
  }

  method MarkSpaces(segment: Sym) returns (out: Sym)
    ensures out == Normalize(segment)
  {
    out := [];
    assert segment[0..] == segment;
    for i := 0 to |segment|
      invariant out + Normalize(segment[i..]) == Normalize(segment)
    {
      assert segment[i..][1..] == segment[i + 1..];
      if segment[i] == SPACE {
        out := out + MARKER;
      } else {
        out := out + [segment[i]];
      }
    }
    assert segment[|segment|..] == [];
  }

  /** Added tokens are cut out where they stand; the text between them is plain. */
  ghost function Encoded(v: Vocab, text: Sym, start: nat, i: nat): seq<int>
    requires Loaded(v) && IsBytes(text) && start <= i <= |text|
    decreases |text| - i
  {
    if i == |text| then PlainIds(v, text[start..])
    else
      var k := FirstLiteral(v.specials, text, i, 0);
      if k == |v.specials| then Encoded(v, text, start, i + 1)
      else
        var next := i + |v.specials[k].0|;
        PlainIds(v, text[start..i]) + [v.specials[k].1] + Encoded(v, text, next, next)
  }

  /** encode */
  method Encode(v: Vocab, text: Sym) returns (ids: seq<int>)
    requires Loaded(v) && IsBytes(text)
    ensures ids == Encoded(v, text, 0, 0)
  {
    hide *;
    LoadedMeans(v);
    ids := [];
    var runStart: nat, i: nat := 0, 0;
    while i < |text|
      invariant runStart <= i <= |text| && ids + Encoded(v, text, runStart, i) == Encoded(v, text, 0, 0)
    {
      var k := |v.specials|;
      if text[i] in v.firstBytes {
        k := FindLiteral(v.specials, text, i);
      } else {
        Prefilter(v.specials, v.firstBytes, text, i);
      }
      EncodedHead(v, text, runStart, i, ids);
      if k < |v.specials| {
        SliceBytes(text, runStart, i);
        var plain := EncodePlain(v, text[runStart..i]);
        ids := ids + plain + [v.specials[k].1];
        LiteralFits(v.specials, v.firstBytes, text, i, k);
        i := i + |v.specials[k].0|;
        runStart := i;
      } else {
        i := i + 1;
      }
    }
    EncodedEnd(v, text, runStart);
    var last := EncodePlain(v, text[runStart..]);
    ids := ids + last;
  }

  lemma EncodedEnd(v: Vocab, text: Sym, start: nat)
    requires Loaded(v) && IsBytes(text) && start <= |text|
    ensures Sized(v) && IsBytes(text[start..]) && Encoded(v, text, start, |text|) == PlainIds(v, text[start..])
  {
    hide PlainIds;
  }

  lemma EncodedIs(v: Vocab, text: Sym, start: nat, i: nat)
    requires Loaded(v) && IsBytes(text) && start <= i < |text|
    ensures Sized(v) && IsBytes(text[start..i])
    ensures
      var k := FirstLiteral(v.specials, text, i, 0);
      if k == |v.specials| then Encoded(v, text, start, i) == Encoded(v, text, start, i + 1)
      else
        var next := i + |v.specials[k].0|;
        && next <= |text|
        && Encoded(v, text, start, i) == PlainIds(v, text[start..i]) + [v.specials[k].1] + Encoded(v, text, next, next)
  {
    hide PlainIds;
    hide FirstLiteral;
  }

  lemma EncodedHead(v: Vocab, text: Sym, start: nat, i: nat, ids: seq<int>)
    requires Loaded(v) && IsBytes(text) && start <= i < |text|
    ensures Sized(v) && IsBytes(text[start..i])
    ensures
      var k := FirstLiteral(v.specials, text, i, 0);
      if k == |v.specials| then Encoded(v, text, start, i) == Encoded(v, text, start, i + 1)
      else
        var next := i + |v.specials[k].0|;
        && next <= |text|
        && ids + Encoded(v, text, start, i)
           == (ids + PlainIds(v, text[start..i]) + [v.specials[k].1]) + Encoded(v, text, next, next)
  {
    hide *;
    EncodedIs(v, text, start, i);
    var k := FirstLiteral(v.specials, text, i, 0);
    if k < |v.specials| {
      var next := i + |v.specials[k].0|;
      Associate(ids, PlainIds(v, text[start..i]) + [v.specials[k].1], Encoded(v, text, next, next));
      Associate(ids, PlainIds(v, text[start..i]), [v.specials[k].1]);
    }
  }

  lemma {:induction false} EncodedPlain(v: Vocab, text: Sym, i: nat)
    requires Loaded(v) && IsBytes(text) && i <= |text| && NoLiteral(v.specials, text)
    ensures Sized(v) && Encoded(v, text, 0, i) == PlainIds(v, text)
    decreases |text| - i
  {
    hide *;
    if i == |text| {
      EncodedEnd(v, text, 0);
      assert text[0..] == text;
    } else {
      EncodedHead(v, text, 0, i, []);
      NoneHere(v.specials, text, i);
      EncodedPlain(v, text, i + 1);
    }
  }

  // ---------------------------------------------------------------- decode(encode(s)) == s

  predicate MarkerAt(s: Sym, i: int) { 0 <= i && i + 3 <= |s| && s[i..i + 3] == MARKER }
  predicate HasMarker(s: Sym) { exists i: nat :: i < |s| && MarkerAt(s, i) }

  lemma MarkerShifted(a: Sym, b: Sym)
    requires HasMarker(b)
    ensures HasMarker(a + b)
  {
    var i: nat :| i < |b| && MarkerAt(b, i);
    assert (a + b)[|a| + i..|a| + i + 3] == b[i..i + 3];
    assert MarkerAt(a + b, |a| + i);
  }

  lemma MarkerFirst(rest: Sym)
    ensures HasMarker(MARKER + rest)
  {
    assert (MARKER + rest)[0..0 + 3] == MARKER;
    assert MarkerAt(MARKER + rest, 0);
  }

  predicate Product(v: Vocab, sym: Sym) { exists p :: p in v.ranks && p.0 + p.1 == sym }

  /** Bytes have their tokens, merges spell no byte token's name, and the normal form of text keeps its
      id, an ordinary one unless the text is an added token's. */
  ghost predicate Faithful(v: Vocab) {
    && Sized(v)
    && (forall b: nat :: b < 256 ==>
          var id := v.byteFallback[b];
          0 <= id < |v.idToToken| && id !in v.specialIds && id in v.byteValue && v.byteValue[id] == b)
    && (forall id :: id in v.byteValue && 0 <= id < |v.idToToken| ==> v.idToToken[id] == ByteName(v.byteValue[id]))
    && (forall p, b :: p in v.ranks && 0 <= b < 256 ==> p.0 + p.1 != ByteName(b))
    && (forall id :: id in v.byteValue ==> 0 <= v.byteValue[id] < 256)
    && forall part: Sym :: part != [] && Plain(part) && Normalize(part) in v.tokenToId && !IsLiteral(v.specials, part) ==>
         var id := v.tokenToId[Normalize(part)];
         0 <= id < |v.idToToken| && id !in v.specialIds && v.idToToken[id] == Normalize(part)
  }

  /** The normal form of a part of the text: a character's, or a merge's product. */
  ghost predicate Written(v: Vocab, sym: Sym) {
    exists part: Sym :: part != [] && Plain(part) && sym == Normalize(part) && (IsChar(part) || Product(v, sym))
  }

  ghost predicate AllWritten(v: Vocab, syms: seq<Sym>) {
    forall i :: 0 <= i < |syms| ==> Written(v, syms[i])
  }

  lemma OneChar(c: Sym)
    requires IsChar(c) && c != MARKER
    ensures Plain(c) && Normalize(c) == (if c == [SPACE] then MARKER else c) && |Normalize(c)| <= 4
    ensures c == [SPACE] || forall i :: 0 <= i < |c| ==> c[i] != SPACE
  {
    assert c[..LeadLen(c[0])] == c && c[LeadLen(c[0])..] == [];
    if c != [SPACE] {
      NormalizeSame(c);
    } else {
      assert Normalize(c) == MARKER + Normalize(c[1..]);
    }
  }

  /** The first character of text is the first symbol of its normal form. */
  lemma FirstChar(c: Sym, rest: Sym)
    requires IsChar(c) && c != MARKER
    ensures Chars(Normalize(c) + rest) == [Normalize(c)] + Chars(rest)
  {
    OneChar(c);
    var n := Normalize(c);
    var s := n + rest;
    assert s[0] == n[0] && CharLen(s) == |n|;
    assert s[..|n|] == n && s[|n|..] == rest;
  }

  lemma {:induction false} CharsWritten(v: Vocab, s: Sym)
    requires Plain(s)
    ensures AllWritten(v, Chars(Normalize(s)))
    decreases |s|
  {
    if s != [] {
      var n := LeadLen(s[0]);
      var c, rest := s[..n], s[n..];
      assert s == c + rest;
      hide Written;
      CharsWritten(v, rest);
      NormalizeSplit(c, rest);
      FirstChar(c, Normalize(rest));
      CharWritten(v, c);
    }
  }

  lemma CharWritten(v: Vocab, c: Sym)
    requires IsChar(c) && c != MARKER
    ensures Written(v, Normalize(c))
  {
    OneChar(c);
  }

  lemma ProductWritten(v: Vocab, x: Sym, y: Sym)
    requires Written(v, x) && Written(v, y) && (x, y) in v.ranks
    ensures Written(v, x + y)
  {
    var a: Sym :| a != [] && Plain(a) && x == Normalize(a);
    var b: Sym :| b != [] && Plain(b) && y == Normalize(b);
    PlainSplit(a, b);
    NormalizeSplit(a, b);
    assert (x, y).0 + (x, y).1 == x + y;
    assert Product(v, x + y);
    hide Plain;
    hide Normalize;
    assert a + b != [];
  }

  lemma {:induction false} MergedWritten(v: Vocab, syms: seq<Sym>, a: Sym, b: Sym)
    requires AllWritten(v, syms) && (a, b) in v.ranks
    ensures AllWritten(v, MergeAll(syms, a, b))
    decreases |syms|
  {
    hide Written;
    if |syms| >= 2 {
      if syms[0] == a && syms[1] == b {
        assert Written(v, syms[0]) && Written(v, syms[1]);
        ProductWritten(v, a, b);
        MergedWritten(v, syms[2..], a, b);
      } else {
        MergedWritten(v, syms[1..], a, b);
      }
    }
  }

  lemma {:induction false} PassesWritten(v: Vocab, syms: seq<Sym>)
    requires AllWritten(v, syms)
    ensures AllWritten(v, Passes(v.ranks, syms))
    decreases |syms|
  {
    hide AllWritten;
    var b := BestRule(v.ranks, syms);
    if b.Rule? {
      MergeShrinks(syms, syms[b.at], syms[b.at + 1], b.at);
      MergedWritten(v, syms, syms[b.at], syms[b.at + 1]);
      PassesWritten(v, MergeAll(syms, syms[b.at], syms[b.at + 1]));
    }
  }

  /** The text that written symbols are the normal form of. */
  lemma {:induction false} SymbolsPart(v: Vocab, syms: seq<Sym>) returns (part: Sym)
    requires AllWritten(v, syms)
    ensures Plain(part) && Concat(syms) == Normalize(part)
    decreases |syms|
  {
    if syms == [] {
      part := [];
    } else {
      assert Written(v, syms[0]);
      var first: Sym :| first != [] && Plain(first) && syms[0] == Normalize(first);
      var tail := SymbolsPart(v, syms[1..]);
      PlainSplit(first, tail);
      NormalizeSplit(first, tail);
      part := first + tail;
    }
  }

  lemma FirstPart(v: Vocab, syms: seq<Sym>, s: Sym) returns (first: Sym, tail: Sym)
    requires syms != [] && AllWritten(v, syms) && Plain(s) && Concat(syms) == Normalize(s)
    ensures Plain(first) && Plain(tail) && first != [] && s == first + tail
    ensures syms[0] == Normalize(first) && Concat(syms[1..]) == Normalize(tail) && AllWritten(v, syms[1..])
    ensures IsChar(first) || Product(v, syms[0])
  {
    assert Written(v, syms[0]);
    first :| first != [] && Plain(first) && syms[0] == Normalize(first) && (IsChar(first) || Product(v, syms[0]));
    tail := SymbolsPart(v, syms[1..]);
    PlainSplit(first, tail);
    NormalizeSplit(first, tail);
    hide Plain;
    hide Normalize;
    hide Written;
    Normalized(s, first + tail);
  }

  lemma {:induction false} FallbackText(v: Vocab, sym: Sym)
    requires Faithful(v) && IsBytes(sym)
    ensures Text(v, FallbackIds(v, sym)) == sym
    decreases |sym|
  {
    if sym != [] {
      FallbackText(v, sym[1..]);
      var id := v.byteFallback[sym[0]];
      assert FallbackIds(v, sym) == [id] + FallbackIds(v, sym[1..]);
      assert ([id] + FallbackIds(v, sym[1..]))[1..] == FallbackIds(v, sym[1..]);
    }
  }

  /** A symbol that is a token decodes to the text it stands for. */
  lemma TokenText(v: Vocab, part: Sym)
    requires Faithful(v) && part != [] && Plain(part) && Normalize(part) in v.tokenToId && !IsLiteral(v.specials, part)
    requires IsChar(part) || Product(v, Normalize(part))
    ensures IdText(v, v.tokenToId[Normalize(part)]) == part
  {
    var sym := Normalize(part);
    var id := v.tokenToId[sym];
    assert 0 <= id < |v.idToToken| && id !in v.specialIds && v.idToToken[id] == sym;
    UnmarkNormalize(part);
    if IsChar(part) {
      assert part[..LeadLen(part[0])] == part;
      OneChar(part);
      assert |ByteName(v.byteFallback[0])| == 6;
    } else {
      var p :| p in v.ranks && p.0 + p.1 == sym;
    }
  }

  /** Spaces make text's normal form longer; without them it is the text. */
  lemma {:induction false} NormalLength(s: Sym)
    ensures |Normalize(s)| >= |s|
    ensures (exists i :: 0 <= i < |s| && s[i] == SPACE) ==> |Normalize(s)| > |s| && HasMarker(Normalize(s))
    ensures (forall i :: 0 <= i < |s| ==> s[i] != SPACE) ==> Normalize(s) == s
    decreases |s|
  {
    if s != [] {
      NormalLength(s[1..]);
      var rest := Normalize(s[1..]);
      hide HasMarker;
      if s[0] == SPACE {
        MarkerFirst(rest);
      } else {
        if HasMarker(rest) {
          MarkerShifted([s[0]], rest);
        }
        assert forall i :: 1 <= i < |s| ==> s[i] == s[1..][i - 1];
      }
    }
  }

  /** Every symbol that carries a marker is a token. */
  predicate MarkersKnown(v: Vocab, syms: seq<Sym>) {
    forall i :: 0 <= i < |syms| && HasMarker(syms[i]) ==> syms[i] in v.tokenToId
  }

  lemma EmitText(v: Vocab, syms: seq<Sym>)
    requires Sized(v) && AllBytes(syms) && syms != []
    ensures AllBytes(syms[1..]) && Text(v, EmitAll(v, syms)) == Text(v, EmitIds(v, syms[0])) + Text(v, EmitAll(v, syms[1..]))
  {
    TextSplit(v, EmitIds(v, syms[0]), EmitAll(v, syms[1..]));
    hide Text;
    hide EmitIds;
  }

  /** What one symbol decodes to: the text, or its bytes, markers and all. */
  lemma SymbolText(v: Vocab, sym: Sym, part: Sym)
    requires Faithful(v) && IsBytes(sym) && part != [] && Plain(part) && sym == Normalize(part) && !IsLiteral(v.specials, part)
    requires IsChar(part) || Product(v, sym)
    ensures Text(v, EmitIds(v, sym)) == if sym in v.tokenToId then part else sym
  {
    if sym in v.tokenToId {
      TokenText(v, part);
      var id := v.tokenToId[sym];
      hide *;
      OneId(v, sym);
    } else {
      FallbackText(v, sym);
    }
  }

  lemma OneId(v: Vocab, sym: Sym)
    requires Sized(v) && IsBytes(sym) && sym in v.tokenToId
    ensures Text(v, EmitIds(v, sym)) == IdText(v, v.tokenToId[sym])
  {
    hide IdText;
    var id := v.tokenToId[sym];
    assert [id][1..] == [];
  }

  /** Symbols decode to the text exactly when those with markers are tokens; otherwise to something longer. */
  lemma {:induction false} SymbolsText(v: Vocab, syms: seq<Sym>, s: Sym)
    requires Faithful(v) && Sized(v) && AllBytes(syms) && AllWritten(v, syms)
    requires Plain(s) && Concat(syms) == Normalize(s) && Clean(v.specials, s)
    ensures MarkersKnown(v, syms) ==> Text(v, EmitAll(v, syms)) == s
    ensures |Text(v, EmitAll(v, syms))| >= |s| && (!MarkersKnown(v, syms) ==> |Text(v, EmitAll(v, syms))| > |s|)
    decreases |syms|
  {
    if syms == [] {
      UnmarkNormalize(s);
    } else {
      hide *;
      var first, tail := FirstPart(v, syms, s);
      CleanSplit(v.specials, s, first, tail);
      EmitText(v, syms);
      FirstIsBytes(syms);
      SymbolText(v, syms[0], first);
      NormalLength(first);
      MarkersTail(v, syms);
      MarkerIffSpace(first);
      SymbolsText(v, syms[1..], tail);
    }
  }

  lemma FirstIsBytes(syms: seq<Sym>)
    requires syms != [] && AllBytes(syms)
    ensures IsBytes(syms[0]) && AllBytes(syms[1..])
  {
    hide IsBytes;
  }

  lemma MarkersTail(v: Vocab, syms: seq<Sym>)
    requires syms != []
    ensures MarkersKnown(v, syms) <==> (HasMarker(syms[0]) ==> syms[0] in v.tokenToId) && MarkersKnown(v, syms[1..])
  {
    hide HasMarker;
    if MarkersKnown(v, syms[1..]) && (HasMarker(syms[0]) ==> syms[0] in v.tokenToId) {
      forall i | 0 <= i < |syms| && HasMarker(syms[i])
        ensures syms[i] in v.tokenToId
      {
        if i > 0 {
          assert syms[1..][i - 1] == syms[i];
        }
      }
    }
  }

  /** Text's normal form carries a marker exactly when the text has a space. */
  lemma MarkerIffSpace(s: Sym)
    requires Plain(s)
    ensures HasMarker(Normalize(s)) <==> exists i :: 0 <= i < |s| && s[i] == SPACE
  {
    NormalLength(s);
    if forall i :: 0 <= i < |s| ==> s[i] != SPACE {
      UnmarkNormalize(s);
      if HasMarker(s) {
        var i: nat :| i < |s| && MarkerAt(s, i);
        MarkerShrinks(s, i);
        assert false;
      }
    }
  }

  /** Unmarking never lengthens, and shortens what has a marker in it. */
  lemma {:induction false} UnmarkLength(s: Sym)
    ensures |Unmark(s)| <= |s|
    decreases |s|
  {
    if s != [] {
      if 3 <= |s| && s[..3] == MARKER {
        UnmarkLength(s[3..]);
      } else {
        UnmarkLength(s[1..]);
      }
    }
  }

  lemma {:induction false} MarkerShrinks(s: Sym, i: nat)
    requires i + 3 <= |s| && s[i..i + 3] == MARKER
    ensures |Unmark(s)| < |s|
    decreases |s|
  {
    if 3 <= |s| && s[..3] == MARKER {
      UnmarkLength(s[3..]);
    } else {
      assert i > 0;
      assert s[1..][i - 1..i - 1 + 3] == s[i..i + 3];
      MarkerShrinks(s[1..], i - 1);
    }
  }

  /** On UTF-8 text without U+2581 and without added tokens, decoding the encoding gives the text back
      exactly when every final symbol that carries a marker is in the vocabulary. */
  lemma RoundTripExactly(v: Vocab, text: Sym)
    requires Loaded(v) && Faithful(v) && IsBytes(text) && Plain(text) && NoLiteral(v.specials, text)
    ensures Text(v, Encoded(v, text, 0, 0)) == text <==> MarkersKnown(v, Final(v, text))
  {
    LoadedMeans(v);
    EncodedPlain(v, text, 0);
    NoLiteralClean(v.specials, text);
    CharsWritten(v, text);
    PassesWritten(v, Chars(Normalize(text)));
    hide *;
    FinalIs(v, text);
    SymbolsText(v, Final(v, text), text);
  }

  /** So it does for every text when the marker is a token and so is every merge product with a marker. */
  lemma RoundTrip(v: Vocab, text: Sym)
    requires Loaded(v) && Faithful(v) && IsBytes(text) && Plain(text) && NoLiteral(v.specials, text)
    requires MARKER in v.tokenToId && forall p :: p in v.ranks && HasMarker(p.0 + p.1) ==> p.0 + p.1 in v.tokenToId
    ensures Text(v, Encoded(v, text, 0, 0)) == text
  {
    RoundTripExactly(v, text);
    CharsWritten(v, text);
    PassesWritten(v, Chars(Normalize(text)));
    FinalIs(v, text);
    var syms := Final(v, text);
    forall i | 0 <= i < |syms| && HasMarker(syms[i])
      ensures syms[i] in v.tokenToId
    {
      assert Written(v, syms[i]);
      var part: Sym :| part != [] && Plain(part) && syms[i] == Normalize(part) && (IsChar(part) || Product(v, syms[i]));
      hide *;
      if IsChar(part) {
        MarkedChar(part);
      } else {
        MarkedProduct(v, syms[i]);
      }
    }
    hide *;
    assert MarkersKnown(v, syms) by { MarkersIf(v, syms); }
  }

  lemma MarkersIf(v: Vocab, syms: seq<Sym>)
    requires forall i :: 0 <= i < |syms| && HasMarker(syms[i]) ==> syms[i] in v.tokenToId
    ensures MarkersKnown(v, syms)
  {
  }

  lemma MarkedChar(c: Sym)
    requires IsChar(c) && Plain(c) && HasMarker(Normalize(c))
    ensures Normalize(c) == MARKER
  {
    assert c[..LeadLen(c[0])] == c;
    hide *;
    MarkerIffSpace(c);
    OneChar(c);
  }

  lemma MarkedProduct(v: Vocab, sym: Sym)
    requires Product(v, sym) && HasMarker(sym) && forall p :: p in v.ranks && HasMarker(p.0 + p.1) ==> p.0 + p.1 in v.tokenToId
    ensures sym in v.tokenToId
  {
    hide HasMarker;
  }

  // ---------------------------------------------------------------- a vocabulary that meets the assumptions

  const ADDED: Sym := [0x3C, 0x61, 0x3E]

  function SampleToken(id: nat): Sym
    requires id < 258
  {
    if id < 256 then ByteName(id) else if id == 256 then MARKER else ADDED
  }

  lemma NamesDiffer(a: nat, b: nat)
    requires a < 256 && b < 256 && ByteName(a) == ByteName(b)
    ensures a == b
  {
    assert ByteName(a)[3] == ByteName(b)[3] && ByteName(a)[4] == ByteName(b)[4];
    assert a == a / 16 * 16 + a % 16 && b == b / 16 * 16 + b % 16;
  }

  lemma SampleTokensDiffer(a: nat, b: nat)
    requires a < 258 && b < 258 && SampleToken(a) == SampleToken(b)
    ensures a == b
  {
    if a < 256 && b < 256 {
      NamesDiffer(a, b);
    } else {
      assert |ByteName(0)| == 6;
      assert MARKER[0] != ADDED[0];
    }
  }

  lemma {:induction false} SampleIds(n: nat) returns (ids: map<Sym, int>)
    requires n <= 258
    ensures forall id: nat :: id < n ==> SampleToken(id) in ids && ids[SampleToken(id)] == id
    ensures forall t :: t in ids ==> 0 <= ids[t] < n && t == SampleToken(ids[t])
    decreases n
  {
    ids := map[];
    if n > 0 {
      var fewer := SampleIds(n - 1);
      forall id: nat | id < n - 1
        ensures SampleToken(id) != SampleToken(n - 1)
      {
        if SampleToken(id) == SampleToken(n - 1) {
          SampleTokensDiffer(id, n - 1);
        }
      }
      hide *;
      ids := fewer[SampleToken(n - 1) := n - 1];
    }
  }

  /** Each number below `n` under itself. */
  function OwnBytes(n: nat): (m: map<int, int>)
    ensures forall b :: b in m <==> 0 <= b < n
    ensures forall b :: b in m ==> m[b] == b
  {
    if n == 0 then map[] else OwnBytes(n - 1)[n - 1 := n - 1]
  }

  /** The assumptions fit real vocabularies: here is one with an added special token in it. */
  lemma FaithfulWithSpecial() returns (v: Vocab)
    ensures Loaded(v) && Faithful(v) && MARKER in v.tokenToId && ADDED in v.tokenToId && v.tokenToId[ADDED] in v.specialIds
  {
    SampleTokensAre();
    hide SampleToken;
    hide ByteName;
    hide Plain;
    hide Normalize;
    var ids := SampleIds(258);
    v := Vocab(ids, seq(258, id requires 0 <= id < 258 => SampleToken(id)), map[], seq(256, b => b), OwnBytes(256), -1,
               {257}, [(ADDED, 257)], {ADDED[0]});
    assert v.specials[0].0 == ADDED;
    AddedPlain();
    forall part: Sym | part != [] && Plain(part) && Normalize(part) in ids && !IsLiteral(v.specials, part)
      ensures ids[Normalize(part)] != 257
    {
      if ids[Normalize(part)] == 257 {
        Normalized(part, ADDED);
      }
    }
  }

  lemma SampleTokensAre()
    ensures SampleToken(256) == MARKER && SampleToken(257) == ADDED && forall b: nat :: b < 256 ==> SampleToken(b) == ByteName(b)
  {
    hide ByteName;
  }

  lemma AddedPlain()
    ensures Plain(ADDED) && Normalize(ADDED) == ADDED
  {
    assert ADDED[..1] == [0x3C] && ADDED[1..][..1] == [0x61] && ADDED[1..][1..][..1] == [0x3E] && ADDED[1..][1..][1..] == [];
    assert IsChar([0x3C]) && IsChar([0x61]) && IsChar([0x3E]);
    assert Plain(ADDED[1..][1..]);
    assert Plain(ADDED[1..]);
    NormalizeSame(ADDED);
  }
}
