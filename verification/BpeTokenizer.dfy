/** The byte-level BPE tokenizer (src/tokenizer/bpe.cpp): the byte alphabet, encode and decode. */
module BpeTokenizer {
  import opened Pretokenizer
  import opened BpeMerge
  import opened AddedTokens

  // ---------------------------------------------------------------- UTF-8

  /** append_utf8 */
  function Utf8(cp: int): Sym
    requires 0 <= cp < 0x110000
  {
    if cp < 0x80 then [cp]
    else if cp < 0x800 then [0xC0 + cp / 0x40, 0x80 + cp % 0x40]
    else if cp < 0x10000 then [0xE0 + cp / 0x1000, 0x80 + cp / 0x40 % 0x40, 0x80 + cp % 0x40]
    else [0xF0 + cp / 0x40000, 0x80 + cp / 0x1000 % 0x40, 0x80 + cp / 0x40 % 0x40, 0x80 + cp % 0x40]
  }

  /** Length of the character `s` begins with; a bad lead or a truncated character is one byte. */
  function CharLen(s: Sym): (n: nat)
    requires s != []
    ensures 1 <= n <= |s|
  {
    var c := s[0];
    if c < 0x80 then 1
    else if c / 0x20 == 0x6 && 1 < |s| then 2
    else if c / 0x10 == 0xE && 2 < |s| then 3
    else if c / 0x8 == 0x1E && 3 < |s| then 4
    else 1
  }

  function CharValue(s: Sym): int
    requires s != []
  {
    var c := s[0];
    var n := CharLen(s);
    if n == 1 then c
    else if n == 2 then c % 0x20 * 0x40 + s[1] % 0x40
    else if n == 3 then c % 0x10 * 0x1000 + s[1] % 0x40 * 0x40 + s[2] % 0x40
    else c % 0x8 * 0x40000 + s[1] % 0x40 * 0x1000 + s[2] % 0x40 * 0x40 + s[3] % 0x40
  }

  /** The codepoints of a byte string. */
  function Codepoints(s: Sym): (r: seq<int>)
    decreases |s|
  {
    if s == [] then [] else [CharValue(s)] + Codepoints(s[CharLen(s)..])
  }

  /** decode_utf8: codepoints, and where each begins. */
  method DecodeUtf8(s: Sym) returns (cp: seq<int>, off: seq<nat>)
    ensures cp == Codepoints(s) && |off| == |cp| + 1
    ensures forall p: nat :: p <= |cp| ==> off[p] == Offset(s, p)
  {
    hide *;
    cp, off := [], [];
    var i := 0;
    OffsetZero(s);
    while i < |s|
      invariant i <= |s| && |off| == |cp| && cp + Codepoints(s[i..]) == Codepoints(s)
      invariant |cp| <= |Codepoints(s)| && i == Offset(s, |cp|)
      invariant forall p: nat :: p < |cp| ==> off[p] == Offset(s, p)
    {
      var rest := s[i..];
      NotLast(s, |cp|);
      OffsetStep(s, |cp|);
      CodepointsHead(rest, cp);
      var len := CharLen(rest);
      assert rest[len..] == s[i + len..];
      off := off + [i];
      cp := cp + [CharValue(rest)];
      i := i + len;
    }
    CodepointsDone(s, cp);
    off := off + [|s|];
  }

  lemma CodepointsHead(s: Sym, cp: seq<int>)
    requires s != []
    ensures cp + Codepoints(s) == (cp + [CharValue(s)]) + Codepoints(s[CharLen(s)..])
  {
    hide CharLen;
    hide CharValue;
  }

  lemma CodepointsDone(s: Sym, cp: seq<int>)
    ensures cp + Codepoints(s[|s|..]) == cp
  {
  }

  lemma OffsetZero(s: Sym)
    ensures Offset(s, 0) == 0 && s[0..] == s
  {
  }

  lemma NotLast(s: Sym, p: nat)
    requires p <= |Codepoints(s)| && Offset(s, p) < |s|
    ensures p < |Codepoints(s)|
  {
  }

  // ---------------------------------------------------------------- the byte alphabet

  predicate Printable(b: int) { 0x21 <= b <= 0x7E || 0xA1 <= b <= 0xAC || 0xAE <= b <= 0xFF }

  /** Bytes below `b` that do not stand for themselves. */
  function Shifted(b: nat): (n: nat)
    ensures n <= b
  {
    if b == 0 then 0 else Shifted(b - 1) + if Printable(b - 1) then 0 else 1
  }

  /** The codepoint a byte is written as. */
  function Letter(b: nat): (cp: int)
    ensures 0 <= cp
  {
    if Printable(b) then b else 256 + Shifted(b)
  }

  lemma {:induction false} ShiftedGrows(a: nat, b: nat)
    requires a <= b
    ensures Shifted(a) <= Shifted(b) && (a < b && !Printable(a) ==> Shifted(a) < Shifted(b))
    decreases b
  {
    if a < b {
      ShiftedGrows(a, b - 1);
    }
  }

  /** Different bytes are written differently. */
  lemma LettersDiffer(a: nat, b: nat)
    requires a < 256 && b < 256 && Letter(a) == Letter(b)
    ensures a == b
  {
    if !Printable(a) && !Printable(b) {
      if a < b { ShiftedGrows(a, b); } else if b < a { ShiftedGrows(b, a); }
    }
  }

  lemma LetterRange(b: nat)
    requires b < 256
    ensures Letter(b) < 0x200
  {
  }

  lemma NoneShifted()
    ensures Shifted(0) == 0
  {
  }

  lemma LetterIs(b: nat)
    ensures Letter(b) == if Printable(b) then b else 256 + Shifted(b)
    ensures Shifted(b + 1) == if Printable(b) then Shifted(b) else Shifted(b) + 1
  {
  }

  lemma {:induction false} ShiftedCounts(b: nat)
    requires b <= 256
    ensures Shifted(b) == if b <= 0x21 then b else if b <= 0x7F then 33 else if b <= 0xA1 then b - 0x5E else if b <= 0xAD then 67 else 68
  {
    if b > 0 {
      ShiftedCounts(b - 1);
    }
  }

  /** The alphabet, written out: the 188 visible Latin-1 bytes stand for themselves, and the 33 + 34 + 1 others are
      U+0100 onwards, in order. */
  lemma ByteAlphabet(b: nat)
    requires b < 256
    ensures (0x21 <= b <= 0x7E || 0xA1 <= b <= 0xAC || 0xAE <= b) ==> Letter(b) == b
    ensures b <= 0x20 ==> Letter(b) == 0x100 + b
    ensures 0x7F <= b <= 0xA0 ==> Letter(b) == 0x121 + (b - 0x7F)
    ensures b == 0xAD ==> Letter(b) == 0x143
    ensures MapBytes([b]) == if Letter(b) < 0x80 then [Letter(b)] else [0xC0 + Letter(b) / 0x40, 0x80 + Letter(b) % 0x40]
  {
    ShiftedCounts(b);
    LetterRange(b);
    assert MapBytes([b]) == Utf8(Letter(b)) + MapBytes([]);
  }

  /** Byte `b` is written as the codepoint `shift` above it, and read back. */
  predicate Spells(toUni: seq<Sym>, fromUni: map<int, int>, b: nat, shift: nat) {
    var cp := b + shift;
    && b < |toUni| && toUni[b] == (if cp < 0x80 then [cp] else [0xC0 + cp / 0x40, 0x80 + cp % 0x40])
    && cp in fromUni && fromUni[cp] == b
  }

  /** The byte alphabet's tables: byte to text, and codepoint back to byte. */
  method BuildByteMap() returns (toUni: seq<Sym>, fromUni: map<int, int>)
    ensures |toUni| == 256 && forall b: nat :: b < 256 ==> Letter(b) < 0x200 && toUni[b] == Utf8(Letter(b))
    ensures forall b: nat :: b < 256 ==> Letter(b) in fromUni && fromUni[Letter(b)] == b
    ensures forall c :: c in fromUni ==> 0 <= fromUni[c] < 256 && Letter(fromUni[c]) == c
    ensures forall b :: 0x21 <= b <= 0x7E || 0xA1 <= b <= 0xAC || 0xAE <= b <= 0xFF ==> Spells(toUni, fromUni, b, 0)
    ensures forall b: nat :: b <= 0x20 ==> Spells(toUni, fromUni, b, 0x100)
    ensures forall b :: 0x7F <= b <= 0xA0 ==> Spells(toUni, fromUni, b, 0xA2)
    ensures Spells(toUni, fromUni, 0xAD, 0x96)
  {
    hide *;
    toUni, fromUni := [], map[];
    var n := 0;
    NoneShifted();
    for b := 0 to 256
      invariant |toUni| == b && n == Shifted(b)
      invariant forall k: nat :: k < b ==> Letter(k) < 0x200 && toUni[k] == Utf8(Letter(k))
      invariant forall k: nat :: k < b ==> Letter(k) in fromUni && fromUni[Letter(k)] == k
      invariant forall c :: c in fromUni ==> 0 <= fromUni[c] < b && Letter(fromUni[c]) == c
    {
      var cp := if Printable(b) then b else 256 + n;
      if !Printable(b) {
        n := n + 1;
      }
      LetterIs(b);
      LetterRange(b);
      toUni := toUni + [Utf8(cp)];
      if cp in fromUni {
        LettersDiffer(fromUni[cp], b);
      }
      fromUni := fromUni[cp := b];
    }
    AlphabetTables(toUni, fromUni);
  }

  lemma AlphabetTables(toUni: seq<Sym>, fromUni: map<int, int>)
    requires |toUni| == 256 && forall b: nat :: b < 256 ==> Letter(b) < 0x200 && toUni[b] == Utf8(Letter(b))
    requires forall b: nat :: b < 256 ==> Letter(b) in fromUni && fromUni[Letter(b)] == b
    ensures forall b :: 0x21 <= b <= 0x7E || 0xA1 <= b <= 0xAC || 0xAE <= b <= 0xFF ==> Spells(toUni, fromUni, b, 0)
    ensures forall b: nat :: b <= 0x20 ==> Spells(toUni, fromUni, b, 0x100)
    ensures forall b :: 0x7F <= b <= 0xA0 ==> Spells(toUni, fromUni, b, 0xA2)
    ensures Spells(toUni, fromUni, 0xAD, 0x96)
  {
    forall b: nat | b < 256
      ensures Letter(b) >= b && Spells(toUni, fromUni, b, Letter(b) - b)
    {
      ByteAlphabet(b);
      SpellsLetter(toUni, fromUni, b);
    }
    hide *;
    forall b: nat | b < 256
      ensures (0x21 <= b <= 0x7E || 0xA1 <= b <= 0xAC || 0xAE <= b) ==> Spells(toUni, fromUni, b, 0)
      ensures b <= 0x20 ==> Spells(toUni, fromUni, b, 0x100)
      ensures 0x7F <= b <= 0xA0 ==> Spells(toUni, fromUni, b, 0xA2)
      ensures b == 0xAD ==> Spells(toUni, fromUni, b, 0x96)
    {
      ByteAlphabet(b);
      assert Spells(toUni, fromUni, b, Letter(b) - b);
    }
  }

  lemma SpellsLetter(toUni: seq<Sym>, fromUni: map<int, int>, b: nat)
    requires b < |toUni| && b <= Letter(b) < 0x200 && toUni[b] == Utf8(Letter(b)) && Letter(b) in fromUni && fromUni[Letter(b)] == b
    ensures Spells(toUni, fromUni, b, Letter(b) - b)
  {
    hide Letter;
  }

  function MapBytes(bs: Sym): (r: Sym)
    requires IsBytes(bs)
  {
    if bs == [] then [] else LetterRange(bs[0]); Utf8(Letter(bs[0])) + MapBytes(bs[1..])
  }

  function Letters(bs: Sym): seq<int>
    requires IsBytes(bs)
  {
    seq(|bs|, i requires 0 <= i < |bs| => Letter(bs[i]))
  }

  /** Every codepoint's UTF-8 form decodes to it, whatever follows. */
  lemma Utf8Decodes(cp: int, rest: Sym)
    requires 0 <= cp < 0x110000
    ensures CharLen(Utf8(cp) + rest) == |Utf8(cp)| && CharValue(Utf8(cp) + rest) == cp
    ensures Codepoints(Utf8(cp) + rest) == [cp] + Codepoints(rest)
  {
    var u := Utf8(cp);
    var s := u + rest;
    assert s[|u|..] == rest;
    assert forall i :: 0 <= i < |u| ==> s[i] == u[i];
    Utf8Form(cp);
    hide Utf8;
    DecodesForm(s, u, cp);
  }

  lemma DecodesForm(s: Sym, u: Sym, cp: int)
    requires u <= s && Formed(u, cp)
    ensures CharLen(s) == |u| && CharValue(s) == cp
  {
    assert forall i :: 0 <= i < |u| ==> s[i] == u[i];
  }

  /** `u` is codepoint `cp` in the table of section 3 of RFC 3629: the length, the lead byte, the continuation
      bytes, and the codepoint as their payload bits. */
  predicate Formed(u: Sym, cp: int) {
    && |u| == (if cp <= 0x7F then 1 else if cp <= 0x7FF then 2 else if cp <= 0xFFFF then 3 else 4)
    && (forall i :: 1 <= i < |u| ==> 0x80 <= u[i] <= 0xBF)
    && (|u| == 1 ==> u[0] == cp && 0 <= cp)
    && (|u| == 2 ==> 0xC2 <= u[0] <= 0xDF && cp == (u[0] - 0xC0) * 64 + (u[1] - 0x80))
    && (|u| == 3 ==> 0xE0 <= u[0] <= 0xEF && cp == (u[0] - 0xE0) * 4096 + (u[1] - 0x80) * 64 + (u[2] - 0x80))
    && (|u| == 4 ==> 0xF0 <= u[0] <= 0xF4 && cp == (u[0] - 0xF0) * 262144 + (u[1] - 0x80) * 4096 + (u[2] - 0x80) * 64 + (u[3] - 0x80))
  }

  lemma Utf8Form(cp: int)
    requires 0 <= cp < 0x110000
    ensures Formed(Utf8(cp), cp)
  {
    SixBits(cp);
    SixBits(cp / 0x40);
    SixBits(cp / 0x1000);
    assert cp / 0x40 / 0x40 == cp / 0x1000 && cp / 0x1000 / 0x40 == cp / 0x40000;
  }

  lemma SixBits(n: nat)
    ensures n == n / 0x40 * 64 + n % 0x40 && 0 <= n % 0x40 < 0x40
  {
  }

  /** Text in the byte alphabet decodes to the bytes' codepoints. */
  lemma {:induction false} MappedCodepoints(bs: Sym)
    requires IsBytes(bs)
    ensures Codepoints(MapBytes(bs)) == Letters(bs)
    decreases |bs|
  {
    hide Utf8;
    hide Letter;
    hide CharLen;
    hide CharValue;
    if bs != [] {
      LetterRange(bs[0]);
      Utf8Decodes(Letter(bs[0]), MapBytes(bs[1..]));
      MappedCodepoints(bs[1..]);
      assert Letters(bs) == [Letter(bs[0])] + Letters(bs[1..]);
    }
  }

  lemma {:induction false} MapSplit(a: Sym, b: Sym)
    requires IsBytes(a) && IsBytes(b)
    ensures IsBytes(a + b) && MapBytes(a + b) == MapBytes(a) + MapBytes(b)
    decreases |a|
  {
    hide Utf8;
    hide Letter;
    if a == [] {
      assert a + b == b;
    } else {
      assert (a + b)[1..] == a[1..] + b;
      MapSplit(a[1..], b);
    }
  }

  // ---------------------------------------------------------------- vocabulary

  datatype Vocab = Vocab(
    tokenToId: map<Sym, int>, idToToken: seq<Sym>, ranks: Ranks, specialIds: set<int>,
    specials: seq<(Sym, int)>, firstBytes: set<int>, tables: Tables, digitRunMax: nat)

  /** Byte of a codepoint, when it is a letter of the alphabet. */
  ghost function ByteOf(c: int): Sym {
    if b: nat :| b < 256 && Letter(b) == c then [b] else []
  }

  ghost function BytesOf(cps: seq<int>): Sym {
    if cps == [] then [] else ByteOf(cps[0]) + BytesOf(cps[1..])
  }

  /** What one id decodes to. */
  ghost function IdText(v: Vocab, id: int): Sym {
    if id < 0 || id >= |v.idToToken| || id in v.specialIds then [] else BytesOf(Codepoints(v.idToToken[id]))
  }

  ghost function Text(v: Vocab, ids: seq<int>): Sym {
    if ids == [] then [] else IdText(v, ids[0]) + Text(v, ids[1..])
  }

  lemma {:induction false} TextSplit(v: Vocab, a: seq<int>, b: seq<int>)
    ensures Text(v, a + b) == Text(v, a) + Text(v, b)
    decreases |a|
  {
    if a == [] {
      assert a + b == b;
    } else {
      assert (a + b)[1..] == a[1..] + b;
      TextSplit(v, a[1..], b);
    }
  }

  lemma ByteOfLetter(b: nat)
    requires b < 256
    ensures ByteOf(Letter(b)) == [b]
  {
    var k: nat :| k < 256 && Letter(k) == Letter(b) && ByteOf(Letter(b)) == [k];
    LettersDiffer(k, b);
  }

  lemma {:induction false} BytesOfLetters(bs: Sym)
    requires IsBytes(bs)
    ensures BytesOf(Letters(bs)) == bs
    decreases |bs|
  {
    if bs != [] {
      ByteOfLetter(bs[0]);
      BytesOfLetters(bs[1..]);
      assert Letters(bs)[1..] == Letters(bs[1..]);
    }
  }

  /** A token written in the alphabet decodes to its bytes. */
  lemma Unmapped(bs: Sym)
    requires IsBytes(bs)
    ensures BytesOf(Codepoints(MapBytes(bs))) == bs
  {
    MappedCodepoints(bs);
    BytesOfLetters(bs);
  }

  lemma NoText()
    ensures BytesOf(Codepoints([])) == []
  {
  }

  /** decode: special, unknown and empty ids are skipped, the rest concatenated. */
  method Decode(v: Vocab, ids: seq<int>) returns (out: Sym)
    ensures out == Text(v, ids)
  {
    var toUni, fromUni := BuildByteMap();
    hide Utf8;
    hide Letter;
    hide Codepoints;
    hide ByteOf;
    hide Text;
    hide BytesOf;
    out := [];
    for i := 0 to |ids|
      invariant out + Text(v, ids[i..]) == Text(v, ids)
    {
      var id := ids[i];
      TextHead(v, ids, i, out);
      if id < 0 || id >= |v.idToToken| {
        continue;
      }
      if id in v.specialIds {
        continue;
      }
      var tok := v.idToToken[id];
      if tok == [] {
        NoText();
        continue;
      }
      var cp, off := DecodeUtf8(tok);
      var bytes := Lookup(fromUni, cp);
      out := out + bytes;
    }
    TextEnd(v, ids, out);
  }

  lemma TextHead(v: Vocab, ids: seq<int>, i: nat, out: Sym)
    requires i < |ids|
    ensures out + Text(v, ids[i..]) == (out + IdText(v, ids[i])) + Text(v, ids[i + 1..])
  {
    assert ids[i..][1..] == ids[i + 1..];
  }

  lemma TextEnd(v: Vocab, ids: seq<int>, out: Sym)
    ensures out + Text(v, ids[|ids|..]) == out
  {
  }

  /** The bytes of a token's codepoints. */
  method Lookup(fromUni: map<int, int>, cp: seq<int>) returns (out: Sym)
    requires forall b: nat :: b < 256 ==> Letter(b) in fromUni && fromUni[Letter(b)] == b
    requires forall c :: c in fromUni ==> 0 <= fromUni[c] < 256 && Letter(fromUni[c]) == c
    ensures out == BytesOf(cp)
  {
    hide *;
    out := [];
    assert cp[0..] == cp;
    for i := 0 to |cp|
      invariant out + BytesOf(cp[i..]) == BytesOf(cp)
    {
      BytesHead(cp, i, out);
      if cp[i] in fromUni {
        ByteOfLetter(fromUni[cp[i]]);
        out := out + [fromUni[cp[i]]];
      } else {
        NotLetter(cp[i]);
        assert out + [] == out;
      }
    }
    BytesDone(cp, out);
  }

  lemma BytesHead(cp: seq<int>, i: nat, out: Sym)
    requires i < |cp|
    ensures out + BytesOf(cp[i..]) == (out + ByteOf(cp[i])) + BytesOf(cp[i + 1..])
  {
    hide ByteOf;
    assert cp[i..][1..] == cp[i + 1..];
  }

  lemma BytesDone(cp: seq<int>, out: Sym)
    ensures out + BytesOf(cp[|cp|..]) == out
  {
  }

  lemma NotLetter(c: int)
    requires forall b: nat :: b < 256 ==> Letter(b) != c
    ensures ByteOf(c) == []
  {
    hide Letter;
  }

  // ---------------------------------------------------------------- symbols

  /** Length of the symbol a lead byte announces. */
  function SymbolLen(c: int): (n: nat)
    ensures 1 <= n
  {
    if c >= 0xF0 then 4 else if c >= 0xE0 then 3 else if c >= 0xC0 then 2 else 1
  }

  /** A piece, split into its characters; substr stops at the end. */
  function Symbols(piece: Sym): (r: seq<Sym>)
    ensures NonEmpty(r) && Concat(r) == piece
    decreases |piece|
  {
    if piece == [] then []
    else
      var n := if SymbolLen(piece[0]) <= |piece| then SymbolLen(piece[0]) else |piece|;
      var r := [piece[..n]] + Symbols(piece[n..]);
      assert r[1..] == Symbols(piece[n..]);
      r
  }

  lemma SymbolsHead(piece: Sym, before: seq<Sym>)
    requires piece != []
    ensures
      var n := if SymbolLen(piece[0]) <= |piece| then SymbolLen(piece[0]) else |piece|;
      before + Symbols(piece) == (before + [piece[..n]]) + Symbols(piece[n..])
  {
    var n := if SymbolLen(piece[0]) <= |piece| then SymbolLen(piece[0]) else |piece|;
    assert Symbols(piece) == [piece[..n]] + Symbols(piece[n..]);
    hide Symbols;
    Associate(before, [piece[..n]], Symbols(piece[n..]));
  }

  method SplitSymbols(piece: Sym) returns (symbols: seq<Sym>)
    ensures symbols == Symbols(piece)
  {
    hide Symbols;
    symbols := [];
    var i := 0;
    while i < |piece|
      invariant i <= |piece| && symbols + Symbols(piece[i..]) == Symbols(piece)
    {
      var rest := piece[i..];
      var len := SymbolLen(rest[0]);
      var n := if len <= |rest| then len else |rest|;
      assert rest[n..] == piece[i + n..];
      SymbolsHead(rest, symbols);
      symbols := symbols + [rest[..n]];
      i := i + n;
    }
    assert piece[i..] == [];
  }

  // ---------------------------------------------------------------- merging

  /** The lowest rank, and its leftmost pair. */
  method FindBest(ranks: Ranks, symbols: seq<Sym>) returns (best: Best)
    requires 2 <= |symbols|
    ensures best == BestRule(ranks, symbols)
  {
    best := NoRule;
    for i := 0 to |symbols| - 1
      invariant best == BestIn(ranks, symbols, i)
    {
      var p := (symbols[i], symbols[i + 1]);
      if p in ranks && (best.NoRule? || ranks[p] < best.rank) {
        best := Rule(i, ranks[p]);
      }
    }
  }

  /** One pass. */
  method MergePass(symbols: seq<Sym>, a: Sym, b: Sym) returns (merged: seq<Sym>)
    ensures merged == MergeAll(symbols, a, b)
  {
    hide *;
    merged := [];
    var i := 0;
    PassText([], symbols, (a, b));
    while i < |symbols|
      invariant i <= |symbols| && merged + MergeAll(symbols[i..], a, b) == MergeAll(symbols, a, b)
    {
      var rest := symbols[i..];
      PassText(merged, rest, (a, b));
      if i + 1 < |symbols| && symbols[i] == a && symbols[i + 1] == b {
        assert rest[2..] == symbols[i + 2..];
        merged := merged + [a + b];
        i := i + 2;
      } else {
        assert rest[1..] == symbols[i + 1..];
        merged := merged + [symbols[i]];
        i := i + 1;
      }
    }
    assert symbols[i..] == [];
    PassText(merged, [], (a, b));
  }

  method MergeLoop(ranks: Ranks, start: seq<Sym>) returns (symbols: seq<Sym>)
    ensures symbols == Passes(ranks, start)
  {
    symbols := start;
    while |symbols| > 1
      invariant Passes(ranks, symbols) == Passes(ranks, start)
      decreases |symbols|
    {
      var best := FindBest(ranks, symbols);
      if best.NoRule? {
        break;
      }
      var a, b := symbols[best.at], symbols[best.at + 1];
      MergeShrinks(symbols, a, b, best.at);
      symbols := MergePass(symbols, a, b);
    }
  }

  // ---------------------------------------------------------------- pieces

  /** Ids of symbols; one that is not in the vocabulary is dropped. */
  function SymbolIds(v: Vocab, symbols: seq<Sym>): seq<int> {
    if symbols == [] then []
    else (if symbols[0] in v.tokenToId then [v.tokenToId[symbols[0]]] else []) + SymbolIds(v, symbols[1..])
  }

  /** A piece's ids: the piece itself when it is a token, else its merged symbols. */
  function PieceIds(v: Vocab, piece: Sym): seq<int> {
    if piece in v.tokenToId then [v.tokenToId[piece]] else SymbolIds(v, Passes(v.ranks, Symbols(piece)))
  }

  /** bpe_piece */
  method BpePiece(v: Vocab, piece: Sym) returns (ids: seq<int>)
    ensures ids == PieceIds(v, piece)
  {
    if piece in v.tokenToId {
      return [v.tokenToId[piece]];
    }
    var symbols := SplitSymbols(piece);
    symbols := MergeLoop(v.ranks, symbols);
    ids := [];
    hide SymbolIds;
    hide Passes;
    hide Symbols;
    for i := 0 to |symbols|
      invariant ids + SymbolIds(v, symbols[i..]) == SymbolIds(v, symbols)
    {
      SymbolIdsHead(v, symbols, i, ids);
      if symbols[i] in v.tokenToId {
        ids := ids + [v.tokenToId[symbols[i]]];
      }
    }
    NoSymbols(v, symbols, ids);
  }

  lemma SymbolIdsHead(v: Vocab, symbols: seq<Sym>, i: nat, ids: seq<int>)
    requires i < |symbols|
    ensures ids + SymbolIds(v, symbols[i..]) ==
              if symbols[i] in v.tokenToId then (ids + [v.tokenToId[symbols[i]]]) + SymbolIds(v, symbols[i + 1..])
              else ids + SymbolIds(v, symbols[i + 1..])
  {
    assert symbols[i..][1..] == symbols[i + 1..];
  }

  lemma NoSymbols(v: Vocab, symbols: seq<Sym>, ids: seq<int>)
    ensures ids + SymbolIds(v, symbols[|symbols|..]) == ids
  {
  }

  /** One piece the way the reference does it: one leftmost lowest-rank merge at a time. */
  function ReferencePiece(v: Vocab, piece: Sym): seq<int> {
    if piece in v.tokenToId then [v.tokenToId[piece]] else SymbolIds(v, OneByOne(v.ranks, Symbols(piece)))
  }

  lemma PieceIsReference(v: Vocab, piece: Sym)
    requires Ranked(v.ranks) && Ordered(v.ranks)
    ensures PieceIds(v, piece) == ReferencePiece(v, piece)
  {
    PassesAreSteps(v.ranks, Symbols(piece));
  }

  // ---------------------------------------------------------------- offsets

  /** Where codepoint `p` of `s` begins. */
  function Offset(s: Sym, p: nat): (o: nat)
    requires p <= |Codepoints(s)|
    ensures o <= |s| && (p == |Codepoints(s)| ==> o == |s|)
    decreases p
  {
    if p == 0 then 0 else CharLen(s) + Offset(s[CharLen(s)..], p - 1)
  }

  lemma OffsetTail(s: Sym, p: nat)
    requires 0 < p <= |Codepoints(s)|
    ensures CharLen(s) <= |s|
    ensures
      var rest := s[CharLen(s)..];
      && p - 1 <= |Codepoints(rest)| == |Codepoints(s)| - 1 && Codepoints(s)[p..] == Codepoints(rest)[p - 1..]
      && Offset(s, p) == CharLen(s) + Offset(rest, p - 1) && s[Offset(s, p)..] == rest[Offset(rest, p - 1)..]
  {
    hide CharLen;
    hide CharValue;
    assert Codepoints(s)[1..] == Codepoints(s[CharLen(s)..]);
  }

  lemma {:induction false} OffsetStep(s: Sym, p: nat)
    requires p < |Codepoints(s)|
    ensures Offset(s, p) < |s| && Codepoints(s[Offset(s, p)..]) == Codepoints(s)[p..]
    ensures Offset(s, p + 1) == Offset(s, p) + CharLen(s[Offset(s, p)..])
    decreases p
  {
    if p == 0 {
      assert s[0..] == s;
    } else {
      var rest := s[CharLen(s)..];
      OffsetTail(s, p);
      OffsetTail(s, p + 1);
      hide *;
      OffsetStep(rest, p - 1);
    }
  }

  lemma {:induction false} OffsetGrows(s: Sym, p: nat, e: nat)
    requires p <= e <= |Codepoints(s)|
    ensures Offset(s, p) <= Offset(s, e) && (p < e ==> Offset(s, p) < Offset(s, e))
    decreases e
  {
    if p < e {
      OffsetStep(s, e - 1);
      OffsetGrows(s, p, e - 1);
    }
  }

  // ---------------------------------------------------------------- plain text

  /** What encoding assumes of a loaded tokenizer. */
  ghost predicate Loaded(v: Vocab) {
    && Sane(v.tables) && 0 < v.digitRunMax
    && LiteralsOk(v.specials, v.firstBytes)
  }

  /** Where the expression's match at codepoint `p` ends. */
  ghost function PieceEnd(v: Vocab, s: Sym, p: nat): (e: nat)
    requires Loaded(v) && p < |Codepoints(s)|
    ensures p < e <= |Codepoints(s)| && Find(Pattern(v.tables, v.digitRunMax), Codepoints(s), p) == Match(e)
    ensures Offset(s, p) < Offset(s, e)
  {
    FoundEnd(v.tables, v.digitRunMax, Codepoints(s), p);
    var e := Find(Pattern(v.tables, v.digitRunMax), Codepoints(s), p).end;
    OffsetGrows(s, p, e);
    e
  }

  /** The ids of `s` from codepoint `p` on: the expression's matches, each piece in the byte alphabet. */
  ghost function PlainIds(v: Vocab, s: Sym, p: nat): seq<int>
    requires Loaded(v) && IsBytes(s) && p <= |Codepoints(s)|
    decreases |Codepoints(s)| - p
  {
    if p == |Codepoints(s)| then []
    else
      var e := PieceEnd(v, s, p);
      PieceIds(v, MapBytes(s[Offset(s, p)..Offset(s, e)])) + PlainIds(v, s, e)
  }

  /** encode_plain */
  method EncodePlain(v: Vocab, segment: Sym) returns (ids: seq<int>)
    requires Loaded(v) && IsBytes(segment)
    ensures ids == PlainIds(v, segment, 0)
  {
    hide *;
    ids := [];
    if segment == [] {
      NothingPlain(v, segment);
      return;
    }
    LoadedMeans(v);
    var cp, off := DecodeUtf8(segment);
    var toUni, fromUni := BuildByteMap();
    var p := 0;
    while p < |cp|
      invariant p <= |cp| && ids + PlainIds(v, segment, p) == PlainIds(v, segment, 0)
    {
      var e := PieceEnd(v, segment, p);
      var len := MatchPiece(v.tables, cp, p, v.digitRunMax);
      SliceBytes(segment, off[p], off[p + len]);
      var mapped := MapPiece(toUni, segment[off[p]..off[p + len]]);
      var piece := BpePiece(v, mapped);
      PlainHead(v, segment, p, p + len, ids);
      ids := ids + piece;
      p := p + len;
    }
    PlainDone(v, segment, ids);
  }

  lemma NothingPlain(v: Vocab, s: Sym)
    requires Loaded(v) && s == []
    ensures PlainIds(v, s, 0) == []
  {
  }

  lemma PlainDone(v: Vocab, s: Sym, ids: seq<int>)
    requires Loaded(v) && IsBytes(s)
    ensures ids + PlainIds(v, s, |Codepoints(s)|) == ids
  {
  }

  lemma LoadedMeans(v: Vocab)
    requires Loaded(v)
    ensures Sane(v.tables) && 0 < v.digitRunMax && LiteralsOk(v.specials, v.firstBytes)
  {
  }

  lemma PlainHead(v: Vocab, s: Sym, p: nat, e: nat, ids: seq<int>)
    requires Loaded(v) && IsBytes(s) && p < |Codepoints(s)| && e == PieceEnd(v, s, p)
    ensures IsBytes(s[Offset(s, p)..Offset(s, e)])
    ensures ids + PlainIds(v, s, p) == (ids + PieceIds(v, MapBytes(s[Offset(s, p)..Offset(s, e)]))) + PlainIds(v, s, e)
  {
    hide PieceEnd;
    hide PieceIds;
    hide MapBytes;
    hide Codepoints;
    hide Offset;
  }

  method MapPiece(toUni: seq<Sym>, bs: Sym) returns (mapped: Sym)
    requires IsBytes(bs) && |toUni| == 256 && forall b: nat :: b < 256 ==> Letter(b) < 0x200 && toUni[b] == Utf8(Letter(b))
    ensures mapped == MapBytes(bs)
  {
    hide Letter;
    hide Utf8;
    mapped := [];
    for i := 0 to |bs|
      invariant mapped + MapBytes(bs[i..]) == MapBytes(bs)
    {
      assert bs[i..][1..] == bs[i + 1..];
      Associate(mapped, toUni[bs[i]], MapBytes(bs[i + 1..]));
      mapped := mapped + toUni[bs[i]];
    }
    assert bs[|bs|..] == [];
  }

  /** The ids are the reference's: the expression's pieces, each merged one pair at a time. */
  ghost function ReferenceIds(v: Vocab, s: Sym, p: nat): seq<int>
    requires Loaded(v) && IsBytes(s) && p <= |Codepoints(s)|
    decreases |Codepoints(s)| - p
  {
    if p == |Codepoints(s)| then []
    else
      var e := PieceEnd(v, s, p);
      ReferencePiece(v, MapBytes(s[Offset(s, p)..Offset(s, e)])) + ReferenceIds(v, s, e)
  }

  lemma {:induction false} PlainIsReference(v: Vocab, s: Sym, p: nat)
    requires Loaded(v) && IsBytes(s) && p <= |Codepoints(s)| && Ranked(v.ranks) && Ordered(v.ranks)
    ensures PlainIds(v, s, p) == ReferenceIds(v, s, p)
    decreases |Codepoints(s)| - p
  {
    hide PieceEnd;
    hide PieceIds;
    hide ReferencePiece;
    hide MapBytes;
    hide Codepoints;
    hide Offset;
    if p < |Codepoints(s)| {
      var e := PieceEnd(v, s, p);
      PieceIsReference(v, MapBytes(s[Offset(s, p)..Offset(s, e)]));
      PlainIsReference(v, s, e);
    }
  }

  // ---------------------------------------------------------------- decode(encode(s)) == s

  /** Byte symbols and merge products are tokens, and what is written in the byte alphabet keeps its id,
      an ordinary one unless it spells an added token's text. */
  ghost predicate Faithful(v: Vocab) {
    && (forall b: nat :: b < 256 ==> MapBytes([b]) in v.tokenToId)
    && (forall p :: p in v.ranks ==> p.0 + p.1 in v.tokenToId)
    && forall bs: Sym :: bs != [] && IsBytes(bs) && MapBytes(bs) in v.tokenToId && !IsLiteral(v.specials, bs) ==>
         var id := v.tokenToId[MapBytes(bs)];
         0 <= id < |v.idToToken| && id !in v.specialIds && v.idToToken[id] == MapBytes(bs)
  }

  /** A token in the byte alphabet. */
  ghost predicate Written(v: Vocab, sym: Sym) {
    sym in v.tokenToId && exists bs: Sym :: bs != [] && IsBytes(bs) && sym == MapBytes(bs)
  }

  ghost predicate AllWritten(v: Vocab, syms: seq<Sym>) {
    forall i :: 0 <= i < |syms| ==> Written(v, syms[i])
  }

  lemma {:induction false} SymbolsWritten(v: Vocab, bs: Sym)
    requires Faithful(v) && IsBytes(bs)
    ensures AllWritten(v, Symbols(MapBytes(bs)))
    decreases |bs|
  {
    hide Symbols;
    hide Faithful;
    hide Written;
    if bs != [] {
      hide MapBytes;
      var letter, rest := MapBytes([bs[0]]), MapBytes(bs[1..]);
      MapSplit([bs[0]], bs[1..]);
      assert bs == [bs[0]] + bs[1..];
      LetterSymbol(bs[0], rest);
      LetterWritten(v, bs[0]);
      SymbolsWritten(v, bs[1..]);
    } else {
      assert MapBytes(bs) == [];
      assert Concat(Symbols([])) == [];
    }
  }

  lemma LetterWritten(v: Vocab, b: int)
    requires Faithful(v) && 0 <= b < 256
    ensures Written(v, MapBytes([b]))
  {
    hide MapBytes;
    assert [b] != [] && IsBytes([b]);
  }

  /** A byte's spelling is one symbol. */
  lemma LetterSymbol(b: int, rest: Sym)
    requires 0 <= b < 256
    ensures Symbols(MapBytes([b]) + rest) == [MapBytes([b])] + Symbols(rest)
  {
    LetterRange(b);
    var letter := Utf8(Letter(b));
    assert MapBytes([b]) == letter by {
      assert [b][1..] == [] && MapBytes([]) == [];
    }
    var piece := letter + rest;
    assert piece[0] == letter[0] && SymbolLen(piece[0]) == |letter|;
    hide *;
    assert piece[..|letter|] == letter && piece[|letter|..] == rest;
    SymbolsHead(piece, []);
    assert [] + Symbols(piece) == Symbols(piece) && [] + [letter] == [letter];
  }

  lemma ProductWritten(v: Vocab, x: Sym, y: Sym)
    requires Faithful(v) && Written(v, x) && Written(v, y) && (x, y) in v.ranks
    ensures Written(v, x + y)
  {
    var a: Sym :| a != [] && IsBytes(a) && x == MapBytes(a);
    var b: Sym :| b != [] && IsBytes(b) && y == MapBytes(b);
    MapSplit(a, b);
    assert (x, y).0 + (x, y).1 in v.tokenToId;
    assert x + y == MapBytes(a + b);
  }

  lemma {:induction false} MergedWritten(v: Vocab, syms: seq<Sym>, a: Sym, b: Sym)
    requires Faithful(v) && AllWritten(v, syms) && (a, b) in v.ranks
    ensures AllWritten(v, MergeAll(syms, a, b))
    decreases |syms|
  {
    hide Written;
    hide Faithful;
    if |syms| >= 2 {
      if syms[0] == a && syms[1] == b {
        assert Written(v, syms[0]) && Written(v, syms[1]);
        ProductWritten(v, a, b);
        MergedWritten(v, syms[2..], a, b);
      } else {
        MergedWritten(v, syms[1..], a, b);
      }
    }
  }

  lemma {:induction false} PassesWritten(v: Vocab, syms: seq<Sym>)
    requires Faithful(v) && AllWritten(v, syms)
    ensures AllWritten(v, Passes(v.ranks, syms))
    decreases |syms|
  {
    hide AllWritten;
    hide Faithful;
    var b := BestRule(v.ranks, syms);
    if b.Rule? {
      MergeShrinks(syms, syms[b.at], syms[b.at + 1], b.at);
      MergedWritten(v, syms, syms[b.at], syms[b.at + 1]);
      PassesWritten(v, MergeAll(syms, syms[b.at], syms[b.at + 1]));
    }
  }

  lemma TokenText(v: Vocab, bs: Sym)
    requires Faithful(v) && bs != [] && IsBytes(bs) && MapBytes(bs) in v.tokenToId && !IsLiteral(v.specials, bs)
    ensures IdText(v, v.tokenToId[MapBytes(bs)]) == bs
  {
    Unmapped(bs);
  }

  /** The bytes that written symbols spell. */
  lemma {:induction false} SymbolsBytes(v: Vocab, syms: seq<Sym>) returns (bs: Sym)
    requires AllWritten(v, syms)
    ensures IsBytes(bs) && Concat(syms) == MapBytes(bs)
    decreases |syms|
  {
    if syms == [] {
      bs := [];
    } else {
      assert Written(v, syms[0]);
      var first: Sym :| first != [] && IsBytes(first) && syms[0] == MapBytes(first);
      hide MapBytes;
      var tail := SymbolsBytes(v, syms[1..]);
      MapSplit(first, tail);
      bs := first + tail;
    }
  }

  /** Bytes are determined by their spelling. */
  lemma Spelled(a: Sym, b: Sym)
    requires IsBytes(a) && IsBytes(b) && MapBytes(a) == MapBytes(b)
    ensures a == b
  {
    Unmapped(a);
    Unmapped(b);
  }

  lemma FirstBytes(v: Vocab, syms: seq<Sym>, bs: Sym) returns (first: Sym, tail: Sym)
    requires syms != [] && AllWritten(v, syms) && IsBytes(bs) && Concat(syms) == MapBytes(bs)
    ensures IsBytes(first) && IsBytes(tail) && first != [] && bs == first + tail
    ensures syms[0] == MapBytes(first) && syms[0] in v.tokenToId && Concat(syms[1..]) == MapBytes(tail)
  {
    assert Written(v, syms[0]);
    first :| first != [] && IsBytes(first) && syms[0] == MapBytes(first);
    hide MapBytes;
    tail := SymbolsBytes(v, syms[1..]);
    MapSplit(first, tail);
    Spelled(bs, first + tail);
  }

  /** Symbols that spell text without added tokens decode to it: each stands for a part of the text, so
      none is an added token. */
  lemma {:induction false} SymbolsText(v: Vocab, syms: seq<Sym>, bs: Sym)
    requires Faithful(v) && AllWritten(v, syms) && IsBytes(bs) && Concat(syms) == MapBytes(bs) && Clean(v.specials, bs)
    ensures Text(v, SymbolIds(v, syms)) == bs
    decreases |syms|
  {
    if syms == [] {
      Unmapped(bs);
    } else {
      hide *;
      var first, tail := FirstBytes(v, syms, bs);
      CleanSplit(v.specials, bs, first, tail);
      TokenText(v, first);
      WrittenTail(v, syms);
      SymbolsText(v, syms[1..], tail);
      FirstId(v, syms);
    }
  }

  lemma WrittenTail(v: Vocab, syms: seq<Sym>)
    requires syms != [] && AllWritten(v, syms)
    ensures AllWritten(v, syms[1..])
  {
    hide Written;
  }

  lemma FirstId(v: Vocab, syms: seq<Sym>)
    requires syms != [] && syms[0] in v.tokenToId
    ensures Text(v, SymbolIds(v, syms)) == IdText(v, v.tokenToId[syms[0]]) + Text(v, SymbolIds(v, syms[1..]))
  {
    hide IdText;
    var id := v.tokenToId[syms[0]];
    assert SymbolIds(v, syms) == [id] + SymbolIds(v, syms[1..]);
    assert ([id] + SymbolIds(v, syms[1..]))[1..] == SymbolIds(v, syms[1..]);
  }

  lemma PieceText(v: Vocab, bs: Sym)
    requires Faithful(v) && bs != [] && IsBytes(bs) && Clean(v.specials, bs)
    ensures Text(v, PieceIds(v, MapBytes(bs))) == bs
  {
    var piece := MapBytes(bs);
    CleanPart(v.specials, bs, 0, |bs|);
    assert bs[0..|bs|] == bs;
    if piece in v.tokenToId {
      TokenText(v, bs);
      OneId(v, v.tokenToId[piece]);
    } else {
      hide Faithful;
      hide MapBytes;
      SymbolsWritten(v, bs);
      PassesWritten(v, Symbols(piece));
      PassesConcat(v.ranks, Symbols(piece));
      SymbolsText(v, Passes(v.ranks, Symbols(piece)), bs);
    }
  }

  lemma OneId(v: Vocab, id: int)
    ensures Text(v, []) == [] && Text(v, [id]) == IdText(v, id)
  {
    assert [id][1..] == [];
  }

  lemma {:induction false} PlainText(v: Vocab, s: Sym, p: nat)
    requires Loaded(v) && Faithful(v) && IsBytes(s) && p <= |Codepoints(s)| && Clean(v.specials, s)
    ensures Text(v, PlainIds(v, s, p)) == s[Offset(s, p)..]
    decreases |Codepoints(s)| - p
  {
    hide *;
    if p < |Codepoints(s)| {
      var e := PieceEnd(v, s, p);
      PlainHead(v, s, p, e, []);
      var bs := s[Offset(s, p)..Offset(s, e)];
      SliceBytes(s, Offset(s, p), Offset(s, e));
      CleanPart(v.specials, s, Offset(s, p), Offset(s, e));
      PieceText(v, bs);
      PlainText(v, s, e);
      TextSplit(v, PieceIds(v, MapBytes(bs)), PlainIds(v, s, e));
      assert [] + PlainIds(v, s, p) == PlainIds(v, s, p);
      assert [] + PieceIds(v, MapBytes(bs)) == PieceIds(v, MapBytes(bs));
      assert s[Offset(s, p)..] == bs + s[Offset(s, e)..];
    } else {
      PlainDone(v, s, []);
      assert [] + PlainIds(v, s, p) == PlainIds(v, s, p);
      OneId(v, 0);
      assert s[|s|..] == [];
    }
  }

  // ---------------------------------------------------------------- added tokens

  /** Added tokens are cut out where they stand; the text between them is plain. */
  ghost function Encoded(v: Vocab, text: Sym, start: nat, i: nat): seq<int>
    requires Loaded(v) && IsBytes(text) && start <= i <= |text|
    decreases |text| - i
  {
    if i == |text| then PlainIds(v, text[start..], 0)
    else
      var k := FirstLiteral(v.specials, text, i, 0);
      if k == |v.specials| then Encoded(v, text, start, i + 1)
      else
        var next := i + |v.specials[k].0|;
        PlainIds(v, text[start..i], 0) + [v.specials[k].1] + Encoded(v, text, next, next)
  }

  /** encode */
  method Encode(v: Vocab, text: Sym) returns (ids: seq<int>)
    requires Loaded(v) && IsBytes(text)
    ensures ids == Encoded(v, text, 0, 0)
  {
    hide *;
    LoadedMeans(v);
    ids := [];
    var runStart: nat, i: nat := 0, 0;
    while i < |text|
      invariant runStart <= i <= |text| && ids + Encoded(v, text, runStart, i) == Encoded(v, text, 0, 0)
    {
      var k := |v.specials|;
      if text[i] in v.firstBytes {
        k := FindLiteral(v.specials, text, i);
      } else {
        Prefilter(v.specials, v.firstBytes, text, i);
      }
      EncodedHead(v, text, runStart, i, ids);
      if k < |v.specials| {
        SliceBytes(text, runStart, i);
        var plain := EncodePlain(v, text[runStart..i]);
        ids := ids + plain + [v.specials[k].1];
        LiteralFits(v.specials, v.firstBytes, text, i, k);
        i := i + |v.specials[k].0|;
        runStart := i;
      } else {
        i := i + 1;
      }
    }
    EncodedEnd(v, text, runStart);
    var last := EncodePlain(v, text[runStart..]);
    ids := ids + last;
  }

  lemma EncodedEnd(v: Vocab, text: Sym, start: nat)
    requires Loaded(v) && IsBytes(text) && start <= |text|
    ensures IsBytes(text[start..]) && Encoded(v, text, start, |text|) == PlainIds(v, text[start..], 0)
  {
    hide PlainIds;
  }

  lemma EncodedIs(v: Vocab, text: Sym, start: nat, i: nat)
    requires Loaded(v) && IsBytes(text) && start <= i < |text|
    ensures IsBytes(text[start..i])
    ensures
      var k := FirstLiteral(v.specials, text, i, 0);
      if k == |v.specials| then Encoded(v, text, start, i) == Encoded(v, text, start, i + 1)
      else
        var next := i + |v.specials[k].0|;
        && next <= |text|
        && Encoded(v, text, start, i) == PlainIds(v, text[start..i], 0) + [v.specials[k].1] + Encoded(v, text, next, next)
  {
    hide PlainIds;
    hide FirstLiteral;
  }

  lemma EncodedHead(v: Vocab, text: Sym, start: nat, i: nat, ids: seq<int>)
    requires Loaded(v) && IsBytes(text) && start <= i < |text|
    ensures IsBytes(text[start..i])
    ensures
      var k := FirstLiteral(v.specials, text, i, 0);
      if k == |v.specials| then Encoded(v, text, start, i) == Encoded(v, text, start, i + 1)
      else
        var next := i + |v.specials[k].0|;
        && next <= |text|
        && ids + Encoded(v, text, start, i)
           == (ids + PlainIds(v, text[start..i], 0) + [v.specials[k].1]) + Encoded(v, text, next, next)
  {
    hide *;
    EncodedIs(v, text, start, i);
    var k := FirstLiteral(v.specials, text, i, 0);
    if k < |v.specials| {
      var next := i + |v.specials[k].0|;
      Associate(ids, PlainIds(v, text[start..i], 0) + [v.specials[k].1], Encoded(v, text, next, next));
      Associate(ids, PlainIds(v, text[start..i], 0), [v.specials[k].1]);
    }
  }

  lemma {:induction false} EncodedPlain(v: Vocab, text: Sym, i: nat)
    requires Loaded(v) && IsBytes(text) && i <= |text| && NoLiteral(v.specials, text)
    ensures Encoded(v, text, 0, i) == PlainIds(v, text, 0)
    decreases |text| - i
  {
    hide *;
    if i == |text| {
      EncodedEnd(v, text, 0);
      assert text[0..] == text;
    } else {
      EncodedHead(v, text, 0, i, []);
      NoneHere(v.specials, text, i);
      EncodedPlain(v, text, i + 1);
    }
  }

  /** Text with no added-token literal in it comes back unchanged, whatever its bytes. */
  lemma RoundTrip(v: Vocab, text: Sym)
    requires Loaded(v) && Faithful(v) && IsBytes(text) && NoLiteral(v.specials, text)
    ensures Text(v, Encoded(v, text, 0, 0)) == text
  {
    NoLiteralClean(v.specials, text);
    EncodedPlain(v, text, 0);
    PlainText(v, text, 0);
    assert text[0..] == text;
  }

  // ---------------------------------------------------------------- a vocabulary that meets the assumptions

  const ADDED: Sym := [0x3C, 0x61, 0x3E]

  function SampleToken(id: nat): Sym
    requires id <= 256
  {
    if id < 256 then MapBytes([id]) else ADDED
  }

  lemma SampleTokensDiffer(a: nat, b: nat)
    requires a <= 256 && b <= 256 && SampleToken(a) == SampleToken(b)
    ensures a == b
  {
    AddedSpelled();
    var x, y: Sym := if a < 256 then [a] else ADDED, if b < 256 then [b] else ADDED;
    assert IsBytes(x) && IsBytes(y) && SampleToken(a) == MapBytes(x) && SampleToken(b) == MapBytes(y);
    hide MapBytes;
    Spelled(x, y);
  }

  lemma AddedSpelled()
    ensures IsBytes(ADDED) && MapBytes(ADDED) == ADDED
  {
    assert MapBytes([0x3E]) == [0x3E] + MapBytes([]) by { assert [0x3E][1..] == []; }
    assert MapBytes([0x61, 0x3E]) == [0x61] + MapBytes([0x3E]) by { assert [0x61, 0x3E][1..] == [0x3E]; }
    assert MapBytes(ADDED) == [0x3C] + MapBytes([0x61, 0x3E]) by { assert ADDED[1..] == [0x61, 0x3E]; }
  }

  /** The assumptions fit real vocabularies: here is one with an added special token in it. */
  lemma FaithfulWithSpecial(tables: Tables) returns (v: Vocab)
    requires Sane(tables)
    ensures Loaded(v) && Faithful(v) && ADDED in v.tokenToId && v.tokenToId[ADDED] in v.specialIds && IsLiteral(v.specials, ADDED)
  {
    var ids := SampleIds(257);
    v := Vocab(ids, seq(257, id requires 0 <= id < 257 => SampleToken(id)), map[], {256}, [(ADDED, 256)], {ADDED[0]}, tables, 1);
    assert v.specials[0].0 == ADDED;
    SampleToken256();
    hide SampleToken;
    hide MapBytes;
    forall bs: Sym | bs != [] && IsBytes(bs) && MapBytes(bs) in v.tokenToId && !IsLiteral(v.specials, bs)
      ensures
        var id := v.tokenToId[MapBytes(bs)];
        0 <= id < |v.idToToken| && id !in v.specialIds && v.idToToken[id] == MapBytes(bs)
    {
      if v.tokenToId[MapBytes(bs)] == 256 {
        AddedSpelled();
        Spelled(bs, ADDED);
      }
    }
  }

  lemma SampleToken256()
    ensures SampleToken(256) == ADDED
  {
  }

  lemma {:induction false} SampleIds(n: nat) returns (ids: map<Sym, int>)
    requires n <= 257
    ensures forall id: nat :: id < n ==> SampleToken(id) in ids && ids[SampleToken(id)] == id
    ensures forall t :: t in ids ==> 0 <= ids[t] < n && t == SampleToken(ids[t])
    ensures forall b: nat :: b < 256 && b < n ==> MapBytes([b]) in ids
    decreases n
  {
    ids := map[];
    if n > 0 {
      var fewer := SampleIds(n - 1);
      forall id: nat | id < n - 1
        ensures SampleToken(id) != SampleToken(n - 1)
      {
        if SampleToken(id) == SampleToken(n - 1) {
          SampleTokensDiffer(id, n - 1);
        }
      }
      assert n - 1 < 256 ==> SampleToken(n - 1) == MapBytes([n - 1]);
      hide *;
      ids := fewer[SampleToken(n - 1) := n - 1];
    }
  }
}
