/** The pre-tokenizer split (src/tokenizer/bpe.cpp, match_piece): the hand-rolled matcher against the
    regular expression it replicates, read the way a backtracking engine reads it. */
module Pretokenizer {
  type Text = seq<int>

  const CR := 0x0D
  const LF := 0x0A
  const SPACE := 0x20
  const APOSTROPHE := 0x27

  /** The Unicode classes the expression needs, as the generated tables give them. */
  datatype Tables = Tables(letter: int -> bool, number: int -> bool, space: int -> bool)

  /** Classes do not overlap, and ASCII blanks are white space. */
  ghost predicate Sane(t: Tables) {
    && (forall c :: !(t.letter(c) && t.number(c)) && !(t.letter(c) && t.space(c)) && !(t.number(c) && t.space(c)))
    && t.space(0x0D) && t.space(0x0A) && t.space(0x20)
  }

  predicate Newline(c: int) { c == CR || c == LF }
  predicate Symbol(t: Tables, c: int) { !t.space(c) && !t.letter(c) && !t.number(c) }
  function AsciiLower(c: int): int { if 0x41 <= c <= 0x5A then c + 32 else c }

  // ---------------------------------------------------------------- regular expressions, backtracking

  datatype Regex =
    | Char(cls: int -> bool)
    | Cat(first: Regex, second: Regex)
    | Or(left: Regex, right: Regex)
    | Opt(inner: Regex)
    | Star(cls: int -> bool)
    | UpTo(cls: int -> bool, max: nat)
    | NotBefore(cls: int -> bool)

  /** Where a match starting at `p` may end, in the order a backtracking engine tries them: ordered
      choice, greedy quantifiers, and a negative lookahead that consumes nothing. */
  function Ends(r: Regex, s: Text, p: nat): (ends: seq<nat>)
    requires p <= |s|
    ensures forall i :: 0 <= i < |ends| ==> p <= ends[i] <= |s|
    decreases r, |s| - p
  {
    match r
    case Char(cls) => if p < |s| && cls(s[p]) then [p + 1] else []
    case Cat(a, b) => AllEnds(b, s, Ends(a, s, p), p)
    case Or(a, b) => Ends(a, s, p) + Ends(b, s, p)
    case Opt(a) => Ends(a, s, p) + [p]
    case Star(cls) => StarEnds(cls, s, p)
    case UpTo(cls, max) => UpToEnds(cls, max, s, p)
    case NotBefore(cls) => if p < |s| && cls(s[p]) then [] else [p]
  }

  /** `b` from every end of what precedes it, first ends first. */
  function AllEnds(b: Regex, s: Text, from: seq<nat>, p: nat): (ends: seq<nat>)
    requires p <= |s| && forall i :: 0 <= i < |from| ==> p <= from[i] <= |s|
    ensures forall i :: 0 <= i < |ends| ==> p <= ends[i] <= |s|
    decreases b, |s| + 1, |from|
  {
    if from == [] then [] else Ends(b, s, from[0]) + AllEnds(b, s, from[1..], p)
  }

  function StarEnds(cls: int -> bool, s: Text, p: nat): (ends: seq<nat>)
    requires p <= |s|
    ensures forall i :: 0 <= i < |ends| ==> p <= ends[i] <= |s|
    decreases |s| - p
  {
    if p < |s| && cls(s[p]) then StarEnds(cls, s, p + 1) + [p] else [p]
  }

  function UpToEnds(cls: int -> bool, max: nat, s: Text, p: nat): (ends: seq<nat>)
    requires p <= |s|
    ensures forall i :: 0 <= i < |ends| ==> p <= ends[i] <= |s|
    decreases max
  {
    if 0 < max && p < |s| && cls(s[p]) then UpToEnds(cls, max - 1, s, p + 1) + [p] else [p]
  }

  /** One or more. */
  function Plus(cls: int -> bool): Regex { Cat(Char(cls), Star(cls)) }

  // The expression's classes are written out; the matcher below has its own.

  /** A letter of either case. */
  function Letter(lower: int): Regex { Char(c => c == lower || c == lower - 0x20) }

  function Quote(tail: Regex): Regex { Cat(Char(c => c == 0x27), tail) }

  /** (?i:'s|'t|'re|'ve|'m|'ll|'d) */
  function Contractions(): Regex {
    Or(Quote(Letter(0x73)), Or(Quote(Letter(0x74)), Or(Quote(Cat(Letter(0x72), Letter(0x65))),
    Or(Quote(Cat(Letter(0x76), Letter(0x65))), Or(Quote(Letter(0x6D)), Or(Quote(Cat(Letter(0x6C), Letter(0x6C))), Quote(Letter(0x64))))))))
  }

  function Lead(t: Tables): int -> bool { c => c != 0x0D && c != 0x0A && !t.letter(c) && !t.number(c) }
  function NewlineClass(): int -> bool { c => c == 0x0D || c == 0x0A }
  function SymbolClass(t: Tables): int -> bool { c => !t.space(c) && !t.letter(c) && !t.number(c) }
  function SpaceClass(): int -> bool { c => c == 0x20 }
  function NonSpace(t: Tables): int -> bool { c => !t.space(c) }

  /** [^\r\n\p{L}\p{N}]?\p{L}+ */
  function Words(t: Tables): Regex {
    Cat(Opt(Char(Lead(t))), Plus(t.letter))
  }

  /** \p{N}{1,max} */
  function Numbers(t: Tables, max: nat): Regex
    requires 0 < max
  {
    Cat(Char(t.number), UpTo(t.number, max - 1))
  }

  /**  ?[^\s\p{L}\p{N}]+[\r\n]* */
  function Symbols(t: Tables): Regex {
    Cat(Opt(Char(SpaceClass())), Cat(Plus(SymbolClass(t)), Star(NewlineClass())))
  }

  /** \s*[\r\n]+ */
  function Lines(t: Tables): Regex { Cat(Star(t.space), Plus(NewlineClass())) }

  /** \s+(?!\S) */
  function Blanks(t: Tables): Regex { Cat(Plus(t.space), NotBefore(NonSpace(t))) }

  /** The whole expression, alternatives in their listed order. */
  function Pattern(t: Tables, max: nat): Regex
    requires 0 < max
  {
    Or(Contractions(), Or(Words(t), Or(Numbers(t, max), Or(Symbols(t), Or(Lines(t), Or(Blanks(t), Plus(t.space)))))))
  }

  // ---------------------------------------------------------------- greedy runs

  /** End of the maximal run of `cls` from `p`. */
  function RunEnd(cls: int -> bool, s: Text, p: nat): (e: nat)
    requires p <= |s|
    ensures p <= e <= |s| && (forall k :: p <= k < e ==> cls(s[k])) && (e < |s| ==> !cls(s[e]))
    decreases |s| - p
  {
    if p < |s| && cls(s[p]) then RunEnd(cls, s, p + 1) else p
  }

  /** hi, hi - 1, ..., lo */
  function Down(hi: nat, lo: nat): (r: seq<nat>)
    requires lo <= hi
    ensures |r| == hi - lo + 1 && forall i :: 0 <= i < |r| ==> r[i] == hi - i
  {
    seq(hi - lo + 1, i requires 0 <= i <= hi - lo => hi - i)
  }

  lemma {:induction false} StarIsDown(cls: int -> bool, s: Text, p: nat)
    requires p <= |s|
    ensures StarEnds(cls, s, p) == Down(RunEnd(cls, s, p), p)
    decreases |s| - p
  {
    if p < |s| && cls(s[p]) {
      StarIsDown(cls, s, p + 1);
    }
  }

  lemma PlusIsDown(cls: int -> bool, s: Text, p: nat)
    requires p <= |s|
    ensures Ends(Plus(cls), s, p) == if p < |s| && cls(s[p]) then Down(RunEnd(cls, s, p), p + 1) else []
  {
    var from := Ends(Char(cls), s, p);
    if from != [] {
      assert from[1..] == [];
      assert AllEnds(Star(cls), s, from, p) == Ends(Star(cls), s, p + 1) + [];
      StarIsDown(cls, s, p + 1);
    }
  }

  /** A run with a bound. */
  function BoundedEnd(cls: int -> bool, max: nat, s: Text, p: nat): (e: nat)
    requires p <= |s|
    ensures p <= e <= |s|
    decreases max
  {
    if 0 < max && p < |s| && cls(s[p]) then BoundedEnd(cls, max - 1, s, p + 1) else p
  }

  lemma {:induction false} UpToFirst(cls: int -> bool, max: nat, s: Text, p: nat)
    requires p <= |s|
    ensures UpToEnds(cls, max, s, p) != [] && UpToEnds(cls, max, s, p)[0] == BoundedEnd(cls, max, s, p)
    decreases max
  {
    if 0 < max && p < |s| && cls(s[p]) {
      UpToFirst(cls, max - 1, s, p + 1);
    }
  }

  // ---------------------------------------------------------------- the alternatives

  /** The first end of a sequence: from the first end of its head that the tail can follow. */
  lemma {:induction false} FirstThrough(b: Regex, s: Text, from: seq<nat>, p: nat, k: nat)
    requires p <= |s| && (forall i :: 0 <= i < |from| ==> p <= from[i] <= |s|) && k < |from|
    requires forall i :: 0 <= i < k ==> Ends(b, s, from[i]) == []
    requires Ends(b, s, from[k]) != []
    ensures AllEnds(b, s, from, p) != [] && AllEnds(b, s, from, p)[0] == Ends(b, s, from[k])[0]
    decreases k
  {
    if k > 0 {
      assert Ends(b, s, from[0]) == [];
      assert AllEnds(b, s, from, p) == AllEnds(b, s, from[1..], p);
      FirstThrough(b, s, from[1..], p, k - 1);
    }
  }

  lemma {:induction false} NoneThrough(b: Regex, s: Text, from: seq<nat>, p: nat)
    requires p <= |s| && (forall i :: 0 <= i < |from| ==> p <= from[i] <= |s|)
    requires forall i :: 0 <= i < |from| ==> Ends(b, s, from[i]) == []
    ensures AllEnds(b, s, from, p) == []
    decreases |from|
  {
    if from != [] {
      NoneThrough(b, s, from[1..], p);
    }
  }

  datatype Found = NoMatch | Match(end: nat)

  /** What the engine finds at `p`: the first end it tries. */
  function Find(r: Regex, s: Text, p: nat): Found
    requires p <= |s|
  {
    var ends := Ends(r, s, p);
    if ends == [] then NoMatch else Match(ends[0])
  }

  lemma FindIs(r: Regex, s: Text, p: nat)
    requires p <= |s|
    ensures Find(r, s, p) == if Ends(r, s, p) == [] then NoMatch else Match(Ends(r, s, p)[0])
  {
    hide Ends;
  }

  lemma CatEnds(a: Regex, b: Regex, s: Text, p: nat)
    requires p <= |s|
    ensures Ends(Cat(a, b), s, p) == AllEnds(b, s, Ends(a, s, p), p)
  {
    hide AllEnds;
  }

  lemma StarFirst(cls: int -> bool, s: Text, p: nat)
    requires p <= |s|
    ensures Ends(Star(cls), s, p) != [] && Ends(Star(cls), s, p)[0] == RunEnd(cls, s, p)
  {
    hide RunEnd;
    StarIsDown(cls, s, p);
  }

  lemma FindOr(a: Regex, b: Regex, s: Text, p: nat)
    requires p <= |s|
    ensures Find(Or(a, b), s, p) == if Find(a, s, p).Match? then Find(a, s, p) else Find(b, s, p)
  {
  }

  lemma RunFirst(cls: int -> bool, s: Text, p: nat)
    requires p < |s| && cls(s[p])
    ensures p + 1 <= RunEnd(cls, s, p) && Down(RunEnd(cls, s, p), p + 1)[0] == RunEnd(cls, s, p)
    ensures Find(Plus(cls), s, p) == Match(RunEnd(cls, s, p))
  {
    PlusIsDown(cls, s, p);
  }

  lemma FindNone(cls: int -> bool, s: Text, p: nat)
    requires p <= |s| && !(p < |s| && cls(s[p]))
    ensures Ends(Plus(cls), s, p) == [] && Find(Plus(cls), s, p) == NoMatch
  {
    PlusIsDown(cls, s, p);
  }

  /** An optional lead is tried first, then given back. */
  lemma FindLed(cls: int -> bool, r: Regex, s: Text, p: nat)
    requires p < |s|
    ensures Find(Cat(Opt(Char(cls)), r), s, p)
         == if cls(s[p]) && Find(r, s, p + 1).Match? then Find(r, s, p + 1) else Find(r, s, p)
  {
    LeadEnds(cls, r, s, p);
    hide Ends;
    hide AllEnds;
    if cls(s[p]) {
      Either(r, s, p + 1, p, p);
    } else {
      Only(r, s, p);
    }
  }

  lemma LeadEnds(cls: int -> bool, r: Regex, s: Text, p: nat)
    requires p < |s|
    ensures Ends(Cat(Opt(Char(cls)), r), s, p) == AllEnds(r, s, if cls(s[p]) then [p + 1, p] else [p], p)
  {
    assert Ends(Opt(Char(cls)), s, p) == Ends(Char(cls), s, p) + [p];
    assert Ends(Opt(Char(cls)), s, p) == if cls(s[p]) then [p + 1, p] else [p];
  }

  function First(ends: seq<nat>): Found {
    if ends == [] then NoMatch else Match(ends[0])
  }

  lemma Only(r: Regex, s: Text, p: nat)
    requires p <= |s|
    ensures First(AllEnds(r, s, [p], p)) == Find(r, s, p)
  {
    assert [p][1..] == [];
    hide Ends;
  }

  lemma Either(r: Regex, s: Text, a: nat, b: nat, p: nat)
    requires p <= a <= |s| && p <= b <= |s|
    ensures First(AllEnds(r, s, [a, b], p)) == if Find(r, s, a).Match? then Find(r, s, a) else Find(r, s, b)
  {
    hide Ends;
    hide AllEnds;
    AllEndsHead(r, s, [a, b], p);
    AllEndsHead(r, s, [b], p);
    NoneThrough(r, s, [], p);
    assert [a, b][1..] == [b] && [b][1..] == [];
  }

  lemma AllEndsHead(b: Regex, s: Text, from: seq<nat>, p: nat)
    requires p <= |s| && from != [] && forall i :: 0 <= i < |from| ==> p <= from[i] <= |s|
    ensures AllEnds(b, s, from, p) == Ends(b, s, from[0]) + AllEnds(b, s, from[1..], p)
  {
    hide Ends;
  }

  lemma FindWords(t: Tables, s: Text, p: nat)
    requires Sane(t) && p < |s|
    ensures
      var q := if !Newline(s[p]) && !t.letter(s[p]) && !t.number(s[p]) then p + 1 else p;
      Find(Words(t), s, p) == if q < |s| && t.letter(s[q]) then Match(RunEnd(t.letter, s, q)) else NoMatch
  {
    FindLed(Lead(t), Plus(t.letter), s, p);
    if t.letter(s[p]) {
      RunFirst(t.letter, s, p);
    } else {
      FindNone(t.letter, s, p);
    }
    if p + 1 < |s| && t.letter(s[p + 1]) {
      RunFirst(t.letter, s, p + 1);
    } else {
      FindNone(t.letter, s, p + 1);
    }
  }

  lemma FindSymbols(t: Tables, s: Text, p: nat)
    requires Sane(t) && p < |s|
    ensures
      var q := if s[p] == SPACE then p + 1 else p;
      Find(Symbols(t), s, p) == if q < |s| && Symbol(t, s[q]) then Match(RunEnd(NewlineClass(), s, RunEnd(SymbolClass(t), s, q))) else NoMatch
  {
    var r := Cat(Plus(SymbolClass(t)), Star(NewlineClass()));
    FindLed(SpaceClass(), r, s, p);
    FindTail(SymbolClass(t), NewlineClass(), s, p);
    FindTail(SymbolClass(t), NewlineClass(), s, p + 1);
  }

  /** A greedy run, then a greedy run of something else. */
  lemma FindTail(cls: int -> bool, tail: int -> bool, s: Text, p: nat)
    requires p <= |s|
    ensures Find(Cat(Plus(cls), Star(tail)), s, p)
         == if p < |s| && cls(s[p]) then Match(RunEnd(tail, s, RunEnd(cls, s, p))) else NoMatch
  {
    hide *;
    var from := Ends(Plus(cls), s, p);
    PlusIsDown(cls, s, p);
    CatEnds(Plus(cls), Star(tail), s, p);
    FindIs(Cat(Plus(cls), Star(tail)), s, p);
    if p < |s| && cls(s[p]) {
      StarFirst(tail, s, from[0]);
      FirstThrough(Star(tail), s, from, p, 0);
    } else {
      NoneThrough(Star(tail), s, from, p);
    }
  }

  /** Position of the last newline in s[p..e), or e when there is none. */
  function LastNewline(s: Text, p: nat, e: nat): (r: nat)
    requires p <= e <= |s|
    ensures p <= r <= e && (r < e ==> Newline(s[r])) && forall k :: r < k < e ==> !Newline(s[k])
    ensures r == e ==> forall k :: p <= k < e ==> !Newline(s[k])
    decreases e - p
  {
    if p == e then e else if Newline(s[e - 1]) then e - 1
    else
      var r := LastNewline(s, p, e - 1);
      if r == e - 1 then e else r
  }

  lemma FindLines(t: Tables, s: Text, p: nat)
    requires Sane(t) && p < |s|
    ensures
      var e := RunEnd(t.space, s, p);
      var last := LastNewline(s, p, e);
      Find(Lines(t), s, p) == if last < e then Match(last + 1) else NoMatch
  {
    var e := RunEnd(t.space, s, p);
    var last := LastNewline(s, p, e);
    var from := Ends(Star(t.space), s, p);
    var nl := NewlineClass();
    StarIsDown(t.space, s, p);
    forall i | 0 <= i < |from| && (from[i] > last || last == e)
      ensures Ends(Plus(nl), s, from[i]) == []
    {
      FindNone(nl, s, from[i]);
    }
    if last < e {
      assert from[e - last] == last;
      RunFirst(nl, s, last);
      assert RunEnd(nl, s, last) == last + 1;
      FirstThrough(Plus(nl), s, from, p, e - last);
    } else {
      NoneThrough(Plus(nl), s, from, p);
    }
  }

  lemma FindBlanks(t: Tables, s: Text, p: nat)
    requires Sane(t) && p < |s|
    ensures
      var e := RunEnd(t.space, s, p);
      Find(Blanks(t), s, p) == if e == p then NoMatch else if e == |s| then Match(e) else if e - p >= 2 then Match(e - 1) else NoMatch
  {
    var e := RunEnd(t.space, s, p);
    var from := Ends(Plus(t.space), s, p);
    var r := NotBefore(NonSpace(t));
    PlusIsDown(t.space, s, p);
    if e == p {
      NoneThrough(r, s, from, p);
    } else if e == |s| {
      FirstThrough(r, s, from, p, 0);
    } else if e - p >= 2 {
      assert from[1] == e - 1;
      FirstThrough(r, s, from, p, 1);
    } else {
      assert from == [e];
      NoneThrough(r, s, from, p);
    }
  }

  lemma FindNumbers(t: Tables, max: nat, s: Text, p: nat)
    requires 0 < max && p < |s|
    ensures Find(Numbers(t, max), s, p) == if t.number(s[p]) then Match(BoundedEnd(t.number, max, s, p)) else NoMatch
  {
    var from := Ends(Char(t.number), s, p);
    if t.number(s[p]) {
      UpToFirst(t.number, max - 1, s, p + 1);
      FirstThrough(UpTo(t.number, max - 1), s, from, p, 0);
    } else {
      NoneThrough(UpTo(t.number, max - 1), s, from, p);
    }
  }

  /** A single character, then the rest. */
  lemma FindChar(cls: int -> bool, r: Regex, s: Text, p: nat)
    requires p <= |s|
    ensures Find(Char(cls), s, p) == if p < |s| && cls(s[p]) then Match(p + 1) else NoMatch
    ensures Find(Cat(Char(cls), r), s, p) == if p < |s| && cls(s[p]) then Find(r, s, p + 1) else NoMatch
  {
    var from := Ends(Char(cls), s, p);
    assert Ends(Cat(Char(cls), r), s, p) == AllEnds(r, s, from, p);
    if p < |s| && cls(s[p]) {
      assert from == [p + 1] && from[1..] == [];
      assert AllEnds(r, s, from, p) == Ends(r, s, p + 1);
    }
  }

  lemma FindContractions(s: Text, p: nat)
    requires p < |s|
    ensures Find(Contractions(), s, p)
         == if Contraction(s, p) > 0 then Match(p + Contraction(s, p)) else NoMatch
  {
    FindLetter(0x73, s, p);
    FindLetter(0x74, s, p);
    FindLetters(0x72, 0x65, s, p);
    FindLetters(0x76, 0x65, s, p);
    FindLetter(0x6D, s, p);
    FindLetters(0x6C, 0x6C, s, p);
    FindLetter(0x64, s, p);
    hide Ends;
    hide Letter;
    hide Quote;
    hide AsciiLower;
    hide Lower;
    var a7 := Quote(Letter(0x64));
    var a6 := Or(Quote(Cat(Letter(0x6C), Letter(0x6C))), a7);
    var a5 := Or(Quote(Letter(0x6D)), a6);
    var a4 := Or(Quote(Cat(Letter(0x76), Letter(0x65))), a5);
    var a3 := Or(Quote(Cat(Letter(0x72), Letter(0x65))), a4);
    var a2 := Or(Quote(Letter(0x74)), a3);
    FindOr(Quote(Letter(0x73)), a2, s, p);
    FindOr(Quote(Letter(0x74)), a3, s, p);
    FindOr(Quote(Cat(Letter(0x72), Letter(0x65))), a4, s, p);
    FindOr(Quote(Cat(Letter(0x76), Letter(0x65))), a5, s, p);
    FindOr(Quote(Letter(0x6D)), a6, s, p);
    FindOr(Quote(Cat(Letter(0x6C), Letter(0x6C))), a7, s, p);
    hide Find;
  }

  predicate Lower(s: Text, p: nat, lower: int) { p < |s| && AsciiLower(s[p]) == lower }

  lemma FindLetter(lower: int, s: Text, p: nat)
    requires p < |s| && 0x61 <= lower <= 0x7A
    ensures Find(Quote(Letter(lower)), s, p) == if s[p] == APOSTROPHE && Lower(s, p + 1, lower) then Match(p + 2) else NoMatch
  {
    FindChar(c => c == 0x27, Letter(lower), s, p);
    FindChar(c => c == lower || c == lower - 0x20, Letter(lower), s, p + 1);
    hide Ends;
  }

  lemma FindLetters(one: int, two: int, s: Text, p: nat)
    requires p < |s| && 0x61 <= one <= 0x7A && 0x61 <= two <= 0x7A
    ensures Find(Quote(Cat(Letter(one), Letter(two))), s, p)
         == if s[p] == APOSTROPHE && Lower(s, p + 1, one) && Lower(s, p + 2, two) then Match(p + 3) else NoMatch
  {
    FindChar(c => c == 0x27, Cat(Letter(one), Letter(two)), s, p);
    FindChar(c => c == one || c == one - 0x20, Letter(two), s, p + 1);
    if p + 2 <= |s| {
      FindChar(c => c == two || c == two - 0x20, Letter(two), s, p + 2);
    }
    hide Ends;
  }

  /** Length of the contraction at `p`, 0 when there is none. */
  function Contraction(s: Text, p: nat): (r: nat)
    requires p < |s|
    ensures p + r <= |s|
  {
    if s[p] != APOSTROPHE then 0
    else if Lower(s, p + 1, 0x73) then 2
    else if Lower(s, p + 1, 0x74) then 2
    else if Lower(s, p + 1, 0x72) && Lower(s, p + 2, 0x65) then 3
    else if Lower(s, p + 1, 0x76) && Lower(s, p + 2, 0x65) then 3
    else if Lower(s, p + 1, 0x6D) then 2
    else if Lower(s, p + 1, 0x6C) && Lower(s, p + 2, 0x6C) then 3
    else if Lower(s, p + 1, 0x64) then 2
    else 0
  }

  // ---------------------------------------------------------------- the matcher

  /** The alternatives in order. */
  lemma FindPattern(t: Tables, max: nat, s: Text, p: nat)
    requires 0 < max && p < |s|
    ensures Find(Pattern(t, max), s, p) ==
              if Find(Contractions(), s, p).Match? then Find(Contractions(), s, p)
              else if Find(Words(t), s, p).Match? then Find(Words(t), s, p)
              else if Find(Numbers(t, max), s, p).Match? then Find(Numbers(t, max), s, p)
              else if Find(Symbols(t), s, p).Match? then Find(Symbols(t), s, p)
              else if Find(Lines(t), s, p).Match? then Find(Lines(t), s, p)
              else if Find(Blanks(t), s, p).Match? then Find(Blanks(t), s, p)
              else Find(Plus(t.space), s, p)
  {
    var r7 := Plus(t.space);
    var r6 := Or(Blanks(t), r7);
    var r5 := Or(Lines(t), r6);
    var r4 := Or(Symbols(t), r5);
    var r3 := Or(Numbers(t, max), r4);
    var r2 := Or(Words(t), r3);
    FindOr(Contractions(), r2, s, p);
    FindOr(Words(t), r3, s, p);
    FindOr(Numbers(t, max), r4, s, p);
    FindOr(Symbols(t), r5, s, p);
    FindOr(Lines(t), r6, s, p);
    FindOr(Blanks(t), r7, s, p);
    hide Find;
  }

  lemma {:induction false} SameRun(a: int -> bool, b: int -> bool, s: Text, p: nat)
    requires p <= |s| && forall i :: p <= i < |s| ==> a(s[i]) == b(s[i])
    ensures RunEnd(a, s, p) == RunEnd(b, s, p)
    decreases |s| - p
  {
    if p < |s| {
      if a(s[p]) {
        SameRun(a, b, s, p + 1);
      }
    }
  }

  /** A greedy loop over a class. */
  method ScanRun(cls: int -> bool, s: Text, p: nat) returns (e: nat)
    requires p <= |s|
    ensures e == RunEnd(cls, s, p)
  {
    e := p;
    while e < |s| && cls(s[e])
      invariant p <= e <= |s| && RunEnd(cls, s, e) == RunEnd(cls, s, p)
    {
      e := e + 1;
    }
  }

  method ScanDigits(t: Tables, max: nat, s: Text, p: nat) returns (e: nat)
    requires p <= |s|
    ensures e == BoundedEnd(t.number, max, s, p)
  {
    e := p;
    while e < |s| && e - p < max && t.number(s[e])
      invariant p <= e <= |s| && e - p <= max && BoundedEnd(t.number, max - (e - p), s, e) == BoundedEnd(t.number, max, s, p)
    {
      e := e + 1;
    }
  }

  /** Symbols, then newlines. */
  method ScanSymbols(t: Tables, s: Text, p: nat) returns (e: nat)
    requires p <= |s|
    ensures e == RunEnd(NewlineClass(), s, RunEnd(SymbolClass(t), s, p))
  {
    e := ScanRun(c => Symbol(t, c), s, p);
    SameRun(c => Symbol(t, c), SymbolClass(t), s, p);
    SameRun(c => Newline(c), NewlineClass(), s, e);
    e := ScanRun(c => Newline(c), s, e);
  }

  /** match_piece: always what the expression matches at `p`, which is never nothing. */
  method MatchPiece(t: Tables, cp: Text, p: nat, digitRunMax: nat) returns (len: nat)
    requires Sane(t) && p < |cp| && 0 < digitRunMax
    ensures 0 < len && Find(Pattern(t, digitRunMax), cp, p) == Match(p + len)
  {
    FoundEnd(t, digitRunMax, cp, p);
    hide Find;
    hide Pattern;
    hide Contraction;
    hide RunEnd;
    hide BoundedEnd;
    hide LastNewline;
    len := MatchContraction(cp, p);
    if len > 0 {
      return len;
    }
    len := MatchWord(t, cp, p);
    if len > 0 {
      return len;
    }
    if t.number(cp[p]) {
      var e := ScanDigits(t, digitRunMax, cp, p);
      return e - p;
    }
    var q := if cp[p] == SPACE then p + 1 else p;
    if q < |cp| && Symbol(t, cp[q]) {
      var e := ScanSymbols(t, cp, q);
      return e - p;
    }
    len := MatchBlank(t, cp, p);
  }

  /** Alternative 1, in its listed order. */
  method MatchContraction(cp: Text, p: nat) returns (len: nat)
    requires p < |cp|
    ensures len == Contraction(cp, p)
  {
    if cp[p] == APOSTROPHE {
      var one := if p + 1 < |cp| then AsciiLower(cp[p + 1]) else 0;
      var two := if p + 2 < |cp| then AsciiLower(cp[p + 2]) else 0;
      if one == 0x73 { return 2; }
      if one == 0x74 { return 2; }
      if one == 0x72 && two == 0x65 { return 3; }
      if one == 0x76 && two == 0x65 { return 3; }
      if one == 0x6D { return 2; }
      if one == 0x6C && two == 0x6C { return 3; }
      if one == 0x64 { return 2; }
    }
    return 0;
  }

  /** Alternative 2; 0 when it fails. */
  method MatchWord(t: Tables, cp: Text, p: nat) returns (len: nat)
    requires p < |cp|
    ensures
      var q := if !Newline(cp[p]) && !t.letter(cp[p]) && !t.number(cp[p]) then p + 1 else p;
      if q < |cp| && t.letter(cp[q]) then 0 < len && p + len == RunEnd(t.letter, cp, q) else len == 0
  {
    var q := p;
    if !Newline(cp[q]) && !t.letter(cp[q]) && !t.number(cp[q]) {
      q := q + 1;
    }
    if q < |cp| && t.letter(cp[q]) {
      var e := ScanRun(t.letter, cp, q);
      return e - p;
    }
    return 0;
  }

  /** Alternatives 5 to 7, over the maximal run of white space. */
  method MatchBlank(t: Tables, cp: Text, p: nat) returns (len: nat)
    requires Sane(t) && p < |cp| && t.space(cp[p])
    ensures
      var e := RunEnd(t.space, cp, p);
      var last := LastNewline(cp, p, e);
      p + len == if last < e then last + 1 else if e == |cp| then e else if e - p >= 2 then e - 1 else e
    ensures 0 < len
  {
    var wsEnd := ScanRun(t.space, cp, p);
    assert wsEnd > p;
    var lastNl := wsEnd;
    for k := p to wsEnd
      invariant p <= lastNl <= wsEnd && (lastNl < wsEnd ==> lastNl < k && Newline(cp[lastNl]))
      invariant forall j :: p <= j < k && (lastNl < j || lastNl == wsEnd) ==> !Newline(cp[j])
    {
      if Newline(cp[k]) {
        lastNl := k;
      }
    }
    OneLast(cp, p, wsEnd, lastNl);
    if lastNl != wsEnd {
      return lastNl + 1 - p;
    }
    if wsEnd == |cp| {
      return wsEnd - p;
    }
    if wsEnd - p >= 2 {
      return wsEnd - 1 - p;
    }
    return wsEnd - p;
  }

  lemma OneLast(s: Text, p: nat, e: nat, last: nat)
    requires p <= last <= e <= |s| && (last < e ==> Newline(s[last]))
    requires forall j :: p <= j < e && (last < j || last == e) ==> !Newline(s[j])
    ensures LastNewline(s, p, e) == last
  {
  }

  /** The end of a match, alternative by alternative. */
  function EndAt(t: Tables, max: nat, s: Text, p: nat): nat
    requires p < |s|
  {
    var word := if !Newline(s[p]) && !t.letter(s[p]) && !t.number(s[p]) then p + 1 else p;
    var symbol := if s[p] == SPACE then p + 1 else p;
    if Contraction(s, p) > 0 then p + Contraction(s, p)
    else if word < |s| && t.letter(s[word]) then RunEnd(t.letter, s, word)
    else if t.number(s[p]) then BoundedEnd(t.number, max, s, p)
    else if symbol < |s| && Symbol(t, s[symbol]) then RunEnd(NewlineClass(), s, RunEnd(SymbolClass(t), s, symbol))
    else
      var e := RunEnd(t.space, s, p);
      var last := LastNewline(s, p, e);
      if last < e then last + 1 else if e == |s| then e else if e - p >= 2 then e - 1 else e
  }

  /** Every position matches something: the fallback of one codepoint is never reached. */
  lemma FoundEnd(t: Tables, max: nat, s: Text, p: nat)
    requires Sane(t) && 0 < max && p < |s|
    ensures Find(Pattern(t, max), s, p) == Match(EndAt(t, max, s, p)) && p < EndAt(t, max, s, p) <= |s|
    ensures Contraction(s, p) == 0 && !(Symbol(t, s[p]) || t.letter(s[p]) || t.number(s[p])) ==> t.space(s[p])
  {
    hide Contraction;
    hide Find;
    hide Pattern;
    hide Contractions;
    hide Words;
    hide Numbers;
    hide Symbols;
    hide Lines;
    hide Blanks;
    hide Plus;
    hide LastNewline;
    FindPattern(t, max, s, p);
    FindContractions(s, p);
    FindWords(t, s, p);
    FindNumbers(t, max, s, p);
    FindSymbols(t, s, p);
    FindLines(t, s, p);
    FindBlanks(t, s, p);
    if t.space(s[p]) {
      RunFirst(t.space, s, p);
    }
  }
}
