/** Whatever the automaton accepts and calls complete is a JSON text: the accepted bytes are parsed
    back into a derivation. */
module JsonSound {
  import opened JsonGrammars
  import opened JsonText
  import opened JsonComplete

  lemma Front(g: State, s: Bytes)
    requires Inv(g) && s != [] && Accepts(g, s)
    ensures InBounds(g) && Step(g, s[0]).0 && Inv(Step(g, s[0]).1) && Accepts(Step(g, s[0]).1, s[1..]) && s == [s[0]] + s[1..]
  {
    InvInBounds(g);
    StepInv(g, s[0]);
  }

  /** Inside a scalar that cannot end by itself. */
  predicate Midway(scan: Scan) {
    scan != Between && (scan.Number? ==> !Terminable(scan.num))
  }

  lemma Unfinished(g: State, s: Bytes)
    requires Inv(g) && Accepts(g, s) && Midway(g.scan)
    ensures s != []
  {
  }

  /** Whitespace is consumed where it stands. */
  lemma {:induction false} WsParse(g: State, s: Bytes) returns (ws: Bytes, rest: Bytes)
    requires Inv(g) && g.scan == Between && Accepts(g, s)
    ensures s == ws + rest && Ws(ws, g.allowWs) && (rest != [] ==> !IsWs(rest[0])) && Accepts(g, rest)
    decreases |s|
  {
    if s == [] || !IsWs(s[0]) {
      ws, rest := [], s;
    } else {
      Front(g, s);
      ws, rest := WsParse(g, s[1..]);
      ws := [s[0]] + ws;
    }
  }

  // ---------------------------------------------------------------- strings

  lemma {:induction false} HexParse(g: State, s: Bytes) returns (hex: Bytes, rest: Bytes)
    requires Inv(g) && g.scan.Hex? && Accepts(g, s)
    ensures s == hex + rest && |hex| == g.scan.left && forall i :: 0 <= i < |hex| ==> IsHex(hex[i])
    ensures Inv(g.(scan := Chars(g.scan.key, g.scan.sofar))) && Accepts(g.(scan := Chars(g.scan.key, g.scan.sofar)), rest)
    decreases |s|
  {
    Unfinished(g, s);
    Front(g, s);
    if g.scan.left == 1 {
      hex, rest := [s[0]], s[1..];
    } else {
      hex, rest := HexParse(g.(scan := Hex(g.scan.key, g.scan.sofar, g.scan.left - 1)), s[1..]);
      hex := [s[0]] + hex;
    }
  }

  lemma StringFront(g: State, s: Bytes)
    requires Inv(g) && g.scan.Chars? && !(g.scan.key && Top(g)) && Accepts(g, s) && s != [] && s[0] != QUOTE
    ensures s == [s[0]] + s[1..]
    ensures
      var h := if s[0] == BACKSLASH then g.(scan := Escape(g.scan.key, g.scan.sofar)) else g;
      Inv(h) && Accepts(h, s[1..]) && (s[0] != BACKSLASH ==> PlainByte(s[0]))
  {
    Front(g, s);
  }

  lemma EscapeFront(g: State, s: Bytes)
    requires Inv(g) && g.scan.Escape? && Accepts(g, s) && s != []
    ensures s == [s[0]] + s[1..] && (IsEscape(s[0]) || s[0] == LOWER_U)
    ensures
      var h := g.(scan := if IsEscape(s[0]) then Chars(g.scan.key, g.scan.sofar) else Hex(g.scan.key, g.scan.sofar, 4));
      Inv(h) && Accepts(h, s[1..])
  {
    Front(g, s);
  }

  lemma KeyFront(g: State, s: Bytes)
    requires Inv(g) && g.scan.Chars? && g.scan.key && Top(g) && Accepts(g, s) && s != []
    ensures s == [s[0]] + s[1..] && g.keyIdx < |g.root.keys|
    ensures s[0] == QUOTE ==> g.scan.sofar == g.root.keys[g.keyIdx]
    ensures s[0] != QUOTE ==>
              var h := g.(scan := Chars(true, g.scan.sofar + [s[0]]));
              PlainByte(s[0]) && Inv(h) && Accepts(h, s[1..])
  {
    Front(g, s);
  }

  lemma Cons(c: Char, body: seq<Char>)
    ensures RenderChars([c] + body) == RenderChar(c) + RenderChars(body)
  {
    assert ([c] + body)[1..] == body;
  }

  /** One character of a string that is not a schema key. */
  lemma CharParse(g: State, s: Bytes) returns (c: Char, rest: Bytes)
    requires Inv(g) && g.scan.Chars? && !(g.scan.key && Top(g)) && Accepts(g, s) && s != [] && s[0] != QUOTE
    ensures s == RenderChar(c) + rest && CharOk(c) && Accepts(g, rest) && |rest| < |s|
  {
    StringFront(g, s);
    hide Inv;
    hide Run;
    hide Accepts;
    if s[0] != BACKSLASH {
      c, rest := Plain(s[0]), s[1..];
    } else {
      var h, t := g.(scan := Escape(g.scan.key, g.scan.sofar)), s[1..];
      Unfinished(h, t);
      EscapeFront(h, t);
      if IsEscape(t[0]) {
        c, rest := Escaped(t[0]), t[1..];
      } else {
        var hex;
        hex, rest := HexParse(g.(scan := Hex(g.scan.key, g.scan.sofar, 4)), t[1..]);
        c := Unicode(hex);
        assert g.(scan := Chars(g.scan.key, g.scan.sofar)) == g;
      }
    }
  }

  lemma {:induction false} CharsParse(g: State, s: Bytes) returns (body: seq<Char>, rest: Bytes)
    requires Inv(g) && g.scan.Chars? && !(g.scan.key && Top(g)) && Accepts(g, s)
    ensures s == RenderChars(body) + rest && BodyOk(body) && Accepts(g, rest) && rest != [] && rest[0] == QUOTE
    decreases |s|
  {
    Unfinished(g, s);
    hide Inv;
    hide Run;
    hide Accepts;
    hide Complete;
    if s[0] == QUOTE {
      body, rest := [], s;
    } else {
      var c, t := CharParse(g, s);
      body, rest := CharsParse(g, t);
      Cons(c, body);
      body := [c] + body;
    }
  }

  /** A schema key ends exactly when it is the declared one. */
  lemma {:induction false} KeyParse(g: State, s: Bytes) returns (body: seq<Char>, rest: Bytes)
    requires Inv(g) && g.scan.Chars? && g.scan.key && Top(g) && Accepts(g, s)
    ensures s == RenderChars(body) + rest && BodyOk(body) && Unescaped(body) && rest != [] && rest[0] == QUOTE
    ensures g.keyIdx < |g.root.keys| && g.scan.sofar + RenderChars(body) == g.root.keys[g.keyIdx]
    ensures
      var h := g.(scan := Chars(true, g.scan.sofar + RenderChars(body)));
      Inv(h) && Accepts(h, rest)
    decreases |s|
  {
    Unfinished(g, s);
    KeyFront(g, s);
    hide Inv;
    hide Run;
    hide Accepts;
    if s[0] == QUOTE {
      body, rest := [], s;
      assert g.scan.sofar + [] == g.scan.sofar;
      assert g.(scan := Chars(true, g.scan.sofar)) == g;
    } else {
      var h := g.(scan := Chars(true, g.scan.sofar + [s[0]]));
      var tail;
      tail, rest := KeyParse(h, s[1..]);
      body := [Plain(s[0])] + tail;
      Cons(Plain(s[0]), tail);
      assert g.scan.sofar + RenderChars(body) == h.scan.sofar + RenderChars(tail);
    }
  }

  // ---------------------------------------------------------------- numbers

  lemma {:induction false} DigitsParse(g: State, s: Bytes) returns (ds: Bytes, rest: Bytes)
    requires Inv(g) && g.scan.Number? && g.scan.num in [IntDigits, FracDigits, ExpDigits] && Accepts(g, s)
    ensures s == ds + rest && Digits(ds) && Accepts(g, rest) && (rest != [] ==> !IsDigit(rest[0]))
    decreases |s|
  {
    hide Inv;
    hide Run;
    hide Accepts;
    if s == [] || !IsDigit(s[0]) {
      ds, rest := [], s;
    } else {
      NumFront(g, s);
      assert NextNum(g.scan.num, g.scan.intOnly, s[0]) == (true, g.scan.num);
      assert g.(scan := Number(g.scan.num, g.scan.intOnly)) == g;
      ds, rest := DigitsParse(g, s[1..]);
      ds := [s[0]] + ds;
    }
  }

  /** A number byte that continues it. */
  lemma NumFront(g: State, s: Bytes)
    requires Inv(g) && g.scan.Number? && s != [] && Accepts(g, s)
    ensures s == [s[0]] + s[1..]
    ensures NextNum(g.scan.num, g.scan.intOnly, s[0]).0 ==>
              var h := g.(scan := Number(NextNum(g.scan.num, g.scan.intOnly, s[0]).1, g.scan.intOnly));
              Inv(h) && Accepts(h, s[1..])
    ensures !NextNum(g.scan.num, g.scan.intOnly, s[0]).0 ==> Terminable(g.scan.num)
  {
    hide NextNum;
    Front(g, s);
  }

  /** Digits after a point, a mark or a sign: at least one. */
  lemma SomeDigits(g: State, s: Bytes, to: Num) returns (ds: Bytes, rest: Bytes)
    requires Inv(g) && g.scan.Number? && Accepts(g, s) && s != [] && IsDigit(s[0]) && to in [FracDigits, ExpDigits]
    requires NextNum(g.scan.num, g.scan.intOnly, s[0]) == (true, to)
    ensures
      var h := g.(scan := Number(to, g.scan.intOnly));
      s == ds + rest && ds != [] && Digits(ds) && Inv(h) && Accepts(h, rest) && (rest != [] ==> !IsDigit(rest[0]))
  {
    NumFront(g, s);
    var tail;
    tail, rest := DigitsParse(g.(scan := Number(to, g.scan.intOnly)), s[1..]);
    ds := [s[0]] + tail;
  }

  lemma FracParse(g: State, s: Bytes) returns (frac: Bytes, rest: Bytes, r: State)
    requires Inv(g) && g.scan.Number? && g.scan.num in [IntZero, IntDigits] && Accepts(g, s)
    requires s != [] && g.scan.num == IntDigits ==> !IsDigit(s[0])
    ensures s == RenderFrac(frac) + rest && Digits(frac) && (frac != [] ==> !g.scan.intOnly)
    ensures Inv(r) && Accepts(r, rest) && r == g.(scan := r.scan) && r.scan.Number? && r.scan.intOnly == g.scan.intOnly
    ensures r.scan.num == if frac == [] then g.scan.num else FracDigits
    ensures rest != [] ==> (r.scan.num != IntZero ==> !IsDigit(rest[0])) && (r.scan.num != FracDigits && !g.scan.intOnly ==> rest[0] != DOT)
  {
    hide *;
    FracIs([], s);
    if s == [] || s[0] != DOT || g.scan.intOnly {
      frac, rest, r := [], s, g;
    } else {
      PointNext(DOT);
      NumFront(g, s);
      var h, t := g.(scan := Number(FracDot, false)), s[1..];
      PointMidway(h.scan);
      Unfinished(h, t);
      NumFront(h, t);
      PointNext(t[0]);
      frac, rest := SomeDigits(h, t, FracDigits);
      r := g.(scan := Number(FracDigits, false));
      FracIs(frac, rest);
    }
  }

  lemma PointNext(b: Byte)
    ensures NextNum(IntZero, false, DOT) == NextNum(IntDigits, false, DOT) == (true, FracDot)
    ensures !Terminable(FracDot) && NextNum(FracDot, false, b) == if IsDigit(b) then (true, FracDigits) else (false, FracDot)
  {
  }

  lemma PointMidway(scan: Scan)
    requires scan == Number(FracDot, false)
    ensures Midway(scan)
  {
  }

  lemma FracIs(frac: Bytes, rest: Bytes)
    ensures RenderFrac(frac) + rest == if frac == [] then rest else [DOT] + (frac + rest)
    ensures frac == [] ==> Digits(frac)
  {
  }

  lemma ExpParse(g: State, s: Bytes) returns (e: Exponent, rest: Bytes, r: State)
    requires Inv(g) && g.scan.Number? && g.scan.num in [IntZero, IntDigits, FracDigits] && Accepts(g, s)
    requires s != [] ==> (g.scan.num != IntZero ==> !IsDigit(s[0])) && (g.scan.num != FracDigits && !g.scan.intOnly ==> s[0] != DOT)
    requires g.scan.num == FracDigits ==> !g.scan.intOnly
    ensures s == RenderExp(e) + rest && ExpOk(e) && (e.Exp? ==> !g.scan.intOnly)
    ensures Inv(r) && Accepts(r, rest) && r == g.(scan := r.scan) && r.scan.Number? && Terminable(r.scan.num)
    ensures rest != [] ==> !NextNum(r.scan.num, r.scan.intOnly, rest[0]).0
  {
    hide *;
    if s == [] || !IsExpMark(s[0]) || g.scan.intOnly {
      e, rest, r := NoExp, s, g;
      NoExpIs(g.scan.num, g.scan.intOnly, s);
    } else {
      MarkNext(g.scan.num, s[0]);
      NumFront(g, s);
      var h := g.(scan := Number(ExpStart, false));
      var sign, digits;
      sign, digits, rest := ExpTail(h, s[1..]);
      e, r := Exp(s[0], sign, digits), g.(scan := Number(ExpDigits, false));
      ExpIs(s[0], sign, digits, rest);
    }
  }

  lemma NoExpIs(n: Num, intOnly: bool, s: Bytes)
    requires n in [IntZero, IntDigits, FracDigits] && (n == FracDigits ==> !intOnly)
    requires s != [] ==> (n != IntZero ==> !IsDigit(s[0])) && (n != FracDigits && !intOnly ==> s[0] != DOT) && (!IsExpMark(s[0]) || intOnly)
    ensures RenderExp(NoExp) + s == s && ExpOk(NoExp) && Terminable(n) && (s != [] ==> !NextNum(n, intOnly, s[0]).0)
  {
  }

  lemma MarkNext(n: Num, b: Byte)
    requires n in [IntZero, IntDigits, FracDigits] && IsExpMark(b)
    ensures NextNum(n, false, b) == (true, ExpStart)
  {
  }

  lemma ExpIs(mark: Byte, sign: Bytes, digits: Bytes, rest: Bytes)
    ensures RenderExp(Exp(mark, sign, digits)) + rest == [mark] + (sign + digits + rest)
    ensures IsExpMark(mark) && (sign == [] || sign == [PLUS] || sign == [MINUS]) && digits != [] && Digits(digits) ==> ExpOk(Exp(mark, sign, digits))
    ensures Terminable(ExpDigits) && (rest != [] && !IsDigit(rest[0]) ==> !NextNum(ExpDigits, false, rest[0]).0)
  {
  }

  /** What follows an exponent's mark. */
  lemma ExpTail(g: State, s: Bytes) returns (sign: Bytes, digits: Bytes, rest: Bytes)
    requires Inv(g) && g.scan == Number(ExpStart, false) && Accepts(g, s)
    ensures s == sign + digits + rest && (sign == [] || sign == [PLUS] || sign == [MINUS]) && digits != [] && Digits(digits)
    ensures
      var r := g.(scan := Number(ExpDigits, false));
      Inv(r) && Accepts(r, rest) && (rest != [] ==> !IsDigit(rest[0]))
  {
    hide Inv;
    hide Run;
    hide Accepts;
    Unfinished(g, s);
    NumFront(g, s);
    if IsDigit(s[0]) {
      sign := [];
      digits, rest := SomeDigits(g, s, ExpDigits);
    } else {
      var k, u := g.(scan := Number(ExpAfterSign, false)), s[1..];
      Unfinished(k, u);
      NumFront(k, u);
      sign := [s[0]];
      digits, rest := SomeDigits(k, u, ExpDigits);
    }
  }

  lemma WholeParse(g: State, s: Bytes) returns (whole: Bytes, rest: Bytes, r: State)
    requires Inv(g) && g.scan.Number? && g.scan.num == Sign && Accepts(g, s)
    ensures s == whole + rest && WholeOk(whole) && Inv(r) && Accepts(r, rest)
    ensures r == g.(scan := Number(if whole == [ZERO] then IntZero else IntDigits, g.scan.intOnly))
    ensures rest != [] && r.scan.num == IntDigits ==> !IsDigit(rest[0])
  {
    hide Inv;
    hide Run;
    hide Accepts;
    Unfinished(g, s);
    NumFront(g, s);
    if s[0] == ZERO {
      whole, rest, r := [ZERO], s[1..], g.(scan := Number(IntZero, g.scan.intOnly));
    } else {
      r := g.(scan := Number(IntDigits, g.scan.intOnly));
      var tail;
      tail, rest := DigitsParse(r, s[1..]);
      whole := [s[0]] + tail;
      assert whole[1..] == tail;
    }
  }

  /** A number whose next byte does not extend it has ended. */
  lemma SettleAccepts(g: State, s: Bytes)
    requires Inv(g) && Accepts(g, s) && g.scan.Number? && Terminable(g.scan.num)
    requires s != [] ==> !NextNum(g.scan.num, g.scan.intOnly, s[0]).0
    ensures Inv(PushValueDone(g)) && Accepts(PushValueDone(g), s)
  {
    SettleInv(g);
    if s != [] {
      SettleRun(g, s);
    }
  }

  /** A place where a value begins with `s[0]`. */
  predicate ValueAhead(g: State, s: Bytes) {
    Inv(g) && g.scan == Between && InValue(g) && Accepts(g, s) && s != [] && !IsWs(s[0]) && s[0] != RBRACKET
  }

  lemma ValueFront(g: State, s: Bytes)
    requires ValueAhead(g, s)
    ensures s == [s[0]] + s[1..] && BeginValue(g, s[0], TypeHere(g)).0 && (g.schema && g.stack == [] ==> s[0] == LBRACE)
    ensures var h := BeginValue(g, s[0], TypeHere(g)).1; Inv(h) && Accepts(h, s[1..])
  {
    Front(g, s);
  }

  lemma WholeBegin(g: State, s: Bytes) returns (neg: bool, whole: Bytes, rest: Bytes, r: State)
    requires ValueAhead(g, s) && (s[0] == MINUS || IsDigit(s[0]))
    ensures s == (if neg then [MINUS] else []) + whole + rest && WholeOk(whole) && Inv(r) && Accepts(r, rest)
    ensures r == g.(scan := Number(if whole == [ZERO] then IntZero else IntDigits, TypeHere(g) == IntegerType))
    ensures rest != [] && r.scan.num == IntDigits ==> !IsDigit(rest[0])
    ensures TypeHere(g) in [Free, NumberType, IntegerType]
  {
    hide *;
    ValueFront(g, s);
    NumberBegins(g, s[0]);
    neg := s[0] == MINUS;
    if neg {
      whole, rest, r := WholeParse(g.(scan := Number(Sign, TypeHere(g) == IntegerType)), s[1..]);
      assert [MINUS] + (whole + rest) == [MINUS] + whole + rest;
    } else if s[0] == ZERO {
      whole, rest, r := [ZERO], s[1..], g.(scan := Number(IntZero, TypeHere(g) == IntegerType));
      assert [] + whole + rest == whole + rest;
      WholeIs(ZERO, []);
    } else {
      r := g.(scan := Number(IntDigits, TypeHere(g) == IntegerType));
      var tail;
      tail, rest := DigitsParse(r, s[1..]);
      whole := [s[0]] + tail;
      assert [] + whole + rest == [s[0]] + (tail + rest);
      WholeIs(s[0], tail);
    }
  }

  lemma NumberBegins(g: State, b: Byte)
    requires BeginValue(g, b, TypeHere(g)).0 && (b == MINUS || IsDigit(b))
    ensures BeginValue(g, b, TypeHere(g)).1
         == g.(scan := Number(if b == MINUS then Sign else if b == ZERO then IntZero else IntDigits, TypeHere(g) == IntegerType))
    ensures TypeHere(g) in [Free, NumberType, IntegerType]
  {
  }

  lemma WholeIs(b: Byte, tail: Bytes)
    requires (IsDigit(b) && Digits(tail)) || (b == ZERO && tail == [])
    ensures b == ZERO && tail == [] ==> WholeOk([b])
    ensures b != ZERO ==> WholeOk([b] + tail) && [b] + tail != [ZERO]
  {
    Terminals(b);
    assert ([b] + tail)[1..] == tail;
  }

  lemma NumeralParse(g: State, s: Bytes) returns (v: Value, rest: Bytes)
    requires ValueAhead(g, s) && (s[0] == MINUS || IsDigit(s[0]))
    ensures s == Render(v) + rest && v.Numeral? && ValueOk(v, g.allowWs) && HasType(v, TypeHere(g))
    ensures Inv(PushValueDone(g)) && Accepts(PushValueDone(g), rest)
  {
    hide *;
    var neg, whole, t1, r1 := WholeBegin(g, s);
    var frac, t2, r2 := FracParse(r1, t1);
    var exp, t3, r3 := ExpParse(r2, t2);
    v, rest := Numeral(neg, whole, frac, exp), t3;
    SettleAccepts(r3, t3);
    ScanForgotten(g, r3.scan);
    NumeralIs(v, g.allowWs, TypeHere(g), rest);
  }

  lemma NumeralIs(v: Value, spaces: bool, t: Type, rest: Bytes)
    requires v.Numeral? && WholeOk(v.whole) && Digits(v.frac) && ExpOk(v.exp)
    requires t in [Free, NumberType, IntegerType] && (v.frac != [] || v.exp.Exp? ==> t != IntegerType)
    ensures ValueOk(v, spaces) && HasType(v, t)
    ensures (if v.neg then [MINUS] else []) + v.whole + (RenderFrac(v.frac) + (RenderExp(v.exp) + rest)) == Render(v) + rest
  {
  }

  lemma ScanForgotten(g: State, scan: Scan)
    ensures PushValueDone(g.(scan := scan)) == PushValueDone(g)
  {
  }

  lemma {:induction false} LitParse(g: State, s: Bytes) returns (rest: Bytes)
    requires Inv(g) && g.scan.Literal? && Accepts(g, s)
    ensures s == g.scan.rest + rest && Inv(PushValueDone(g)) && Accepts(PushValueDone(g), rest)
    decreases |s|
  {
    Unfinished(g, s);
    Front(g, s);
    if |g.scan.rest| == 1 {
      rest := s[1..];
    } else {
      rest := LitParse(g.(scan := Literal(g.scan.rest[1..])), s[1..]);
      assert PushValueDone(g.(scan := Literal(g.scan.rest[1..]))) == PushValueDone(g);
    }
  }

  lemma WordParse(g: State, s: Bytes) returns (v: Value, rest: Bytes)
    requires ValueAhead(g, s) && (s[0] == TRUE[0] || s[0] == FALSE[0] || s[0] == NULL[0])
    ensures s == Render(v) + rest && ValueOk(v, g.allowWs) && HasType(v, TypeHere(g))
    ensures Inv(PushValueDone(g)) && Accepts(PushValueDone(g), rest)
  {
    var text := if s[0] == TRUE[0] then TRUE else if s[0] == FALSE[0] then FALSE else NULL;
    hide *;
    WordFront(g, s, text);
    v := Word(text);
    rest := LitParse(g.(scan := Literal(text[1..])), s[1..]);
    ScanForgotten(g, Literal(text[1..]));
    assert s == ([s[0]] + text[1..]) + rest;
  }

  lemma WordFront(g: State, s: Bytes, text: Bytes)
    requires ValueAhead(g, s) && text in [TRUE, FALSE, NULL] && s[0] == text[0]
    ensures s == [s[0]] + s[1..] && HasType(Word(text), TypeHere(g)) && Render(Word(text)) == text
    ensures ValueOk(Word(text), g.allowWs) && text == [s[0]] + text[1..]
    ensures var h := g.(scan := Literal(text[1..])); Inv(h) && Accepts(h, s[1..])
  {
    ValueFront(g, s);
    hide Inv;
    hide Accepts;
    hide ValueAhead;
  }

  lemma TextParse(g: State, s: Bytes) returns (v: Value, rest: Bytes)
    requires ValueAhead(g, s) && s[0] == QUOTE
    ensures s == Render(v) + rest && ValueOk(v, g.allowWs) && HasType(v, TypeHere(g))
    ensures Inv(PushValueDone(g)) && Accepts(PushValueDone(g), rest)
  {
    hide *;
    TextFront(g, s);
    var h := g.(scan := Chars(false, []));
    var body, t := CharsParse(h, s[1..]);
    QuoteFront(h, t);
    v, rest := Text(body), t[1..];
    ScanForgotten(g, Chars(false, []));
    TextIs(g, body, rest);
  }

  lemma TextFront(g: State, s: Bytes)
    requires ValueAhead(g, s) && s[0] == QUOTE
    ensures s == [QUOTE] + s[1..] && (forall body :: HasType(Text(body), TypeHere(g)))
    ensures var h := g.(scan := Chars(false, [])); Inv(h) && Accepts(h, s[1..])
  {
    ValueFront(g, s);
    hide Inv;
    hide Accepts;
    hide ValueAhead;
  }

  lemma TextIs(g: State, body: seq<Char>, rest: Bytes)
    requires BodyOk(body)
    ensures ValueOk(Text(body), g.allowWs) && Quoted(body) + rest == [QUOTE] + (RenderChars(body) + ([QUOTE] + rest))
    ensures Render(Text(body)) == Quoted(body)
  {
  }

  lemma QuoteFront(g: State, s: Bytes)
    requires Inv(g) && g.scan.Chars? && !g.scan.key && Accepts(g, s) && s != [] && s[0] == QUOTE
    ensures s == [QUOTE] + s[1..] && Inv(PushValueDone(g)) && Accepts(PushValueDone(g), s[1..])
  {
    Front(g, s);
  }

  // ---------------------------------------------------------------- values

  /** A value, and the state after it. */
  lemma {:induction false} ValueParse(g: State, s: Bytes) returns (v: Value, rest: Bytes, r: State)
    requires ValueAhead(g, s)
    ensures s == Render(v) + rest && |rest| < |s| && ValueOk(v, g.allowWs) && HasType(v, TypeHere(g))
    ensures g.schema && g.stack == [] ==> Conforms(v, g.root)
    ensures Inv(r) && Done(g, r) && Accepts(r, rest)
    decreases |s|, 1
  {
    ValueFront(g, s);
    var b := s[0];
    r := PushValueDone(g);
    if b == LBRACE {
      v, rest, r := ObjectParse(g, s);
    } else if b == LBRACKET {
      v, rest, r := ArrayParse(g, s);
    } else if b == QUOTE {
      v, rest := TextParse(g, s);
    } else if b == MINUS || IsDigit(b) {
      v, rest := NumeralParse(g, s);
    } else {
      v, rest := WordParse(g, s);
    }
  }

  lemma {:induction false} ArrayParse(g: State, s: Bytes) returns (v: Value, rest: Bytes, r: State)
    requires ValueAhead(g, s) && s[0] == LBRACKET
    ensures s == Render(v) + rest && |rest| < |s| && ValueOk(v, g.allowWs) && HasType(v, TypeHere(g)) && !(g.schema && g.stack == [])
    ensures Inv(r) && Done(g, r) && Accepts(r, rest)
    decreases |s|, 0
  {
    hide *;
    BracketFront(g, s);
    var h, t := Opened(g, LBRACKET), s[1..];
    ArrayOpened(g, h);
    var ws, u := WsParse(h, t);
    OpenNotDone(h, u);
    if u[0] == RBRACKET {
      v := EmptyArray(ws);
      rest, r := CloseParse(g, h, LBRACKET, u);
      EmptyIs(ws, rest, g.allowWs, g.root);
      assert s == [LBRACKET] + (ws + ([RBRACKET] + rest));
    } else {
      ArrayAhead(h, u);
      var items, w := ItemsParse(h, t, ws, u);
      v := Array(items);
      rest, r := CloseParse(g, PushValueDone(h), LBRACKET, w);
      ArrayIs(items, rest, g.allowWs);
      assert s == [LBRACKET] + (RenderItems(items) + ([RBRACKET] + rest));
    }
    FreeType(v, g);
  }

  lemma ArrayOpened(g: State, h: State)
    requires Inv(g) && g.scan == Between && InValue(g) && TypeHere(g) == Free && h == Opened(g, LBRACKET) && Inv(h)
    ensures h.scan == Between && h.allowWs == g.allowWs && h.expects == ArrayValueOrEnd && h.stack == g.stack + [LBRACKET]
    ensures AtClose(g, h, LBRACKET) && AtClose(g, PushValueDone(h), LBRACKET)
  {
  }

  lemma ArrayAhead(h: State, u: Bytes)
    requires Inv(h) && h.scan == Between && h.expects == ArrayValueOrEnd && Accepts(h, u) && u != [] && !IsWs(u[0]) && u[0] != RBRACKET
    ensures ValueAhead(h, u)
  {
    hide Accepts;
  }

  lemma ArrayIs(items: Items, rest: Bytes, spaces: bool)
    requires ItemsOk(items, spaces)
    ensures Render(Array(items)) + rest == [LBRACKET] + (RenderItems(items) + ([RBRACKET] + rest)) && ValueOk(Array(items), spaces)
  {
  }

  /** Inside a container the text goes on. */
  lemma OpenNotDone(g: State, s: Bytes)
    requires Inv(g) && g.stack != [] && Accepts(g, s)
    ensures s != []
  {
  }

  lemma CloseParse(g: State, h: State, bracket: Byte, s: Bytes) returns (rest: Bytes, r: State)
    requires Inv(g) && Inv(h) && g.scan == Between && InValue(g) && TypeHere(g) == Free && AtClose(g, h, bracket) && Accepts(h, s) && s != []
    requires (bracket == LBRACE && s[0] == RBRACE) || (bracket == LBRACKET && s[0] == RBRACKET)
    ensures s == [s[0]] + rest && Inv(r) && Done(g, r) && Accepts(r, rest)
  {
    Front(h, s);
    CloseByte(g, h, bracket, s[0]);
    rest, r := s[1..], CloseContainer(h);
    One(h, s[0]);
  }

  /** Where only a value or whitespace may come, a value is ahead. */
  lemma AheadIs(g: State, s: Bytes)
    requires Inv(g) && g.scan == Between && g.expects == Value && Accepts(g, s) && (s != [] ==> !IsWs(s[0]))
    ensures ValueAhead(g, s)
  {
    if s != [] {
      Front(g, s);
    }
  }

  lemma {:induction false} ElementParse(g: State, s: Bytes, ws: Bytes, u: Bytes) returns (e: Element, rest: Bytes, r: State)
    requires s == ws + u && Ws(ws, g.allowWs) && ValueAhead(g, u)
    ensures s == RenderElement(e) + rest && |rest| < |s| && ElementOk(e, g.allowWs) && HasType(e.value, TypeHere(g))
    ensures g.schema && g.stack == [] ==> Conforms(e.value, g.root)
    ensures Inv(r) && Done(g, r) && Accepts(r, rest) && (rest != [] ==> !IsWs(rest[0]))
    decreases |s|, 2
  {
    var v, t;
    v, t, r := ValueParse(g, u);
    DoneMeans(g, r);
    hide *;
    var after;
    after, rest := WsParse(r, t);
    e := Element(ws, v, after);
    ElementIs(e, g.allowWs);
    assert s == ws + (Render(v) + after) + rest;
  }

  lemma ElementIs(e: Element, spaces: bool)
    ensures RenderElement(e) == e.before + (Render(e.value) + e.after)
    ensures ElementOk(e, spaces) <==> Ws(e.before, spaces) && ValueOk(e.value, spaces) && Ws(e.after, spaces)
  {
  }

  lemma {:induction false} ItemsParse(g: State, s: Bytes, ws: Bytes, u: Bytes) returns (items: Items, rest: Bytes)
    requires s == ws + u && Ws(ws, g.allowWs) && ValueAhead(g, u)
    requires g.stack != [] && g.stack[|g.stack| - 1] == LBRACKET
    ensures s == RenderItems(items) + rest && |rest| < |s| && rest != [] && rest[0] == RBRACKET && ItemsOk(items, g.allowWs)
    ensures Inv(PushValueDone(g)) && Accepts(PushValueDone(g), rest)
    decreases |s|, 3
  {
    hide *;
    AheadMeans(g, u);
    var e, t, r := ElementParse(g, s, ws, u);
    NextItem(g, r, t);
    if t[0] == RBRACKET {
      items, rest := LastItem(e), t;
      ItemsAre(e, items, g.allowWs);
    } else {
      var h := PushValueDone(g).(expects := Value);
      var ws2, u2 := WsParse(h, t[1..]);
      AheadIs(h, u2);
      var more;
      more, rest := ItemsParse(h, t[1..], ws2, u2);
      items := MoreItems(e, more);
      ItemsAre(e, more, g.allowWs);
      assert s == (RenderElement(e) + [COMMA] + RenderItems(more)) + rest;
    }
  }

  lemma AheadMeans(g: State, s: Bytes)
    requires ValueAhead(g, s)
    ensures Inv(g)
  {
  }

  lemma ItemsAre(e: Element, more: Items, spaces: bool)
    ensures RenderItems(LastItem(e)) == RenderElement(e) && (ElementOk(e, spaces) ==> ItemsOk(LastItem(e), spaces))
    ensures RenderItems(MoreItems(e, more)) == RenderElement(e) + [COMMA] + RenderItems(more)
    ensures ElementOk(e, spaces) && ItemsOk(more, spaces) ==> ItemsOk(MoreItems(e, more), spaces)
  {
  }

  lemma NextItem(g: State, r: State, s: Bytes)
    requires Inv(g) && g.stack != [] && g.stack[|g.stack| - 1] == LBRACKET && Done(g, r)
    requires Inv(r) && Accepts(r, s) && (s != [] ==> !IsWs(s[0]))
    ensures r == PushValueDone(g) && s != [] && s == [s[0]] + s[1..] && (s[0] == RBRACKET || s[0] == COMMA)
    ensures s[0] == COMMA ==>
              var h := PushValueDone(g).(expects := Value);
              && Inv(h) && Accepts(h, s[1..]) && h.scan == Between && h.stack == g.stack && h.allowWs == g.allowWs
              && PushValueDone(h) == PushValueDone(g)
  {
    OpenNotDone(r, s);
    Front(r, s);
  }

  // ---------------------------------------------------------------- members

  lemma QuotedParse(g: State, s: Bytes) returns (key: seq<Char>, rest: Bytes)
    requires AtKey(g) && Accepts(g, s) && s != [] && s[0] == QUOTE
    ensures s == Quoted(key) + rest && |rest| < |s| && BodyOk(key)
    ensures Top(g) ==> g.keyIdx < |g.root.keys| == |g.root.types| && Unescaped(key) && RenderChars(key) == g.root.keys[g.keyIdx]
    ensures
      var k := g.(expects := ObjectColon, pending := if Top(g) then g.root.types[g.keyIdx] else Free);
      Inv(k) && Accepts(k, rest)
  {
    KeyBegin(g, s);
    hide *;
    var h := g.(scan := Chars(true, []));
    var t;
    if Top(g) {
      key, t := KeyParse(h, s[1..]);
      assert [] + RenderChars(key) == RenderChars(key);
    } else {
      key, t := CharsParse(h, s[1..]);
    }
    KeyEnd(g, RenderChars(key), t);
    rest := t[1..];
    TextIs(g, key, rest);
  }

  lemma KeyBegin(g: State, s: Bytes)
    requires AtKey(g) && Accepts(g, s) && s != [] && s[0] == QUOTE
    ensures s == [QUOTE] + s[1..] && Inv(g)
    ensures var h := g.(scan := Chars(true, [])); Inv(h) && Accepts(h, s[1..]) && (Top(h) <==> Top(g))
  {
    Front(g, s);
  }

  lemma KeyEnd(g: State, text: Bytes, s: Bytes)
    requires AtKey(g) && s != [] && s[0] == QUOTE && (Top(g) ==> g.keyIdx < |g.root.keys| && text == g.root.keys[g.keyIdx])
    requires var h := g.(scan := Chars(true, if Top(g) then text else [])); Inv(h) && Accepts(h, s)
    ensures s == [QUOTE] + s[1..] && |g.root.types| == |g.root.keys|
    ensures
      var k := g.(expects := ObjectColon, pending := if Top(g) then g.root.types[g.keyIdx] else Free);
      Inv(k) && Accepts(k, s[1..])
  {
    Front(g.(scan := Chars(true, if Top(g) then text else [])), s);
  }

  lemma ColonFront(k: State, s: Bytes)
    requires Inv(k) && k.scan == Between && k.expects == ObjectColon && Accepts(k, s) && (s != [] ==> !IsWs(s[0]))
    ensures s != [] && s[0] == COLON && s == [COLON] + s[1..] && Inv(k.(expects := Value)) && Accepts(k.(expects := Value), s[1..])
  {
    OpenNotDone(k, s);
    Front(k, s);
  }

  lemma {:induction false} MemberParse(g: State, s: Bytes, ws: Bytes, u: Bytes) returns (m: Member, rest: Bytes)
    requires AtKey(g) && s == ws + u && Ws(ws, g.allowWs) && Accepts(g, u) && u != [] && u[0] == QUOTE
    ensures s == RenderMember(m) + rest && |rest| < |s| && MemberOk(m, g.allowWs)
    ensures Top(g) ==> g.keyIdx < |g.root.keys| == |g.root.types| && MemberIs(m, g.root.keys[g.keyIdx], g.root.types[g.keyIdx])
    ensures Inv(Past(g)) && Accepts(Past(g), rest) && (rest != [] ==> !IsWs(rest[0]))
    decreases |s|, 3
  {
    AtKeyInv(g);
    hide *;
    var key, t := QuotedParse(g, u);
    var k := g.(expects := ObjectColon, pending := if Top(g) then g.root.types[g.keyIdx] else Free);
    var h := k.(expects := Value);
    var between, t2 := WsParse(k, t);
    ColonFront(k, t2);
    var before, u3 := WsParse(h, t2[1..]);
    AheadIs(h, u3);
    var e, r;
    e, rest, r := ElementParse(h, t2[1..], before, u3);
    m := Member(ws, key, between, e);
    MemberHolds(g, h, m, r);
    Joined(ws, Quoted(key), between, [COLON], RenderElement(e), rest, u, t, t2);
  }

  lemma Joined(a: Bytes, b: Bytes, c: Bytes, d: Bytes, e: Bytes, rest: Bytes, u: Bytes, t: Bytes, t2: Bytes)
    requires u == b + t && t == c + t2 && t2 == d + (e + rest)
    ensures a + u == a + (b + (c + (d + e))) + rest
  {
  }

  lemma AtKeyInv(g: State)
    requires AtKey(g)
    ensures Inv(g) && g.scan == Between
  {
  }

  lemma MemberHolds(g: State, h: State, m: Member, r: State)
    requires AtKey(g) && Inv(h) && Done(h, r) && Ws(m.before, g.allowWs) && BodyOk(m.key) && Ws(m.between, g.allowWs) && ElementOk(m.element, g.allowWs)
    requires Top(g) ==> g.keyIdx < |g.root.keys| && Unescaped(m.key) && RenderChars(m.key) == g.root.keys[g.keyIdx]
    requires h == g.(expects := Value, pending := if Top(g) then g.root.types[g.keyIdx] else Free) && HasType(m.element.value, TypeHere(h))
    ensures MemberOk(m, g.allowWs) && r == Past(g) && |g.root.types| == |g.root.keys|
    ensures Top(g) ==> MemberIs(m, g.root.keys[g.keyIdx], g.root.types[g.keyIdx])
    ensures RenderMember(m) == m.before + (Quoted(m.key) + (m.between + ([COLON] + RenderElement(m.element))))
  {
    PastIs(g, h, r);
    MemberText(m);
    hide Inv;
    hide RenderMember;
    hide RenderElement;
    hide RenderChars;
    hide Quoted;
    hide ElementOk;
    hide BodyOk;
    hide Ws;
    hide Past;
    hide Done;
    hide HasType;
  }

  lemma PastIs(g: State, h: State, r: State)
    requires AtKey(g) && Done(h, r) && h == g.(expects := Value, pending := if Top(g) && g.keyIdx < |g.root.types| then g.root.types[g.keyIdx] else Free)
    ensures r == Past(g) && |g.root.types| == |g.root.keys| && g.stack != []
    ensures InValue(h) ==> TypeHere(h) == h.pending
  {
  }

  lemma MemberText(m: Member)
    ensures RenderMember(m) == m.before + (Quoted(m.key) + (m.between + ([COLON] + RenderElement(m.element))))
  {
    hide RenderElement;
    hide Quoted;
  }

  lemma NextKey(g: State, s: Bytes)
    requires AtKey(g) && Inv(Past(g)) && Accepts(Past(g), s) && (s != [] ==> !IsWs(s[0]))
    requires Top(g) ==> g.keyIdx < |g.root.keys|
    ensures s != [] && s == [s[0]] + s[1..] && (s[0] == RBRACE || s[0] == COMMA)
    ensures s[0] == RBRACE ==> Full(g) == Past(g) && (Top(g) ==> g.keyIdx + 1 == |g.root.keys|)
    ensures s[0] == COMMA ==>
              var h := Past(g).(expects := ObjectKey);
              && AtKey(h) && Accepts(h, s[1..]) && Full(h) == Full(g) && (Top(g) ==> g.keyIdx + 1 < |g.root.keys|)
              && h.allowWs == g.allowWs && h.root == g.root && (Top(h) <==> Top(g)) && (Top(g) ==> h.keyIdx == g.keyIdx + 1)
  {
    OpenNotDone(Past(g), s);
    Front(Past(g), s);
  }

  lemma KeyAhead(g: State, s: Bytes)
    requires AtKey(g) && Accepts(g, s) && (s != [] ==> !IsWs(s[0]))
    ensures s != [] && (s[0] == QUOTE || (g.expects == ObjectKeyOrEnd && s[0] == RBRACE))
    ensures s[0] == RBRACE ==> (Top(g) ==> g.keyIdx == |g.root.keys|)
  {
    OpenNotDone(g, s);
    Front(g, s);
  }

  lemma {:induction false} MembersParse(g: State, s: Bytes, ws: Bytes, u: Bytes) returns (ms: Members, rest: Bytes)
    requires AtKey(g) && s == ws + u && Ws(ws, g.allowWs) && Accepts(g, u) && u != [] && u[0] == QUOTE
    ensures s == RenderMembers(ms) + rest && |rest| < |s| && rest != [] && rest[0] == RBRACE && MembersOk(ms, g.allowWs)
    ensures Top(g) ==> g.keyIdx < |g.root.keys| == |g.root.types| && Declared(ms, g.root.keys[g.keyIdx..], g.root.types[g.keyIdx..])
    ensures Inv(Full(g)) && Accepts(Full(g), rest)
    decreases |s|, 4
  {
    hide *;
    var m, t := MemberParse(g, s, ws, u);
    NextKey(g, t);
    if t[0] == RBRACE {
      ms, rest := LastMember(m), t;
      LastIs(g, m);
    } else {
      var h := Past(g).(expects := ObjectKey);
      var ws2, u2 := WsParse(h, t[1..]);
      KeyAhead(h, u2);
      var more;
      more, rest := MembersParse(h, t[1..], ws2, u2);
      ms := MoreMembers(m, more);
      MoreIs(g, m, more);
      assert s == (RenderMember(m) + [COMMA] + RenderMembers(more)) + rest;
    }
  }

  lemma LastIs(g: State, m: Member)
    requires Top(g) ==> g.keyIdx + 1 == |g.root.keys| == |g.root.types| && MemberIs(m, g.root.keys[g.keyIdx], g.root.types[g.keyIdx])
    ensures RenderMembers(LastMember(m)) == RenderMember(m) && (MemberOk(m, g.allowWs) ==> MembersOk(LastMember(m), g.allowWs))
    ensures Top(g) ==> Declared(LastMember(m), g.root.keys[g.keyIdx..], g.root.types[g.keyIdx..])
  {
    hide MemberIs;
  }

  lemma MoreIs(g: State, m: Member, more: Members)
    requires Top(g) ==>
               && g.keyIdx + 1 < |g.root.keys| == |g.root.types| && MemberIs(m, g.root.keys[g.keyIdx], g.root.types[g.keyIdx])
               && Declared(more, g.root.keys[g.keyIdx + 1..], g.root.types[g.keyIdx + 1..])
    ensures RenderMembers(MoreMembers(m, more)) == RenderMember(m) + [COMMA] + RenderMembers(more)
    ensures MemberOk(m, g.allowWs) && MembersOk(more, g.allowWs) ==> MembersOk(MoreMembers(m, more), g.allowWs)
    ensures Top(g) ==> Declared(MoreMembers(m, more), g.root.keys[g.keyIdx..], g.root.types[g.keyIdx..])
  {
    hide MemberIs;
    if Top(g) {
      assert g.root.keys[g.keyIdx..][1..] == g.root.keys[g.keyIdx + 1..];
      assert g.root.types[g.keyIdx..][1..] == g.root.types[g.keyIdx + 1..];
    }
  }

  lemma {:induction false} ObjectParse(g: State, s: Bytes) returns (v: Value, rest: Bytes, r: State)
    requires ValueAhead(g, s) && s[0] == LBRACE
    ensures s == Render(v) + rest && |rest| < |s| && ValueOk(v, g.allowWs) && HasType(v, TypeHere(g))
    ensures g.schema && g.stack == [] ==> Conforms(v, g.root)
    ensures Inv(r) && Done(g, r) && Accepts(r, rest)
    decreases |s|, 0
  {
    hide *;
    BracketFront(g, s);
    var h, t := Opened(g, LBRACE), s[1..];
    ObjectOpened(g, h);
    var ws, u := WsParse(h, t);
    KeyAhead(h, u);
    if u[0] == RBRACE {
      assert Top(h) ==> |h.root.keys| == 0 && h.root.keys == [];
      v := EmptyObject(ws);
      rest, r := CloseParse(g, h, LBRACE, u);
      EmptyIs(ws, rest, g.allowWs, g.root);
      assert s == [LBRACE] + (ws + ([RBRACE] + rest));
    } else {
      var ms, w := MembersParse(h, t, ws, u);
      v := Object(ms);
      rest, r := CloseParse(g, Full(h), LBRACE, w);
      ObjectIs(ms, rest, g.allowWs, g.root);
      assert s == [LBRACE] + (RenderMembers(ms) + ([RBRACE] + rest));
    }
    FreeType(v, g);
  }

  lemma BracketFront(g: State, s: Bytes)
    requires ValueAhead(g, s) && (s[0] == LBRACE || s[0] == LBRACKET)
    ensures s == [s[0]] + s[1..] && Inv(Opened(g, s[0])) && Accepts(Opened(g, s[0]), s[1..]) && TypeHere(g) == Free
    ensures Inv(g) && g.scan == Between && InValue(g) && Opened(g, s[0]).scan == Between && Opened(g, s[0]).allowWs == g.allowWs
    ensures s[0] == LBRACKET ==> !(g.schema && g.stack == []) && Opened(g, s[0]).stack != [] && Opened(g, s[0]).stack[|g.stack|] == LBRACKET
    ensures |Opened(g, s[0]).stack| == |g.stack| + 1 && |g.root.keys| == |g.root.types|
  {
    ValueFront(g, s);
    assert Opened(g, s[0]) == BeginValue(g, s[0], TypeHere(g)).1;
    hide Accepts;
    hide StackOk;
  }

  lemma FreeType(v: Value, g: State)
    ensures TypeHere(g) == Free ==> HasType(v, TypeHere(g))
  {
  }

  lemma EmptyIs(ws: Bytes, rest: Bytes, spaces: bool, root: Schema)
    requires Ws(ws, spaces)
    ensures Render(EmptyObject(ws)) + rest == [LBRACE] + (ws + ([RBRACE] + rest)) && ValueOk(EmptyObject(ws), spaces)
    ensures Render(EmptyArray(ws)) + rest == [LBRACKET] + (ws + ([RBRACKET] + rest)) && ValueOk(EmptyArray(ws), spaces)
    ensures |root.keys| == |root.types| ==> (Conforms(EmptyObject(ws), root) <==> root.keys == [])
  {
  }

  lemma ObjectIs(ms: Members, rest: Bytes, spaces: bool, root: Schema)
    requires MembersOk(ms, spaces)
    ensures Render(Object(ms)) + rest == [LBRACE] + (RenderMembers(ms) + ([RBRACE] + rest)) && ValueOk(Object(ms), spaces)
    ensures |root.keys| == |root.types| ==> (Conforms(Object(ms), root) <==> Declared(ms, root.keys, root.types))
  {
  }

  lemma ObjectOpened(g: State, h: State)
    requires Inv(g) && g.scan == Between && InValue(g) && TypeHere(g) == Free && h == Opened(g, LBRACE) && Inv(h)
    ensures AtKey(h) && AtClose(g, Full(h), LBRACE) && (Top(h) <==> g.schema && g.stack == [])
    ensures h.scan == Between && h.allowWs == g.allowWs && h.root == g.root && |g.root.keys| == |g.root.types|
    ensures Top(h) ==> h.keyIdx == 0 && h.root.keys[0..] == h.root.keys && h.root.types[0..] == h.root.types
    ensures (Top(h) ==> h.root.keys == []) ==> AtClose(g, h, LBRACE)
  {
  }

  // ---------------------------------------------------------------- the language

  /** Whatever is accepted and complete is a text of the language. */
  lemma AcceptedInLanguage(s: Bytes, spaces: bool, schema: bool, root: Schema)
    requires |root.keys| == |root.types|
    requires Inv(Initial(spaces, schema, root)) && Accepts(Initial(spaces, schema, root), s)
    ensures InLanguage(s, spaces, schema, root)
  {
    var g := Initial(spaces, schema, root);
    var ws, u := WsParse(g, s);
    AheadIs(g, u);
    var e, rest, r := ElementParse(g, s, ws, u);
    if rest != [] {
      Front(r, rest);
      assert false;
    }
    assert RenderElement(e) == s;
  }

  /** The byte strings the automaton accepts throughout and ends complete on are exactly the JSON
      texts: without insignificant whitespace in compact mode, and under a schema exactly those
      that conform to it. */
  lemma LanguageIsJson(s: Bytes, spaces: bool, schema: bool, root: Schema)
    requires |root.keys| == |root.types|
    ensures Inv(Initial(spaces, schema, root))
    ensures Accepts(Initial(spaces, schema, root), s) <==> InLanguage(s, spaces, schema, root)
  {
    InitialInv(spaces, schema, root);
    if Accepts(Initial(spaces, schema, root), s) {
      AcceptedInLanguage(s, spaces, schema, root);
    }
    if InLanguage(s, spaces, schema, root) {
      LanguageAccepted(s, spaces, schema, root);
    }
  }
}
