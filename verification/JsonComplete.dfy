/** Every JSON text is accepted: feeding the text of a derivation takes the automaton through it. */
module JsonComplete {
  import opened JsonGrammars
  import opened JsonText

  // ---------------------------------------------------------------- terminals

  /** The automaton's byte classes are the RFC's terminals. */
  lemma Terminals(b: Byte)
    ensures WsByte(b) <==> IsWs(b)
    ensures (Digit(b) <==> IsDigit(b)) && (NonzeroDigit(b) <==> IsDigit19(b)) && (HexDigit(b) <==> IsHex(b))
    ensures EscapeByte(b) <==> IsEscape(b)
    ensures PlainByte(b) <==> 0x20 <= b && b != QUOTE && b != BACKSLASH
    ensures ExpMark(b) <==> IsExpMark(b)
  {
  }

  // ---------------------------------------------------------------- running pieces of text

  lemma One(g: State, b: Byte)
    requires Inv(g)
    ensures InBounds(g)
    ensures Run(g, [b]) == if Step(g, b).0 then At(Step(g, b).1) else Rejected
  {
    InvInBounds(g);
    if Step(g, b).0 {
      StepInv(g, b);
      assert [b][1..] == [];
    }
  }

  /** `a`, accepted up to `h`, then `b`. */
  lemma Then(g: State, a: Bytes, b: Bytes, h: State)
    requires Inv(g) && Run(g, a) == At(h)
    ensures Inv(h) && Run(g, a + b) == Run(h, b)
  {
    RunSplit(g, a, b);
  }

  /** A number ends when the next byte does not extend it: the state that next byte meets. */
  function Settle(g: State): State {
    if g.scan.Number? && Terminable(g.scan.num) then PushValueDone(g) else g
  }

  lemma SettleInv(g: State)
    requires Inv(g)
    ensures Inv(Settle(g)) && (Complete(g) <==> Complete(Settle(g)))
  {
    if g.scan.Number? && Terminable(g.scan.num) {
      Room(g);
      EndedInv(g);
    }
  }

  /** Bytes that end a number. */
  predicate Delimiter(b: Byte) { IsWs(b) || b == COMMA || b == RBRACKET || b == RBRACE }

  lemma SettleRun(g: State, s: Bytes)
    requires Inv(g) && s != [] && (g.scan.Number? && Terminable(g.scan.num) ==> !NextNum(g.scan.num, g.scan.intOnly, s[0]).0)
    ensures Inv(Settle(g)) && Run(g, s) == Run(Settle(g), s)
  {
    SettleInv(g);
    InvInBounds(g);
    InvInBounds(Settle(g));
    hide Inv;
    hide NextNum;
    hide Structural;
    assert Step(g, s[0]) == Step(Settle(g), s[0]);
  }

  lemma {:induction false} WsRuns(g: State, ws: Bytes)
    requires Inv(g) && g.scan == Between && Ws(ws, g.allowWs)
    ensures Run(g, ws) == At(g)
    decreases |ws|
  {
    if ws != [] {
      assert IsWs(ws[0]);
      WsRuns(g, ws[1..]);
    }
  }

  // ---------------------------------------------------------------- strings

  lemma {:induction false} HexRuns(g: State, hex: Bytes)
    requires Inv(g) && g.scan.Hex? && g.scan.left == |hex| && forall i :: 0 <= i < |hex| ==> IsHex(hex[i])
    ensures Run(g, hex) == At(g.(scan := Chars(g.scan.key, g.scan.sofar)))
    decreases |hex|
  {
    InvInBounds(g);
    StepInv(g, hex[0]);
    if |hex| > 1 {
      HexRuns(g.(scan := Hex(g.scan.key, g.scan.sofar, g.scan.left - 1)), hex[1..]);
    } else {
      assert hex[1..] == [];
    }
  }

  lemma CharRuns(g: State, c: Char)
    requires Inv(g) && g.scan.Chars? && !(g.scan.key && Top(g)) && CharOk(c)
    ensures Run(g, RenderChar(c)) == At(g)
  {
    var key, sofar := g.scan.key, g.scan.sofar;
    match c {
      case Plain(b) =>
        Terminals(b);
        One(g, b);
      case Escaped(b) => EscapedRuns(g, b);
      case Unicode(hex) => UnicodeRuns(g, hex);
    }
  }

  lemma EscapeBegins(g: State)
    requires Inv(g) && g.scan.Chars? && !(g.scan.key && Top(g))
    ensures var h := g.(scan := Escape(g.scan.key, g.scan.sofar)); Inv(h) && Run(g, [BACKSLASH]) == At(h)
  {
    One(g, BACKSLASH);
  }

  lemma EscapedRuns(g: State, b: Byte)
    requires Inv(g) && g.scan.Chars? && !(g.scan.key && Top(g)) && EscapeByte(b)
    ensures Run(g, [BACKSLASH, b]) == At(g)
  {
    EscapeBegins(g);
    Terminals(b);
    var h := g.(scan := Escape(g.scan.key, g.scan.sofar));
    One(h, b);
    hide Inv;
    hide IsEscape;
    Then(g, [BACKSLASH], [b], h);
    assert [BACKSLASH, b] == [BACKSLASH] + [b];
  }

  lemma UnicodeRuns(g: State, hex: Bytes)
    requires Inv(g) && g.scan.Chars? && !(g.scan.key && Top(g)) && |hex| == 4 && forall i :: 0 <= i < 4 ==> HexDigit(hex[i])
    ensures Run(g, [BACKSLASH, LOWER_U] + hex) == At(g)
  {
    EscapeBegins(g);
    var h, k := g.(scan := Escape(g.scan.key, g.scan.sofar)), g.(scan := Hex(g.scan.key, g.scan.sofar, 4));
    One(h, LOWER_U);
    forall i | 0 <= i < 4
      ensures IsHex(hex[i])
    {
      Terminals(hex[i]);
    }
    hide Run;
    Then(g, [BACKSLASH], [LOWER_U] + hex, h);
    Then(h, [LOWER_U], hex, k);
    assert [BACKSLASH, LOWER_U] + hex == [BACKSLASH] + ([LOWER_U] + hex);
    HexRuns(k, hex);
  }

  lemma {:induction false} CharsRun(g: State, body: seq<Char>)
    requires Inv(g) && g.scan.Chars? && !(g.scan.key && Top(g)) && BodyOk(body)
    ensures Run(g, RenderChars(body)) == At(g)
    decreases |body|
  {
    if body != [] {
      CharRuns(g, body[0]);
      Then(g, RenderChar(body[0]), RenderChars(body[1..]), g);
      CharsRun(g, body[1..]);
    }
  }

  /** A schema key, byte by byte. */
  lemma {:induction false} KeyCharsRun(g: State, body: seq<Char>)
    requires Inv(g) && g.scan.Chars? && g.scan.key && Top(g) && BodyOk(body) && Unescaped(body)
    requires g.keyIdx < |g.root.keys| && g.scan.sofar + RenderChars(body) <= g.root.keys[g.keyIdx]
    ensures Run(g, RenderChars(body)) == At(g.(scan := Chars(true, g.scan.sofar + RenderChars(body))))
    decreases |body|
  {
    hide *;
    var sofar, text := g.scan.sofar, RenderChars(body);
    if body != [] {
      var b := PlainHead(body);
      var h := g.(scan := Chars(true, sofar + [b]));
      assert sofar + text == (sofar + [b]) + RenderChars(body[1..]);
      assert g.root.keys[g.keyIdx][|sofar|] == (sofar + text)[|sofar|] == b;
      KeyByte(g, b);
      Then(g, [b], RenderChars(body[1..]), h);
      KeyCharsRun(h, body[1..]);
    } else {
      assert body == [];
      NoChars(g);
    }
  }

  lemma NoChars(g: State)
    requires Inv(g)
    ensures RenderChars([]) == [] && Run(g, []) == At(g) && (g.scan.Chars? ==> g.scan.sofar + [] == g.scan.sofar)
    ensures g.scan.Chars? && g.scan.key ==> g == g.(scan := Chars(true, g.scan.sofar))
  {
  }

  lemma PlainHead(body: seq<Char>) returns (b: Byte)
    requires body != [] && BodyOk(body) && Unescaped(body)
    ensures RenderChars(body) == [b] + RenderChars(body[1..]) && PlainByte(b) && BodyOk(body[1..]) && Unescaped(body[1..])
  {
    assert CharOk(body[0]);
    b := body[0].b;
  }

  lemma KeyByte(g: State, b: Byte)
    requires Inv(g) && g.scan.Chars? && g.scan.key && Top(g) && PlainByte(b)
    requires g.keyIdx < |g.root.keys| && g.scan.sofar + [b] <= g.root.keys[g.keyIdx]
    ensures var h := g.(scan := Chars(true, g.scan.sofar + [b])); Run(g, [b]) == At(h) && Inv(h) && Top(h)
  {
    assert g.root.keys[g.keyIdx][|g.scan.sofar|] == (g.scan.sofar + [b])[|g.scan.sofar|] == b;
    One(g, b);
  }

  // ---------------------------------------------------------------- numbers

  lemma {:induction false} DigitsRun(g: State, ds: Bytes)
    requires Inv(g) && g.scan.Number? && g.scan.num in [IntDigits, FracDigits, ExpDigits] && Digits(ds)
    ensures Run(g, ds) == At(g)
    decreases |ds|
  {
    if ds != [] {
      assert IsDigit(ds[0]);
      NumByte(g, ds[0]);
      Then(g, [ds[0]], ds[1..], g);
      assert ds == [ds[0]] + ds[1..];
      DigitsRun(g, ds[1..]);
    }
  }

  lemma NumByte(g: State, b: Byte)
    requires Inv(g) && g.scan.Number? && NextNum(g.scan.num, g.scan.intOnly, b).0
    ensures Run(g, [b]) == At(g.(scan := Number(NextNum(g.scan.num, g.scan.intOnly, b).1, g.scan.intOnly)))
  {
    hide NextNum;
    One(g, b);
  }

  lemma FracRuns(g: State, frac: Bytes)
    requires Inv(g) && g.scan.Number? && g.scan.num in [IntZero, IntDigits] && Digits(frac) && (frac != [] ==> !g.scan.intOnly)
    ensures Run(g, RenderFrac(frac)) == At(if frac == [] then g else g.(scan := Number(FracDigits, false)))
  {
    if frac != [] {
      hide Inv;
      hide Run;
      NumByte(g, DOT);
      var h := g.(scan := Number(FracDot, false));
      Then(g, [DOT], frac, h);
      NumByte(h, frac[0]);
      var k := g.(scan := Number(FracDigits, false));
      assert frac == [frac[0]] + frac[1..];
      Then(h, [frac[0]], frac[1..], k);
      DigitsRun(k, frac[1..]);
    }
  }

  lemma ExpRuns(g: State, e: Exponent)
    requires Inv(g) && g.scan.Number? && g.scan.num in [IntZero, IntDigits, FracDigits]
    requires ExpOk(e) && (e.Exp? ==> !g.scan.intOnly)
    ensures Run(g, RenderExp(e)) == At(if e.NoExp? then g else g.(scan := Number(ExpDigits, false)))
  {
    if e.Exp? {
      hide Inv;
      hide Run;
      NumByte(g, e.mark);
      var h := g.(scan := Number(ExpStart, false));
      Then(g, [e.mark], e.sign + e.digits, h);
      assert RenderExp(e) == [e.mark] + (e.sign + e.digits);
      if e.sign == [] {
        assert e.sign + e.digits == e.digits;
        ExpDigitsRun(h, e.digits);
      } else {
        NumByte(h, e.sign[0]);
        assert e.sign == [e.sign[0]];
        var d := g.(scan := Number(ExpAfterSign, false));
        Then(h, e.sign, e.digits, d);
        ExpDigitsRun(d, e.digits);
      }
    }
  }

  lemma ExpDigitsRun(g: State, ds: Bytes)
    requires Inv(g) && g.scan.Number? && g.scan.num in [ExpStart, ExpAfterSign] && ds != [] && Digits(ds)
    ensures Run(g, ds) == At(g.(scan := Number(ExpDigits, g.scan.intOnly)))
  {
    hide Inv;
    hide Run;
    var k := g.(scan := Number(ExpDigits, g.scan.intOnly));
    assert ds == [ds[0]] + ds[1..];
    NumByte(g, ds[0]);
    Then(g, [ds[0]], ds[1..], k);
    DigitsRun(k, ds[1..]);
  }

  /** The type the next value must have. */
  function TypeHere(g: State): Type {
    if g.expects == Value then g.pending else Free
  }

  /** A value's first byte, at a place for a value. */
  lemma BeginByte(g: State, b: Byte)
    requires Inv(g) && g.scan == Between && InValue(g) && !IsWs(b) && b != RBRACKET && BeginValue(g, b, TypeHere(g)).0
    requires g.schema && g.stack == [] ==> b == LBRACE
    ensures Run(g, [b]) == At(BeginValue(g, b, TypeHere(g)).1)
  {
    hide BeginValue;
    One(g, b);
  }

  lemma WholeRuns(g: State, neg: bool, whole: Bytes)
    requires Inv(g) && g.scan == Between && InValue(g) && WholeOk(whole) && !(g.schema && g.stack == [])
    requires TypeHere(g) in [Free, NumberType, IntegerType]
    ensures Run(g, (if neg then [MINUS] else []) + whole)
         == At(g.(scan := Number(if whole == [ZERO] then IntZero else IntDigits, TypeHere(g) == IntegerType)))
  {
    hide Inv;
    hide Run;
    hide InValue;
    var only := TypeHere(g) == IntegerType;
    var k := g.(scan := Number(if whole == [ZERO] then IntZero else IntDigits, only));
    var rest := whole[1..];
    assert whole == [whole[0]] + rest;
    if neg {
      BeginByte(g, MINUS);
      var h := g.(scan := Number(Sign, only));
      Then(g, [MINUS], whole, h);
      NumByte(h, whole[0]);
      Then(h, [whole[0]], rest, k);
    } else {
      assert [] + whole == whole;
      BeginByte(g, whole[0]);
      Then(g, [whole[0]], rest, k);
    }
    WholeRest(k, whole);
  }

  lemma WholeRest(k: State, whole: Bytes)
    requires Inv(k) && WholeOk(whole) && k.scan.Number? && k.scan.num == if whole == [ZERO] then IntZero else IntDigits
    ensures Run(k, whole[1..]) == At(k)
  {
    if whole == [ZERO] {
      assert whole[1..] == [];
    } else {
      DigitsRun(k, whole[1..]);
    }
  }

  lemma NumeralRuns(g: State, v: Value, spaces: bool)
    requires Inv(g) && g.scan == Between && InValue(g) && !(g.schema && g.stack == [])
    requires v.Numeral? && ValueOk(v, spaces) && HasType(v, TypeHere(g))
    ensures Run(g, Render(v)).At?
    ensures
      var r := Run(g, Render(v)).state;
      r.scan.Number? && Terminable(r.scan.num) && r == g.(scan := r.scan)
  {
    hide Inv;
    hide Run;
    hide InValue;
    hide RenderFrac;
    hide RenderExp;
    var head, frac, exp := (if v.neg then [MINUS] else []) + v.whole, RenderFrac(v.frac), RenderExp(v.exp);
    WholeRuns(g, v.neg, v.whole);
    var h := Run(g, head).state;
    Then(g, head, frac + exp, h);
    FracRuns(h, v.frac);
    var k := Run(h, frac).state;
    Then(h, frac, exp, k);
    ExpRuns(k, v.exp);
    assert Render(v) == head + (frac + exp);
  }

  // ---------------------------------------------------------------- words and strings as values

  lemma {:induction false} LitRuns(g: State, rest: Bytes)
    requires Inv(g) && g.scan == Literal(rest)
    ensures Run(g, rest) == At(PushValueDone(g))
    decreases |rest|
  {
    InvInBounds(g);
    StepInv(g, rest[0]);
    if |rest| > 1 {
      LitRuns(g.(scan := Literal(rest[1..])), rest[1..]);
    }
  }

  lemma WordRuns(g: State, v: Value, spaces: bool)
    requires Inv(g) && g.scan == Between && InValue(g) && !(g.schema && g.stack == [])
    requires v.Word? && ValueOk(v, spaces) && HasType(v, TypeHere(g))
    ensures Run(g, Render(v)) == At(PushValueDone(g))
  {
    hide Inv;
    hide Run;
    hide InValue;
    var h := g.(scan := Literal(v.text[1..]));
    BeginByte(g, v.text[0]);
    assert v.text == [v.text[0]] + v.text[1..];
    Then(g, [v.text[0]], v.text[1..], h);
    LitRuns(h, v.text[1..]);
  }

  lemma TextRuns(g: State, v: Value, spaces: bool)
    requires Inv(g) && g.scan == Between && InValue(g) && !(g.schema && g.stack == [])
    requires v.Text? && ValueOk(v, spaces) && HasType(v, TypeHere(g))
    ensures Run(g, Render(v)) == At(PushValueDone(g))
  {
    hide Inv;
    hide Run;
    hide InValue;
    var h := g.(scan := Chars(false, []));
    BeginByte(g, QUOTE);
    Then(g, [QUOTE], RenderChars(v.body) + [QUOTE], h);
    assert Render(v) == [QUOTE] + (RenderChars(v.body) + [QUOTE]);
    CharsRun(h, v.body);
    Then(h, RenderChars(v.body), [QUOTE], h);
    One(h, QUOTE);
  }

  // ---------------------------------------------------------------- containers

  /** A value `g` was waiting for has ended: only the root forgets how far its keys were. */
  predicate Done(g: State, r: State) {
    r == PushValueDone(g).(keyIdx := if g.stack == [] then r.keyIdx else PushValueDone(g).keyIdx)
  }

  /** Where the first member or item of a new container stands. */
  function Opened(g: State, bracket: Byte): State {
    g.(stack := g.stack + [bracket], expects := if bracket == LBRACE then ObjectKeyOrEnd else ArrayValueOrEnd)
  }

  lemma OpenByte(g: State, bracket: Byte)
    requires Inv(g) && g.scan == Between && InValue(g) && TypeHere(g) == Free
    requires bracket == LBRACE || (bracket == LBRACKET && !(g.schema && g.stack == []))
    ensures Run(g, [bracket]) == At(Opened(g, bracket)) && Inv(Opened(g, bracket))
    ensures g.stack != [] ==> !Top(Opened(g, bracket))
    ensures g.schema && g.stack == [] ==> g.keyIdx == 0
  {
    BeginByte(g, bracket);
    Then(g, [bracket], [], Opened(g, bracket));
  }

  /** In an opened container, at its closing bracket. */
  predicate AtClose(g: State, h: State, bracket: Byte) {
    && h.stack == g.stack + [bracket] && h.scan == Between && h.pending == Free
    && h.allowWs == g.allowWs && h.schema == g.schema && h.root == g.root && (g.stack != [] ==> h.keyIdx == g.keyIdx)
    && if bracket == LBRACE then (h.expects == ObjectKeyOrEnd || h.expects == ObjectNext) && (Top(h) ==> h.keyIdx == |h.root.keys|)
       else h.expects == ArrayValueOrEnd || h.expects == ArrayNext
  }

  /** Closing the container completes the value `g` was waiting for. */
  lemma CloseByte(g: State, h: State, bracket: Byte, close: Byte)
    requires Inv(g) && Inv(h) && g.scan == Between && InValue(g) && TypeHere(g) == Free && AtClose(g, h, bracket)
    requires (bracket == LBRACE && close == RBRACE) || (bracket == LBRACKET && close == RBRACKET)
    ensures Run(h, [close]).At? && Done(g, Run(h, [close]).state)
  {
    assert h.stack[..|h.stack| - 1] == g.stack;
    One(h, close);
    assert Step(h, close) == (true, CloseContainer(h));
  }

  /** The closing bracket after the container's text `inner`. */
  lemma Wrapped(g: State, bracket: Byte, inner: Bytes, close: Byte, r: State)
    requires Inv(g) && g.scan == Between && InValue(g) && TypeHere(g) == Free
    requires (bracket == LBRACE && close == RBRACE) || (bracket == LBRACKET && close == RBRACKET && !(g.schema && g.stack == []))
    requires Inv(Opened(g, bracket)) && Run(Opened(g, bracket), inner) == At(r) && AtClose(g, Settle(r), bracket)
    ensures Run(g, [bracket] + inner + [close]).At? && Done(g, Run(g, [bracket] + inner + [close]).state)
  {
    hide *;
    OpenByte(g, bracket);
    var h := Opened(g, bracket);
    Then(h, inner, [close], r);
    Then(g, [bracket], inner + [close], h);
    assert [bracket] + inner + [close] == [bracket] + (inner + [close]);
    Ends(close);
    SettleInv(r);
    SettleRun(r, [close]);
    CloseByte(g, Settle(r), bracket, close);
  }

  /** Delimiters extend no number. */
  lemma Ends(b: Byte)
    ensures Delimiter(b) || b == RBRACE || b == RBRACKET || b == COMMA ==> forall n, only :: !NextNum(n, only, b).0
  {
  }

  lemma Unsettled(g: State)
    ensures g.scan == Between ==> Settle(g) == g
  {
  }

  lemma EmptyRuns(g: State, bracket: Byte, ws: Bytes, close: Byte)
    requires Inv(g) && g.scan == Between && InValue(g) && TypeHere(g) == Free && Ws(ws, g.allowWs)
    requires (bracket == LBRACE && close == RBRACE && (g.schema && g.stack == [] ==> g.root.keys == []))
          || (bracket == LBRACKET && close == RBRACKET && !(g.schema && g.stack == []))
    ensures Run(g, [bracket] + ws + [close]).At? && Done(g, Run(g, [bracket] + ws + [close]).state)
  {
    OpenByte(g, bracket);
    var h := Opened(g, bracket);
    WsRuns(h, ws);
    Wrapped(g, bracket, ws, close, h);
  }

  // ---------------------------------------------------------------- values

  /** A value is accepted where one may stand, and ends there. */
  lemma {:induction false} ValueRuns(g: State, v: Value)
    requires Inv(g) && g.scan == Between && InValue(g) && ValueOk(v, g.allowWs) && HasType(v, TypeHere(g))
    requires g.schema && g.stack == [] ==> Conforms(v, g.root)
    ensures Run(g, Render(v)).At? && Done(g, Settle(Run(g, Render(v)).state))
    decreases v
  {
    match v {
      case Word(_) => WordRuns(g, v, g.allowWs);
      case Numeral(_, _, _, _) => NumeralRuns(g, v, g.allowWs);
      case Text(_) => TextRuns(g, v, g.allowWs);
      case EmptyArray(ws) => EmptyRuns(g, LBRACKET, ws, RBRACKET);
      case EmptyObject(ws) => EmptyRuns(g, LBRACE, ws, RBRACE);
      case Array(items) =>
        OpenByte(g, LBRACKET);
        ItemsRun(Opened(g, LBRACKET), items);
        Wrapped(g, LBRACKET, RenderItems(items), RBRACKET, Run(Opened(g, LBRACKET), RenderItems(items)).state);
      case Object(members) =>
        OpenByte(g, LBRACE);
        MembersRun(Opened(g, LBRACE), members);
        Wrapped(g, LBRACE, RenderMembers(members), RBRACE, Run(Opened(g, LBRACE), RenderMembers(members)).state);
    }
  }

  lemma {:induction false} ElementRuns(g: State, e: Element)
    requires Inv(g) && g.scan == Between && InValue(g) && ElementOk(e, g.allowWs) && HasType(e.value, TypeHere(g))
    requires g.schema && g.stack == [] ==> Conforms(e.value, g.root)
    ensures Run(g, RenderElement(e)).At? && Done(g, Settle(Run(g, RenderElement(e)).state))
    decreases e
  {
    WsRuns(g, e.before);
    ValueRuns(g, e.value);
    Trailing(g, e, Run(g, Render(e.value)).state);
  }

  lemma Trailing(g: State, e: Element, r: State)
    requires Inv(g) && Ws(e.after, g.allowWs) && Run(g, e.before) == At(g)
    requires Run(g, Render(e.value)) == At(r) && Done(g, Settle(r))
    ensures Run(g, RenderElement(e)).At? && Done(g, Settle(Run(g, RenderElement(e)).state))
  {
    hide *;
    var text := Render(e.value);
    Then(g, e.before, text + e.after, g);
    ElementText(e);
    Then(g, text, e.after, r);
    DoneMeans(g, Settle(r));
    SettleInv(r);
    if e.after == [] {
      Then(g, text, [], r);
      assert text + e.after == text;
    } else {
      FirstWs(e.after, g.allowWs);
      SettleRun(r, e.after);
      WsRuns(Settle(r), e.after);
      Unsettled(Settle(r));
    }
  }

  lemma ElementText(e: Element)
    ensures RenderElement(e) == e.before + (Render(e.value) + e.after)
  {
  }

  lemma FirstWs(ws: Bytes, spaces: bool)
    requires Ws(ws, spaces) && ws != []
    ensures IsWs(ws[0]) && forall n, only :: !NextNum(n, only, ws[0]).0
  {
  }

  lemma DoneMeans(g: State, r: State)
    requires Done(g, r)
    ensures r.scan == Between && r.allowWs == g.allowWs && r.schema == g.schema && r.root == g.root && r.stack == g.stack
  {
  }

  lemma {:induction false} ItemsRun(g: State, items: Items)
    requires Inv(g) && g.scan == Between && InValue(g) && g.stack != [] && g.stack[|g.stack| - 1] == LBRACKET && ItemsOk(items, g.allowWs)
    ensures Run(g, RenderItems(items)).At? && Settle(Run(g, RenderItems(items)).state) == PushValueDone(g)
    decreases items
  {
    InArray(g);
    match items {
      case LastItem(e) => ElementRuns(g, e);
      case MoreItems(e, rest) =>
        ElementRuns(g, e);
        var r := Run(g, RenderElement(e)).state;
        CommaRuns(g, RenderElement(e), RenderItems(rest), r);
        var h := PushValueDone(g).(expects := Value);
        ItemsRun(h, rest);
        assert PushValueDone(h) == PushValueDone(g);
    }
  }

  /** Inside an array nothing is typed. */
  lemma InArray(g: State)
    requires Inv(g) && g.stack != [] && g.stack[|g.stack| - 1] == LBRACKET
    ensures !Top(g) && g.pending == Free && TypeHere(g) == Free
  {
  }

  lemma CommaRuns(g: State, first: Bytes, rest: Bytes, r: State)
    requires Inv(g) && g.stack != [] && g.stack[|g.stack| - 1] == LBRACKET && Run(g, first) == At(r) && Settle(r) == PushValueDone(g)
    ensures Inv(PushValueDone(g).(expects := Value))
    ensures Run(g, first + [COMMA] + rest) == Run(PushValueDone(g).(expects := Value), rest)
  {
    var h := PushValueDone(g).(expects := Value);
    Then(g, first, [COMMA] + rest, r);
    assert first + [COMMA] + rest == first + ([COMMA] + rest);
    Ends(COMMA);
    SettleInv(r);
    SettleRun(r, [COMMA] + rest);
    One(Settle(r), COMMA);
    Then(Settle(r), [COMMA], rest, h);
  }

  // ---------------------------------------------------------------- members

  /** After one more member of an object. */
  function Past(g: State): State {
    g.(scan := Between, pending := Free, expects := ObjectNext, keyIdx := if Top(g) then g.keyIdx + 1 else g.keyIdx)
  }

  /** After the last member. */
  function Full(g: State): State {
    g.(scan := Between, pending := Free, expects := ObjectNext, keyIdx := if Top(g) then |g.root.keys| else g.keyIdx)
  }

  predicate AtKey(g: State) {
    Inv(g) && g.scan == Between && (g.expects == ObjectKeyOrEnd || g.expects == ObjectKey)
  }

  /** A key, quoted. */
  lemma KeyRuns(g: State, key: seq<Char>)
    requires AtKey(g) && BodyOk(key)
    requires Top(g) ==> g.keyIdx < |g.root.keys| && Unescaped(key) && RenderChars(key) == g.root.keys[g.keyIdx]
    ensures Run(g, Quoted(key)) == At(g.(expects := ObjectColon, pending := if Top(g) then g.root.types[g.keyIdx] else Free))
  {
    var text := RenderChars(key);
    var h := g.(scan := Chars(true, []));
    One(g, QUOTE);
    Then(g, [QUOTE], text + [QUOTE], h);
    assert Quoted(key) == [QUOTE] + (text + [QUOTE]);
    if Top(g) {
      assert [] + text == text;
      KeyCharsRun(h, key);
      var k := g.(scan := Chars(true, text));
      Then(h, text, [QUOTE], k);
      One(k, QUOTE);
    } else {
      CharsRun(h, key);
      Then(h, text, [QUOTE], h);
      One(h, QUOTE);
    }
  }

  lemma {:induction false} MemberRuns(g: State, m: Member)
    requires AtKey(g) && MemberOk(m, g.allowWs)
    requires Top(g) ==> g.keyIdx < |g.root.keys| && MemberIs(m, g.root.keys[g.keyIdx], g.root.types[g.keyIdx])
    ensures Run(g, RenderMember(m)).At? && Settle(Run(g, RenderMember(m)).state) == Past(g)
    decreases m
  {
    var h := ColonRuns(g, m);
    ElementRuns(h, m.element);
  }

  /** Everything up to a member's value. */
  lemma ColonRuns(g: State, m: Member) returns (h: State)
    requires AtKey(g) && MemberOk(m, g.allowWs)
    requires Top(g) ==> g.keyIdx < |g.root.keys| && MemberIs(m, g.root.keys[g.keyIdx], g.root.types[g.keyIdx])
    ensures h == g.(expects := Value, pending := if Top(g) then g.root.types[g.keyIdx] else Free) && Inv(h)
    ensures h.stack != [] && TypeHere(h) == h.pending && PushValueDone(h) == Past(g)
    ensures Run(g, RenderMember(m)) == Run(h, RenderElement(m.element))
  {
    MemberParts(g, m);
    hide *;
    var tail := RenderElement(m.element);
    var k := g.(expects := ObjectColon, pending := if Top(g) then g.root.types[g.keyIdx] else Free);
    h := k.(expects := Value);
    WsRuns(g, m.before);
    Then(g, m.before, Quoted(m.key) + (m.between + ([COLON] + tail)), g);
    KeyRuns(g, m.key);
    Then(g, Quoted(m.key), m.between + ([COLON] + tail), k);
    WsRuns(k, m.between);
    Then(k, m.between, [COLON] + tail, k);
    ColonByte(g, k);
    Then(k, [COLON], tail, h);
  }

  lemma MemberParts(g: State, m: Member)
    requires AtKey(g) && MemberOk(m, g.allowWs)
    requires Top(g) ==> g.keyIdx < |g.root.keys| && MemberIs(m, g.root.keys[g.keyIdx], g.root.types[g.keyIdx])
    ensures RenderMember(m) == m.before + (Quoted(m.key) + (m.between + ([COLON] + RenderElement(m.element))))
    ensures Ws(m.before, g.allowWs) && Ws(m.between, g.allowWs) && BodyOk(m.key)
    ensures Inv(g) && g.scan == Between && |g.root.types| == |g.root.keys|
    ensures Top(g) ==> Unescaped(m.key) && RenderChars(m.key) == g.root.keys[g.keyIdx]
  {
  }

  lemma ColonByte(g: State, k: State)
    requires AtKey(g) && Inv(k) && (Top(g) ==> g.keyIdx < |g.root.keys| == |g.root.types|)
    requires k == g.(expects := ObjectColon, pending := if Top(g) then g.root.types[g.keyIdx] else Free)
    ensures Run(k, [COLON]) == At(k.(expects := Value))
    ensures g.stack != [] && TypeHere(k.(expects := Value)) == k.pending && PushValueDone(k.(expects := Value)) == Past(g)
  {
    One(k, COLON);
  }

  lemma {:induction false} MembersRun(g: State, ms: Members)
    requires AtKey(g) && MembersOk(ms, g.allowWs)
    requires Top(g) ==> g.keyIdx <= |g.root.keys| && Declared(ms, g.root.keys[g.keyIdx..], g.root.types[g.keyIdx..])
    ensures Run(g, RenderMembers(ms)).At?
    ensures Settle(Run(g, RenderMembers(ms)).state) == Full(g)
    decreases ms
  {
    match ms {
      case LastMember(m) => MemberRuns(g, m);
      case MoreMembers(m, rest) =>
        if Top(g) {
          assert g.root.keys[g.keyIdx..][1..] == g.root.keys[g.keyIdx + 1..];
          assert g.root.types[g.keyIdx..][1..] == g.root.types[g.keyIdx + 1..];
        }
        MemberRuns(g, m);
        var h := Past(g).(expects := ObjectKey);
        NextMember(g, RenderMember(m), RenderMembers(rest), Run(g, RenderMember(m)).state, h);
        MembersRun(h, rest);
        assert Full(h) == Full(g);
    }
  }

  lemma NextMember(g: State, first: Bytes, rest: Bytes, r: State, h: State)
    requires AtKey(g) && Run(g, first) == At(r) && Settle(r) == Past(g) && h == Past(g).(expects := ObjectKey)
    requires Top(g) ==> g.keyIdx + 1 < |g.root.keys|
    ensures Inv(h) && Run(g, first + [COMMA] + rest) == Run(h, rest)
  {
    Then(g, first, [COMMA] + rest, r);
    assert first + [COMMA] + rest == first + ([COMMA] + rest);
    Ends(COMMA);
    SettleInv(r);
    SettleRun(r, [COMMA] + rest);
    One(Past(g), COMMA);
    Then(Past(g), [COMMA], rest, h);
  }

  // ---------------------------------------------------------------- the theorem's first half

  /** Every text of the language is accepted, and complete. */
  lemma LanguageAccepted(s: Bytes, spaces: bool, schema: bool, root: Schema)
    requires |root.keys| == |root.types| && InLanguage(s, spaces, schema, root)
    ensures Inv(Initial(spaces, schema, root)) && Accepts(Initial(spaces, schema, root), s)
  {
    var g := Initial(spaces, schema, root);
    InitialInv(spaces, schema, root);
    var e: Element :| ElementOk(e, spaces) && (schema ==> Conforms(e.value, root)) && RenderElement(e) == s;
    ElementRuns(g, e);
    SettleInv(Run(g, s).state);
  }
}
