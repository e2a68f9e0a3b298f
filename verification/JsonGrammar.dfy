/** The incremental JSON grammar of constrained decoding (src/sample/json_grammar.cpp): its byte
    automaton, as a class over the source's fields, each method proved against a function of the state. */
module JsonGrammars {
  newtype Byte = x: int | 0 <= x < 0x100
  type Bytes = seq<Byte>

  const QUOTE: Byte := 0x22
  const PLUS: Byte := 0x2B
  const COMMA: Byte := 0x2C
  const MINUS: Byte := 0x2D
  const DOT: Byte := 0x2E
  const SLASH: Byte := 0x2F
  const ZERO: Byte := 0x30
  const COLON: Byte := 0x3A
  const LBRACKET: Byte := 0x5B
  const BACKSLASH: Byte := 0x5C
  const RBRACKET: Byte := 0x5D
  const LOWER_U: Byte := 0x75
  const LBRACE: Byte := 0x7B
  const RBRACE: Byte := 0x7D
  const TRUE: Bytes := [0x74, 0x72, 0x75, 0x65]
  const FALSE: Bytes := [0x66, 0x61, 0x6C, 0x73, 0x65]
  const NULL: Bytes := [0x6E, 0x75, 0x6C, 0x6C]

  predicate IsWs(b: Byte) { b == 0x20 || b == 0x09 || b == 0x0A || b == 0x0D }
  predicate IsDigit(b: Byte) { 0x30 <= b <= 0x39 }
  predicate IsDigit19(b: Byte) { 0x31 <= b <= 0x39 }
  predicate IsHex(b: Byte) { IsDigit(b) || 0x61 <= b <= 0x66 || 0x41 <= b <= 0x46 }
  predicate IsExpMark(b: Byte) { b == 0x65 || b == 0x45 }
  /** What may follow a backslash, other than u: " \ / b f n r t */
  predicate IsEscape(b: Byte) { b in [QUOTE, BACKSLASH, SLASH, 0x62, 0x66, 0x6E, 0x72, 0x74] }

  datatype Expect = Value | ArrayValueOrEnd | ObjectKeyOrEnd | ObjectKey | ObjectColon | ObjectNext | ArrayNext | End
  datatype Scalar = NoScalar | InString | StringEsc | StringU | InNumber | InLit
  datatype Num = Sign | IntZero | IntDigits | FracDot | FracDigits | ExpStart | ExpAfterSign | ExpDigits
  datatype Type = Free | StringType | NumberType | IntegerType | BooleanType

  datatype Schema = Schema(keys: seq<Bytes>, types: seq<Type>)

  /** The scalar being read, with what matters while it is: whether a string is a key and the key
      so far, the hex digits left, the literal's remaining bytes, the number's state. */
  datatype Scan =
    | Between
    | Chars(key: bool, sofar: Bytes)
    | Escape(key: bool, sofar: Bytes)
    | Hex(key: bool, sofar: Bytes, left: int)
    | Literal(rest: Bytes)
    | Number(num: Num, intOnly: bool)

  /** The grammar's state, without what earlier scalars left behind. */
  datatype State = State(
    expects: Expect, stack: seq<Byte>, scan: Scan, keyIdx: nat, pending: Type, allowWs: bool, schema: bool, root: Schema)

  function Initial(allowWs: bool, schema: bool, root: Schema): State {
    State(Value, [], Between, 0, Free, allowWs, schema, root)
  }

  predicate Terminable(n: Num) { n == IntZero || n == IntDigits || n == FracDigits || n == ExpDigits }

  /** Directly inside the schema's object. */
  predicate Top(g: State) { g.schema && |g.stack| == 1 }

  predicate KeysExhausted(g: State) { Top(g) && g.keyIdx >= |g.root.keys| }

  /** The schema's key list is only indexed in bounds. */
  predicate InBounds(g: State) {
    |g.root.types| == |g.root.keys| && (g.scan.Chars? && g.scan.key && Top(g) ==> g.keyIdx < |g.root.keys|)
  }

  function PushValueDone(g: State): State {
    if g.stack == [] then g.(scan := Between, expects := End)
    else
      var inObject := g.stack[|g.stack| - 1] == LBRACE;
      g.(scan := Between, pending := Free, expects := if inObject then ObjectNext else ArrayNext,
         keyIdx := if inObject && Top(g) then g.keyIdx + 1 else g.keyIdx)
  }

  function CloseContainer(g: State): State {
    if g.stack == [] then g else PushValueDone(g.(stack := g.stack[..|g.stack| - 1]))
  }

  function StartKey(g: State): State {
    g.(scan := Chars(true, []))
  }

  /** Whether `b` extends a number in state `n`, and the state it goes to. */
  function NextNum(n: Num, intOnly: bool, b: Byte): (r: (bool, Num))
    ensures !r.0 ==> r.1 == n
  {
    match n
    case Sign =>
      if b == ZERO then (true, IntZero)
      else if IsDigit19(b) then (true, IntDigits)
      else (false, n)
    case IntZero =>
      if intOnly then (false, n)
      else if b == DOT then (true, FracDot)
      else if IsExpMark(b) then (true, ExpStart)
      else (false, n)
    case IntDigits =>
      if IsDigit(b) then (true, n)
      else if intOnly then (false, n)
      else if b == DOT then (true, FracDot)
      else if IsExpMark(b) then (true, ExpStart)
      else (false, n)
    case FracDot =>
      if IsDigit(b) then (true, FracDigits) else (false, n)
    case FracDigits =>
      if IsDigit(b) then (true, n)
      else if IsExpMark(b) then (true, ExpStart)
      else (false, n)
    case ExpStart =>
      if b == PLUS || b == MINUS then (true, ExpAfterSign)
      else if IsDigit(b) then (true, ExpDigits)
      else (false, n)
    case ExpAfterSign =>
      if IsDigit(b) then (true, ExpDigits) else (false, n)
    case ExpDigits => (IsDigit(b), n)
  }

  /** First-byte gating by the value's declared type. */
  predicate Gate(b: Byte, t: Type) {
    match t
    case StringType => b == QUOTE
    case IntegerType => b == MINUS || IsDigit(b)
    case NumberType => b == MINUS || IsDigit(b)
    case BooleanType => b == TRUE[0] || b == FALSE[0]
    case Free => true
  }

  function BeginValue(g: State, b: Byte, t: Type): (bool, State) {
    if !Gate(b, t) then (false, g)
    else if b == QUOTE then (true, g.(scan := Chars(false, [])))
    else if b == LBRACE then (true, g.(stack := g.stack + [LBRACE], expects := ObjectKeyOrEnd))
    else if b == LBRACKET then (true, g.(stack := g.stack + [LBRACKET], expects := ArrayValueOrEnd))
    else if b == TRUE[0] then (true, g.(scan := Literal(TRUE[1..])))
    else if b == FALSE[0] then (true, g.(scan := Literal(FALSE[1..])))
    else if b == NULL[0] then (true, g.(scan := Literal(NULL[1..])))
    else if b == MINUS then (true, g.(scan := Number(Sign, t == IntegerType)))
    else if b == ZERO then (true, g.(scan := Number(IntZero, t == IntegerType)))
    else if IsDigit19(b) then (true, g.(scan := Number(IntDigits, t == IntegerType)))
    else (false, g)
  }

  function Structural(g: State, b: Byte): (bool, State) {
    match g.expects
    case Value =>
      if g.schema && g.stack == [] && b != LBRACE then (false, g) else BeginValue(g, b, g.pending)
    case ArrayValueOrEnd =>
      if b == RBRACKET then (true, CloseContainer(g)) else BeginValue(g, b, Free)
    case ObjectKeyOrEnd =>
      if b == RBRACE then
        if Top(g) && g.keyIdx != |g.root.keys| then (false, g) else (true, CloseContainer(g))
      else if b == QUOTE && !KeysExhausted(g) then (true, StartKey(g))
      else (false, g)
    case ObjectKey =>
      if b == QUOTE && !KeysExhausted(g) then (true, StartKey(g)) else (false, g)
    case ObjectColon =>
      if b == COLON then (true, g.(expects := Value)) else (false, g)
    case ObjectNext =>
      if b == COMMA then
        if KeysExhausted(g) then (false, g) else (true, g.(expects := ObjectKey))
      else if b == RBRACE then
        if Top(g) && g.keyIdx != |g.root.keys| then (false, g) else (true, CloseContainer(g))
      else (false, g)
    case ArrayNext =>
      if b == COMMA then (true, g.(expects := Value, pending := Free))
      else if b == RBRACKET then (true, CloseContainer(g))
      else (false, g)
    case End => (false, g)
  }

  function StringByte(g: State, b: Byte): (bool, State)
    requires InBounds(g) && g.scan.Chars?
  {
    var c := g.scan;
    var topKey := c.key && Top(g);
    if b == QUOTE then
      if !c.key then (true, PushValueDone(g))
      else if topKey && |c.sofar| != |g.root.keys[g.keyIdx]| then (false, g)
      else (true, g.(scan := Between, expects := ObjectColon, pending := if topKey then g.root.types[g.keyIdx] else g.pending))
    else if b == BACKSLASH then
      if topKey then (false, g) else (true, g.(scan := Escape(c.key, c.sofar)))
    else if b < 0x20 then (false, g)
    else if !topKey then (true, g)
    else
      var want := g.root.keys[g.keyIdx];
      if |c.sofar| >= |want| || want[|c.sofar|] != b then (false, g)
      else (true, g.(scan := Chars(true, c.sofar + [b])))
  }

  function NumberByte(g: State, b: Byte): (bool, State)
    requires g.scan.Number?
  {
    var next := NextNum(g.scan.num, g.scan.intOnly, b);
    if next.0 then (true, g.(scan := Number(next.1, g.scan.intOnly)))
    else if !Terminable(g.scan.num) then (false, g)
    else BetweenByte(PushValueDone(g), b)
  }

  /** A byte between scalars: whitespace, or structure. */
  function BetweenByte(g: State, b: Byte): (bool, State) {
    if IsWs(b) then (g.allowWs, g) else Structural(g, b)
  }

  /** One byte: whether it is accepted, and if so the state it leaves. */
  function Step(g: State, b: Byte): (bool, State)
    requires InBounds(g)
  {
    match g.scan
    case Between => BetweenByte(g, b)
    case Chars(_, _) => StringByte(g, b)
    case Escape(key, sofar) =>
      if IsEscape(b) then (true, g.(scan := Chars(key, sofar)))
      else if b == LOWER_U then (true, g.(scan := Hex(key, sofar, 4)))
      else (false, g)
    case Hex(key, sofar, left) =>
      if !IsHex(b) then (false, g)
      else (true, g.(scan := if left == 1 then Chars(key, sofar) else Hex(key, sofar, left - 1)))
    case Literal(rest) =>
      if rest == [] || b != rest[0] then (false, g)
      else if |rest| == 1 then (true, PushValueDone(g))
      else (true, g.(scan := Literal(rest[1..])))
    case Number(_, _) => NumberByte(g, b)
  }

  predicate Complete(g: State) {
    g.expects == End || (g.stack == [] && g.scan.Number? && Terminable(g.scan.num))
  }

  // ---------------------------------------------------------------- what accepted bytes keep

  /** A container stack: under a schema its bottom is the schema's object. */
  predicate StackOk(stack: seq<Byte>, schema: bool) {
    && (forall i :: 0 <= i < |stack| ==> stack[i] == LBRACE || stack[i] == LBRACKET)
    && (schema && stack != [] ==> stack[0] == LBRACE)
  }

  /** The kind of position matches the innermost container. */
  predicate ExpectOk(g: State) {
    match g.expects
    case Value => true
    case ArrayValueOrEnd => g.stack != [] && g.stack[|g.stack| - 1] == LBRACKET
    case ArrayNext => g.stack != [] && g.stack[|g.stack| - 1] == LBRACKET
    case ObjectKeyOrEnd => g.stack != [] && g.stack[|g.stack| - 1] == LBRACE
    case ObjectKey => g.stack != [] && g.stack[|g.stack| - 1] == LBRACE
    case ObjectColon => g.stack != [] && g.stack[|g.stack| - 1] == LBRACE
    case ObjectNext => g.stack != [] && g.stack[|g.stack| - 1] == LBRACE
    case End => g.stack == [] && g.scan == Between
  }

  /** A value, or its first bytes, may stand here. */
  predicate InValue(g: State) { g.expects == Value || g.expects == ArrayValueOrEnd }

  predicate KeyIdxOk(g: State) {
    && |g.root.types| == |g.root.keys| && (g.schema ==> g.keyIdx <= |g.root.keys|)
    && (g.schema && |g.stack| > 1 ==> g.keyIdx < |g.root.keys|)
    && (g.schema && g.stack == [] ==> g.scan == Between && (g.expects == Value ==> g.keyIdx == 0))
    && (Top(g) && g.expects == ObjectKeyOrEnd ==> g.keyIdx == 0)
    && (Top(g) && g.expects == ObjectKey ==> g.keyIdx < |g.root.keys|)
  }

  /** The schema types exactly the values directly inside its object. */
  predicate PendingOk(g: State) {
    if Top(g) && (g.expects == ObjectColon || g.expects == Value) then g.keyIdx < |g.root.types| && g.pending == g.root.types[g.keyIdx]
    else g.pending == Free
  }

  predicate IsKey(scan: Scan) { (scan.Chars? || scan.Escape? || scan.Hex?) && scan.key }

  predicate ScanOk(g: State) {
    && (IsKey(g.scan) ==> g.expects == ObjectKeyOrEnd || g.expects == ObjectKey)
    && (IsKey(g.scan) && Top(g) ==> g.scan.Chars? && g.keyIdx < |g.root.keys| && g.scan.sofar <= g.root.keys[g.keyIdx])
    && (IsKey(g.scan) && !Top(g) ==> g.scan.sofar == [])
    && (g.scan != Between && !IsKey(g.scan) ==> InValue(g))
    && ((g.scan.Chars? || g.scan.Escape? || g.scan.Hex?) && !g.scan.key ==> g.scan.sofar == [])
    && (g.scan.Hex? ==> 1 <= g.scan.left <= 4)
    && (g.scan.Literal? ==> g.scan.rest != [])
  }

  /** The invariant of every accepted run: among others, the schema only ever types the values
      directly inside its object, and its key list is indexed in bounds. */
  predicate Inv(g: State) {
    StackOk(g.stack, g.schema) && ExpectOk(g) && KeyIdxOk(g) && PendingOk(g) && ScanOk(g)
  }

  lemma InitialInv(allowWs: bool, schema: bool, root: Schema)
    requires |root.types| == |root.keys|
    ensures Inv(Initial(allowWs, schema, root))
  {
  }

  lemma InvInBounds(g: State)
    requires Inv(g)
    ensures InBounds(g)
  {
  }

  /** A value has just ended here. */
  predicate Ended(g: State) {
    && |g.root.types| == |g.root.keys| && StackOk(g.stack, g.schema)
    && (g.schema ==> g.keyIdx <= |g.root.keys|) && (g.schema && g.stack != [] ==> g.keyIdx < |g.root.keys|)
    && (g.stack == [] ==> g.pending == Free)
  }

  lemma EndedInv(g: State)
    requires Ended(g)
    ensures Inv(PushValueDone(g))
  {
  }

  lemma CloseInv(g: State)
    requires Inv(g) && g.scan == Between && g.stack != [] && g.pending == Free
    ensures Inv(CloseContainer(g))
  {
    EndedInv(g.(stack := g.stack[..|g.stack| - 1]));
  }

  /** Inside a value there is a schema entry to count off when it ends. */
  lemma Room(g: State)
    requires Inv(g) && (g.scan != Between && !IsKey(g.scan))
    ensures Ended(g) && (g.schema ==> g.stack != [] && g.keyIdx < |g.root.keys|)
  {
  }

  lemma BeginInv(g: State, b: Byte, t: Type)
    requires Inv(g) && g.scan == Between && InValue(g) && BeginValue(g, b, t).0
    requires g.schema && g.stack == [] ==> b == LBRACE
    requires t == if g.expects == Value then g.pending else Free
    ensures Inv(BeginValue(g, b, t).1)
  {
    if b == LBRACE || b == LBRACKET {
      assert StackOk(g.stack + [b], g.schema);
    }
    hide StackOk;
  }

  lemma StructuralInv(g: State, b: Byte)
    requires Inv(g) && g.scan == Between && Structural(g, b).0
    ensures Inv(Structural(g, b).1)
  {
    if g.expects == Value {
      BeginInv(g, b, g.pending);
    } else if g.expects == ArrayValueOrEnd && b != RBRACKET {
      BeginInv(g, b, Free);
    } else if b == RBRACKET || b == RBRACE {
      CloseInv(g);
    }
  }

  lemma BetweenInv(g: State, b: Byte)
    requires Inv(g) && g.scan == Between && BetweenByte(g, b).0
    ensures Inv(BetweenByte(g, b).1)
  {
    hide Inv;
    hide Structural;
    if !IsWs(b) {
      StructuralInv(g, b);
    }
  }

  lemma NumberInv(g: State, b: Byte)
    requires Inv(g) && g.scan.Number? && NumberByte(g, b).0
    ensures Inv(NumberByte(g, b).1)
  {
    hide NextNum;
    hide BetweenByte;
    if !NextNum(g.scan.num, g.scan.intOnly, b).0 {
      Room(g);
      EndedInv(g);
      hide Inv;
      BetweenInv(PushValueDone(g), b);
    }
  }

  lemma StringInv(g: State, b: Byte)
    requires Inv(g) && g.scan.Chars? && StringByte(g, b).0
    ensures Inv(StringByte(g, b).1)
  {
    if b == QUOTE && !g.scan.key {
      Room(g);
      EndedInv(g);
    }
    hide StackOk;
  }

  lemma OtherInv(g: State, b: Byte)
    requires Inv(g) && (g.scan.Escape? || g.scan.Hex? || g.scan.Literal?) && Step(g, b).0
    ensures Inv(Step(g, b).1)
  {
    if g.scan.Literal? {
      Room(g);
      EndedInv(g);
    }
    hide StackOk;
  }

  lemma StepInv(g: State, b: Byte)
    requires Inv(g) && Step(g, b).0
    ensures Inv(Step(g, b).1)
  {
    InvInBounds(g);
    hide Inv;
    hide BetweenByte;
    hide StringByte;
    hide NumberByte;
    match g.scan {
      case Between => BetweenInv(g, b);
      case Chars(_, _) => StringInv(g, b);
      case Number(_, _) => NumberInv(g, b);
      case _ => OtherInv(g, b);
    }
  }

  // ---------------------------------------------------------------- runs

  datatype Outcome = Rejected | At(state: State)

  /** Feed bytes until one is rejected. */
  function Run(g: State, bytes: Bytes): (r: Outcome)
    requires Inv(g)
    ensures r.At? ==> Inv(r.state)
    decreases |bytes|
  {
    if bytes == [] then At(g)
    else
      InvInBounds(g);
      var next := Step(g, bytes[0]);
      if next.0 then StepInv(g, bytes[0]); Run(next.1, bytes[1..]) else Rejected
  }

  /** The bytes from here on, all accepted, make the value complete. */
  predicate Accepts(g: State, bytes: Bytes)
    requires Inv(g)
  {
    Run(g, bytes).At? && Complete(Run(g, bytes).state)
  }

  lemma {:induction false} RunSplit(g: State, a: Bytes, b: Bytes)
    requires Inv(g)
    ensures Run(g, a + b) == if Run(g, a).At? then Run(Run(g, a).state, b) else Rejected
    decreases |a|
  {
    if a == [] {
      assert a + b == b;
    } else {
      assert (a + b)[1..] == a[1..] + b;
      InvInBounds(g);
      if Step(g, a[0]).0 {
        StepInv(g, a[0]);
        RunSplit(Step(g, a[0]).1, a[1..], b);
      }
    }
  }

  // ---------------------------------------------------------------- the object

  class JsonGrammar {
    var expects: Expect
    var scalar: Scalar
    var num: Num
    var intOnly: bool
    var lit: Bytes
    var litPos: nat
    var uLeft: int
    var stack: seq<Byte>
    var allowWs: bool
    const schema: bool
    const root: Schema
    var keyIdx: nat
    var pending: Type
    var curKey: Bytes
    var readingKey: bool

    /** Only a string being read is ever a key. */
    predicate Valid()
      reads this
    {
      readingKey ==> scalar == InString || scalar == StringEsc || scalar == StringU
    }

    function Scanning(): Scan
      reads this
    {
      var sofar := if readingKey then curKey else [];
      match scalar
      case NoScalar => Between
      case InString => Chars(readingKey, sofar)
      case StringEsc => Escape(readingKey, sofar)
      case StringU => Hex(readingKey, sofar, uLeft)
      case InLit => Literal(if litPos <= |lit| then lit[litPos..] else [])
      case InNumber => Number(num, intOnly)
    }

    /** The state the fields describe. */
    function Now(): State
      reads this
    {
      State(expects, stack, Scanning(), keyIdx, pending, allowWs, schema, root)
    }

    /** What a byte did: `r` says whether it is accepted and, if so, what the fields then describe. */
    ghost predicate Did(ok: bool, r: (bool, State))
      reads this
    {
      ok == r.0 && (ok ==> Valid() && Now() == r.1)
    }

    constructor AnyValue()
      ensures Valid() && Now() == Initial(true, false, Schema([], []))
    {
      expects, scalar, num, intOnly, lit, litPos, uLeft, stack, allowWs := Value, NoScalar, Sign, false, [], 0, 0, [], true;
      schema, root, keyIdx, pending, curKey, readingKey := false, Schema([], []), 0, Free, [], false;
    }

    /** The supported schema subset, extracted from its `properties`: ordered keys and scalar types. */
    constructor FromProperties(keys: seq<Bytes>, types: seq<Type>)
      ensures Valid() && Now() == Initial(true, true, Schema(keys, types))
    {
      expects, scalar, num, intOnly, lit, litPos, uLeft, stack, allowWs := Value, NoScalar, Sign, false, [], 0, 0, [], true;
      schema, root, keyIdx, pending, curKey, readingKey := true, Schema(keys, types), 0, Free, [], false;
    }

    constructor Copy(g: JsonGrammar)
      ensures Now() == g.Now() && (g.Valid() ==> Valid())
    {
      expects, scalar, num, intOnly, lit, litPos, uLeft := g.expects, g.scalar, g.num, g.intOnly, g.lit, g.litPos, g.uLeft;
      stack, allowWs, schema, root, keyIdx := g.stack, g.allowWs, g.schema, g.root, g.keyIdx;
      pending, curKey, readingKey := g.pending, g.curKey, g.readingKey;
    }

    method SetCompact(compact: bool)
      modifies this
      ensures Now() == old(Now()).(allowWs := !compact) && (old(Valid()) ==> Valid())
    {
      allowWs := !compact;
    }

    method PushDone()
      requires scalar == NoScalar && Valid()
      modifies this
      ensures Valid() && Now() == PushValueDone(old(Now())) && scalar == NoScalar
    {
      if stack != [] && stack[|stack| - 1] == LBRACE && schema && |stack| == 1 {
        keyIdx := keyIdx + 1;
      }
      if stack == [] {
        expects := End;
        return;
      }
      pending := Free;
      expects := if stack[|stack| - 1] == LBRACE then ObjectNext else ArrayNext;
    }

    method Close()
      requires scalar == NoScalar && Valid()
      modifies this
      ensures Valid() && Now() == CloseContainer(old(Now()))
    {
      if stack == [] {
        return;
      }
      stack := stack[..|stack| - 1];
      PushDone();
    }

    method BeginKey()
      modifies this
      ensures Valid() && Now() == StartKey(old(Now()))
    {
      scalar := InString;
      readingKey := true;
      curKey := [];
    }

    /** number_continue */
    method ContinueNumber(b: Byte) returns (ok: bool)
      requires scalar == InNumber && Valid()
      modifies this
      ensures scalar == InNumber && (ok, num) == NextNum(old(num), intOnly, b)
      ensures Valid() && Now() == old(Now()).(scan := Number(num, old(intOnly)))
    {
      match num {
        case Sign =>
          if b == ZERO { num := IntZero; return true; }
          if IsDigit19(b) { num := IntDigits; return true; }
          return false;
        case IntZero =>
          if intOnly { return false; }
          if b == DOT { num := FracDot; return true; }
          if IsExpMark(b) { num := ExpStart; return true; }
          return false;
        case IntDigits =>
          if IsDigit(b) { return true; }
          if intOnly { return false; }
          if b == DOT { num := FracDot; return true; }
          if IsExpMark(b) { num := ExpStart; return true; }
          return false;
        case FracDot =>
          if IsDigit(b) { num := FracDigits; return true; }
          return false;
        case FracDigits =>
          if IsDigit(b) { return true; }
          if IsExpMark(b) { num := ExpStart; return true; }
          return false;
        case ExpStart =>
          if b == PLUS || b == MINUS { num := ExpAfterSign; return true; }
          if IsDigit(b) { num := ExpDigits; return true; }
          return false;
        case ExpAfterSign =>
          if IsDigit(b) { num := ExpDigits; return true; }
          return false;
        case ExpDigits =>
          return IsDigit(b);
      }
    }

    /** finish_scalar_then: only a terminable number may end implicitly. */
    method FinishThen(b: Byte) returns (ok: bool)
      requires scalar == InNumber && Valid()
      modifies this
      ensures Did(ok, if Terminable(old(num)) then BetweenByte(PushValueDone(old(Now())), b) else (false, old(Now())))
    {
      hide Structural;
      if !Terminable(num) {
        return false;
      }
      scalar := NoScalar;
      PushDone();
      if IsWs(b) {
        return allowWs;
      }
      ok := Structure(b);
    }

    /** begin_value */
    method Begin(b: Byte, t: Type) returns (ok: bool)
      requires scalar == NoScalar && Valid()
      modifies this
      ensures Did(ok, BeginValue(old(Now()), b, t))
    {
      match t {
        case StringType => if b != QUOTE { return false; }
        case IntegerType => if b != MINUS && !IsDigit(b) { return false; }
        case NumberType => if b != MINUS && !IsDigit(b) { return false; }
        case BooleanType => if b != TRUE[0] && b != FALSE[0] { return false; }
        case Free =>
      }
      if b == QUOTE {
        scalar := InString;
      } else if b == LBRACE {
        stack := stack + [LBRACE];
        expects := ObjectKeyOrEnd;
      } else if b == LBRACKET {
        stack := stack + [LBRACKET];
        expects := ArrayValueOrEnd;
      } else if b == TRUE[0] {
        scalar, lit, litPos := InLit, TRUE, 1;
      } else if b == FALSE[0] {
        scalar, lit, litPos := InLit, FALSE, 1;
      } else if b == NULL[0] {
        scalar, lit, litPos := InLit, NULL, 1;
      } else if b == MINUS {
        scalar, num, intOnly := InNumber, Sign, t == IntegerType;
      } else if b == ZERO {
        scalar, num, intOnly := InNumber, IntZero, t == IntegerType;
      } else if IsDigit19(b) {
        scalar, num, intOnly := InNumber, IntDigits, t == IntegerType;
      } else {
        return false;
      }
      return true;
    }

    /** structural */
    method Structure(b: Byte) returns (ok: bool)
      requires scalar == NoScalar && Valid()
      modifies this
      ensures Did(ok, Structural(old(Now()), b))
    {
      match expects {
        case Value =>
          if schema && stack == [] && b != LBRACE { return false; }
          ok := Begin(b, pending);
        case ArrayValueOrEnd =>
          if b == RBRACKET { Close(); return true; }
          ok := Begin(b, Free);
        case ObjectKeyOrEnd =>
          if b == RBRACE {
            if schema && |stack| == 1 && keyIdx != |root.keys| { return false; }
            Close();
            return true;
          }
          if b == QUOTE {
            if KeysExhausted(Now()) { return false; }
            BeginKey();
            return true;
          }
          return false;
        case ObjectKey =>
          if b == QUOTE {
            if KeysExhausted(Now()) { return false; }
            BeginKey();
            return true;
          }
          return false;
        case ObjectColon =>
          if b == COLON { expects := Value; return true; }
          return false;
        case ObjectNext =>
          if b == COMMA {
            if KeysExhausted(Now()) { return false; }
            expects := ObjectKey;
            return true;
          }
          if b == RBRACE {
            if schema && |stack| == 1 && keyIdx != |root.keys| { return false; }
            Close();
            return true;
          }
          return false;
        case ArrayNext =>
          if b == COMMA { expects, pending := Value, Free; return true; }
          if b == RBRACKET { Close(); return true; }
          return false;
        case End =>
          return false;
      }
    }

    /** The string case of feed. */
    method FeedString(b: Byte) returns (ok: bool)
      requires InBounds(Now()) && scalar == InString && Valid()
      modifies this
      ensures Did(ok, StringByte(old(Now()), b))
    {
      if b == QUOTE {
        scalar := NoScalar;
        if readingKey {
          if schema && |stack| == 1 {
            if |curKey| != |root.keys[keyIdx]| { return false; }
            pending := root.types[keyIdx];
          }
          readingKey := false;
          expects := ObjectColon;
        } else {
          PushDone();
        }
        return true;
      }
      if b == BACKSLASH {
        if readingKey && schema && |stack| == 1 { return false; }
        scalar := StringEsc;
        return true;
      }
      if b < 0x20 { return false; }
      if readingKey && schema && |stack| == 1 {
        var want := root.keys[keyIdx];
        if |curKey| >= |want| || want[|curKey|] != b { return false; }
        curKey := curKey + [b];
      }
      return true;
    }

    /** feed: one byte; false when it makes the output invalid. */
    method Feed(b: Byte) returns (ok: bool)
      requires InBounds(Now()) && Valid()
      modifies this
      ensures Did(ok, Step(old(Now()), b))
    {
      hide StringByte;
      hide NextNum;
      hide Structural;
      match scalar {
        case InString =>
          ok := FeedString(b);
        case StringEsc =>
          if IsEscape(b) { scalar := InString; return true; }
          if b == LOWER_U { scalar, uLeft := StringU, 4; return true; }
          return false;
        case StringU =>
          if !IsHex(b) { return false; }
          uLeft := uLeft - 1;
          if uLeft == 0 { scalar := InString; }
          return true;
        case InLit =>
          if litPos >= |lit| { return false; }
          if b != lit[litPos] { return false; }
          litPos := litPos + 1;
          if litPos == |lit| {
            scalar := NoScalar;
            PushDone();
          }
          return true;
        case InNumber =>
          ok := ContinueNumber(b);
          if !ok {
            ok := FinishThen(b);
          }
        case NoScalar =>
          if IsWs(b) { return allowWs; }
          ok := Structure(b);
      }
    }

    /** accepts: probe a copy. */
    method Probe(bytes: Bytes) returns (ok: bool)
      requires Inv(Now()) && Valid()
      ensures ok <==> Run(Now(), bytes).At?
    {
      var probe := new JsonGrammar.Copy(this);
      for i := 0 to |bytes|
        invariant fresh(probe) && Inv(probe.Now()) && probe.Valid()
        invariant Run(Now(), bytes) == Run(probe.Now(), bytes[i..])
      {
        InvInBounds(probe.Now());
        ghost var before := probe.Now();
        assert bytes[i..][1..] == bytes[i + 1..];
        ok := probe.Feed(bytes[i]);
        if !ok {
          return;
        }
        StepInv(before, bytes[i]);
      }
      return true;
    }

    /** advance: commit bytes that Probe has accepted. */
    method Commit(bytes: Bytes)
      requires Inv(Now()) && Valid() && Run(Now(), bytes).At?
      modifies this
      ensures Now() == Run(old(Now()), bytes).state && Inv(Now()) && Valid()
    {
      for i := 0 to |bytes|
        invariant Inv(Now()) && Valid() && Run(old(Now()), bytes) == Run(Now(), bytes[i..])
      {
        InvInBounds(Now());
        ghost var before := Now();
        assert bytes[i..][1..] == bytes[i + 1..];
        var ok := Feed(bytes[i]);
        StepInv(before, bytes[i]);
      }
    }

    /** complete */
    method IsComplete() returns (done: bool)
      ensures done <==> Complete(Now())
    {
      if expects == End { return true; }
      if stack == [] && scalar == InNumber {
        return Terminable(num);
      }
      return false;
    }
  }
}
