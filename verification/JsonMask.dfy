/** No dead ends, and what the logit mask guarantees (src/runtime/worker.cpp, grammar_mask). */
module JsonMask {
  import opened JsonGrammars
  import opened JsonText
  import opened JsonComplete
  import opened JsonSound

  /** A key is written without escapes. */
  predicate PlainKeys(root: Schema) {
    forall i, j :: 0 <= i < |root.keys| && 0 <= j < |root.keys[i]| ==> PlainByte(root.keys[i][j])
  }

  predicate Fair(g: State) { g.schema ==> PlainKeys(g.root) }

  // ---------------------------------------------------------------- a way out of every state

  predicate KeysLeft(g: State) { Top(g) && g.keyIdx < |g.root.keys| }

  /** A structural byte that leads towards the end. */
  function WayOut(g: State): Byte {
    match g.expects
    case Value =>
      if g.schema && g.stack == [] then LBRACE
      else if g.pending == StringType then QUOTE
      else if g.pending == BooleanType then TRUE[0]
      else ZERO
    case ArrayValueOrEnd => RBRACKET
    case ArrayNext => RBRACKET
    case ObjectKeyOrEnd => if KeysLeft(g) then QUOTE else RBRACE
    case ObjectKey => QUOTE
    case ObjectColon => COLON
    case ObjectNext => if KeysLeft(g) then COMMA else RBRACE
    case End => ZERO
  }

  function NextByte(g: State): Byte {
    match g.scan
    case Between => WayOut(g)
    case Chars(key, sofar) =>
      if key && KeysLeft(g) && |sofar| < |g.root.keys[g.keyIdx]| then g.root.keys[g.keyIdx][|sofar|] else QUOTE
    case Escape(_, _) => 0x6E
    case Hex(_, _, _) => ZERO
    case Literal(rest) => if rest == [] then ZERO else rest[0]
    case Number(num, _) => if Terminable(num) then WayOut(PushValueDone(g)) else ZERO
  }

  /** Open containers, the schema's root counting as the object still to come. */
  function Depth(g: State): nat {
    if g.schema && g.stack == [] && g.expects == Value then 2 else |g.stack|
  }

  function Remaining(g: State): nat {
    if g.schema && g.stack != [] && g.keyIdx <= |g.root.keys| then |g.root.keys| - g.keyIdx else 0
  }

  function KeyLength(g: State): nat {
    if KeysLeft(g) then |g.root.keys[g.keyIdx]| else 0
  }

  /** Bytes left of what stands here, before the container or the key list moves on. */
  function Phase(g: State): nat {
    match g.scan
    case Between =>
      (match g.expects
       case Value => 10
       case ObjectColon => 11
       case ObjectKey => 20 + KeyLength(g)
       case ObjectKeyOrEnd => if KeysLeft(g) then 20 + KeyLength(g) else 0
       case ObjectNext => if KeysLeft(g) then 21 + KeyLength(g) else 0
       case _ => 0)
    case Chars(key, sofar) => if key then 12 + (if |sofar| <= KeyLength(g) then KeyLength(g) - |sofar| else 0) else 1
    case Escape(key, _) => if key then 13 else 2
    case Hex(key, _, left) => (if key then 13 else 2) + (if left < 0 then 0 else left)
    case Literal(rest) => |rest|
    case Number(num, _) => if Terminable(num) then 1 else 2
  }

  ghost predicate Less(h: State, g: State) {
    || Depth(h) < Depth(g)
    || (Depth(h) == Depth(g) && Remaining(h) < Remaining(g))
    || (Depth(h) == Depth(g) && Remaining(h) == Remaining(g) && Phase(h) < Phase(g))
  }

  lemma StructuralOut(g: State)
    requires Inv(g) && g.scan == Between && !Complete(g)
    ensures Structural(g, WayOut(g)).0 && !IsWs(WayOut(g)) && Less(Structural(g, WayOut(g)).1, g)
  {
  }

  lemma ScanOut(g: State)
    requires Inv(g) && Fair(g) && !Complete(g) && g.scan != Between && !g.scan.Number?
    ensures InBounds(g) && Step(g, NextByte(g)).0 && Less(Step(g, NextByte(g)).1, g)
  {
  }

  lemma NumberOut(g: State)
    requires Inv(g) && !Complete(g) && g.scan.Number?
    ensures InBounds(g) && Step(g, NextByte(g)).0 && Less(Step(g, NextByte(g)).1, g)
  {
  }

  lemma BetweenOut(g: State)
    requires Inv(g) && !Complete(g) && g.scan == Between
    ensures InBounds(g) && Step(g, NextByte(g)).0 && Less(Step(g, NextByte(g)).1, g)
  {
    StructuralOut(g);
  }

  /** Every state reached has a way to a complete value. */
  lemma {:induction false} Finish(g: State) returns (c: Bytes)
    requires Inv(g) && Fair(g)
    ensures Accepts(g, c)
    decreases Depth(g), Remaining(g), Phase(g)
  {
    if Complete(g) {
      return [];
    }
    if g.scan == Between {
      BetweenOut(g);
    } else if g.scan.Number? {
      NumberOut(g);
    } else {
      ScanOut(g);
    }
    StepInv(g, NextByte(g));
    var h := Step(g, NextByte(g)).1;
    StepConfig(g, NextByte(g));
    var tail := Finish(h);
    c := [NextByte(g)] + tail;
    assert c[1..] == tail;
  }

  lemma StructuralConfig(g: State, b: Byte)
    ensures var h := Structural(g, b).1; h.allowWs == g.allowWs && h.schema == g.schema && h.root == g.root
  {
  }

  /** No byte changes the mode or the schema. */
  lemma StepConfig(g: State, b: Byte)
    requires InBounds(g) && Step(g, b).0
    ensures var h := Step(g, b).1; h.allowWs == g.allowWs && h.schema == g.schema && h.root == g.root
  {
    StructuralConfig(g, b);
    StructuralConfig(PushValueDone(g), b);
    hide Structural;
    hide NextNum;
  }

  lemma {:induction false} RunConfig(g: State, s: Bytes)
    requires Inv(g) && Run(g, s).At?
    ensures var h := Run(g, s).state; h.allowWs == g.allowWs && h.schema == g.schema && h.root == g.root
    decreases |s|
  {
    if s != [] {
      InvInBounds(g);
      StepConfig(g, s[0]);
      StepInv(g, s[0]);
      RunConfig(Step(g, s[0]).1, s[1..]);
    }
  }

  // ---------------------------------------------------------------- exactly which schemas have texts

  lemma {:induction false} PlainRendered(body: seq<Char>)
    requires BodyOk(body) && Unescaped(body)
    ensures forall j :: 0 <= j < |RenderChars(body)| ==> PlainByte(RenderChars(body)[j])
    decreases |body|
  {
    if body != [] {
      assert CharOk(body[0]) && body[0].Plain?;
      PlainRendered(body[1..]);
    }
  }

  lemma {:induction false} DeclaredPlain(ms: Members, keys: seq<Bytes>, types: seq<Type>, spaces: bool)
    requires |keys| == |types| && MembersOk(ms, spaces) && Declared(ms, keys, types)
    ensures forall i, j :: 0 <= i < |keys| && 0 <= j < |keys[i]| ==> PlainByte(keys[i][j])
    decreases ms
  {
    match ms {
      case LastMember(m) => PlainRendered(m.key);
      case MoreMembers(m, rest) =>
        PlainRendered(m.key);
        DeclaredPlain(rest, keys[1..], types[1..], spaces);
        forall i, j | 0 <= i < |keys| && 0 <= j < |keys[i]|
          ensures PlainByte(keys[i][j])
        {
          assert i > 0 ==> keys[i] == keys[1..][i - 1];
        }
    }
  }

  /** Whatever has been accepted can still become a text of the language, exactly when no schema key
      needs an escape. */
  lemma NoDeadEnds(p: Bytes, spaces: bool, schema: bool, root: Schema)
    requires |root.keys| == |root.types| && Inv(Initial(spaces, schema, root)) && Run(Initial(spaces, schema, root), p).At?
    ensures (exists c :: InLanguage(p + c, spaces, schema, root)) <==> (schema ==> PlainKeys(root))
  {
    if schema ==> PlainKeys(root) {
      var c := Completion(p, spaces, schema, root);
    }
    if c :| InLanguage(p + c, spaces, schema, root) {
      TextsArePlain(p + c, spaces, schema, root);
    }
  }

  lemma Completion(p: Bytes, spaces: bool, schema: bool, root: Schema) returns (c: Bytes)
    requires |root.keys| == |root.types| && Inv(Initial(spaces, schema, root)) && Run(Initial(spaces, schema, root), p).At?
    requires schema ==> PlainKeys(root)
    ensures InLanguage(p + c, spaces, schema, root)
  {
    hide InLanguage;
    hide Inv;
    var g := Initial(spaces, schema, root);
    RunConfig(g, p);
    c := Finish(Run(g, p).state);
    RunSplit(g, p, c);
    LanguageIsJson(p + c, spaces, schema, root);
  }

  lemma TextsArePlain(s: Bytes, spaces: bool, schema: bool, root: Schema)
    requires |root.keys| == |root.types| && InLanguage(s, spaces, schema, root)
    ensures schema ==> PlainKeys(root)
  {
    var e: Element :| ElementOk(e, spaces) && (schema ==> Conforms(e.value, root)) && RenderElement(e) == s;
    if schema && e.value.Object? {
      assert ValueOk(Object(e.value.members), spaces);
      DeclaredPlain(e.value.members, root.keys, root.types, spaces);
    }
  }

  // ---------------------------------------------------------------- the mask

  /** Whether a token may come next: an end token exactly when the value is complete, any other
      exactly when its bytes keep it a prefix of one. */
  predicate Allowed(g: State, eos: seq<int>, tokens: seq<Bytes>, id: nat)
    requires Inv(g) && id < |tokens|
  {
    if id in eos then Complete(g) else !Complete(g) && tokens[id] != [] && Run(g, tokens[id]).At?
  }

  /** First bytes decide: a token whose first byte is rejected is rejected. */
  lemma FirstByte(g: State, bytes: Bytes)
    requires Inv(g) && bytes != [] && Run(g, bytes).At?
    ensures Run(g, [bytes[0]]).At?
  {
    One(g, bytes[0]);
  }

  /** grammar_mask: false where the logit is masked out; when that would mask everything, nothing is. */
  method GrammarMask(grammar: JsonGrammar, eos: seq<int>, tokens: seq<Bytes>) returns (allow: seq<bool>)
    requires Inv(grammar.Now()) && grammar.Valid()
    ensures |allow| == |tokens|
    ensures if exists id: nat :: id < |tokens| && Allowed(grammar.Now(), eos, tokens, id)
            then forall id: nat :: id < |tokens| ==> allow[id] == Allowed(grammar.Now(), eos, tokens, id)
            else forall id: nat :: id < |tokens| ==> allow[id]
  {
    ghost var g := grammar.Now();
    var complete := grammar.IsComplete();
    var firstOk := seq(256, _ => false);
    if !complete {
      for b := 0 to 256
        invariant |firstOk| == 256 && forall k :: 0 <= k < b ==> firstOk[k] == Run(g, [k as Byte]).At?
      {
        var ok := grammar.Probe([b as Byte]);
        firstOk := firstOk[b := ok];
      }
    }
    allow := [];
    var allowed := 0;
    ghost var some := 0;
    for id := 0 to |tokens|
      invariant |allow| == id && forall k: nat :: k < id ==> allow[k] == Allowed(g, eos, tokens, k)
      invariant 0 <= allowed && (allowed == 0 ==> forall k: nat :: k < id ==> !allow[k])
      invariant allowed > 0 ==> some < id && allow[some]
    {
      var ok := false;
      if id in eos {
        ok := complete;
      } else if !complete && tokens[id] != [] {
        if !firstOk[tokens[id][0] as int] {
          if Run(g, tokens[id]).At? {
            FirstByte(g, tokens[id]);
          }
        } else {
          ok := grammar.Probe(tokens[id]);
        }
      }
      allow := allow + [ok];
      if ok {
        some := id;
        allowed := allowed + 1;
      }
    }
    if allowed == 0 {
      allow := seq(|tokens|, _ => true);
    }
  }

  /** An end token, and a token for every single byte. */
  ghost predicate Spells(eos: seq<int>, tokens: seq<Bytes>) {
    && (exists id: nat :: id < |tokens| && id in eos)
    && forall b: Byte :: exists id: nat :: id < |tokens| && id !in eos && tokens[id] == [b]
  }

  /** The mask never has to give up. */
  lemma SomethingAllowed(g: State, eos: seq<int>, tokens: seq<Bytes>)
    requires Inv(g) && Fair(g) && Spells(eos, tokens)
    ensures exists id: nat :: id < |tokens| && Allowed(g, eos, tokens, id)
  {
    if Complete(g) {
      var id: nat :| id < |tokens| && id in eos;
      assert Allowed(g, eos, tokens, id);
    } else {
      var c := Finish(g);
      Front(g, c);
      One(g, c[0]);
      var id: nat :| id < |tokens| && id !in eos && tokens[id] == [c[0]];
      assert Allowed(g, eos, tokens, id);
    }
  }

  // ---------------------------------------------------------------- constrained generation

  /** Tokens, each drawn from the mask of the state its predecessors left; an end token is the last. */
  ghost predicate Drawn(g: State, eos: seq<int>, tokens: seq<Bytes>, ids: seq<nat>)
    requires Inv(g)
    decreases |ids|
  {
    ids == [] ||
    (ids[0] < |tokens| && Allowed(g, eos, tokens, ids[0])
     && if ids[0] in eos then |ids| == 1 else Drawn(Run(g, tokens[ids[0]]).state, eos, tokens, ids[1..]))
  }

  function Output(eos: seq<int>, tokens: seq<Bytes>, ids: seq<nat>): Bytes {
    if ids == [] || ids[0] in eos || ids[0] >= |tokens| then [] else tokens[ids[0]] + Output(eos, tokens, ids[1..])
  }

  lemma {:induction false} DrawnOutput(g: State, eos: seq<int>, tokens: seq<Bytes>, ids: seq<nat>)
    requires Inv(g) && Drawn(g, eos, tokens, ids)
    ensures Run(g, Output(eos, tokens, ids)).At?
    ensures ids != [] && ids[|ids| - 1] in eos ==> Complete(Run(g, Output(eos, tokens, ids)).state)
    decreases |ids|
  {
    hide Inv;
    hide Complete;
    hide Step;
    if ids != [] && ids[0] !in eos {
      var h := Run(g, tokens[ids[0]]).state;
      DrawnOutput(h, eos, tokens, ids[1..]);
      RunSplit(g, tokens[ids[0]], Output(eos, tokens, ids[1..]));
    }
  }

  /** Constrained decoding is right: whatever has been emitted is the beginning of a text of the
      language, and when generation stops by itself it is one. */
  lemma ConstrainedOutput(spaces: bool, schema: bool, root: Schema, eos: seq<int>, tokens: seq<Bytes>, ids: seq<nat>)
    requires |root.keys| == |root.types| && (schema ==> PlainKeys(root))
    requires Inv(Initial(spaces, schema, root)) && Drawn(Initial(spaces, schema, root), eos, tokens, ids)
    ensures exists c :: InLanguage(Output(eos, tokens, ids) + c, spaces, schema, root)
    ensures ids != [] && ids[|ids| - 1] in eos ==> InLanguage(Output(eos, tokens, ids), spaces, schema, root)
  {
    var g := Initial(spaces, schema, root);
    DrawnOutput(g, eos, tokens, ids);
    NoDeadEnds(Output(eos, tokens, ids), spaces, schema, root);
    LanguageIsJson(Output(eos, tokens, ids), spaces, schema, root);
  }
}
