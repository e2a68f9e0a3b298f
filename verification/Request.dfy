/** A request (src/scheduler/request.h), and the one-request reference loop that says what its
    consumer must receive (the worker's sampling rules run on the request alone). */
module Requests {
  import opened Transformer

  type Params(==, !new, 0)
  /** An RNG key. */
  type Rng(==, !new, 0)
  /** Runtime state of a compiled JSON grammar. */
  type Gram(==, !new, 0)
  /** A token's log-probability record. */
  type Record(==, !new, 0)

  /** The sampler, as deterministic functions. */
  datatype Sampler = Sampler(
    key: int -> Rng,
    split: Rng -> (Rng, Rng),
    sample: (Logits, Params, Rng, seq<int>) -> (int, Record),
    mask: (Gram, Logits) -> Logits,
    advance: (Gram, int) -> Gram)

  datatype Reason = Running | Stop | Length | Cancel

  /** One push to a request's queues. */
  datatype Push = Token(id: int) | Logprob(record: Record)

  /** Every token, right after it its record when records are wanted. */
  ghost function Pushes(tokens: seq<int>, logprobs: seq<Record>, want: bool): seq<Push>
    requires want ==> |logprobs| == |tokens|
  {
    if tokens == [] then []
    else
      var last := |tokens| - 1;
      Pushes(tokens[..last], if want then logprobs[..last] else [], want) + [Token(tokens[last])] + if want then [Logprob(logprobs[last])] else []
  }

  class Request {
    const prompt: seq<int>
    const params: Params
    const seed: int
    const maxTokens: nat
    const eosIds: seq<int>
    /** params.has_penalties() */
    const penalties: bool
    /** params.top_logprobs >= 0 */
    const wantLogprobs: bool
    /** A schema was given and the engine has a tokenizer. */
    const constrained: bool
    const compiled: Gram
    /** Whether its submitter sets `cancelled` at some point. */
    const cancels: bool

    var grammar: Gram
    /** Everything pushed to the token queue, and to the log-prob queue. */
    var tokens: seq<int>
    var logprobs: seq<Record>
    var closed: bool
    var reason: Reason
    /** What was pushed to the two queues, in order. */
    ghost var pushed: seq<Push>

    /** The queues were fed in lockstep. */
    ghost predicate InLockstep()
      reads this
    {
      |logprobs| == (if wantLogprobs then |tokens| else 0) && pushed == Pushes(tokens, logprobs, wantLogprobs)
    }

    /** What the engine accepts: a non-empty prompt and room for at least one token. */
    predicate Wellformed() {
      prompt != [] && 0 < maxTokens
    }

    ghost predicate Untouched()
      reads this
    {
      && Wellformed() && tokens == [] && logprobs == [] && pushed == [] && !closed && reason == Running
      && (constrained || grammar == compiled)
    }

    constructor (ids: seq<int>, p: Params, s: int, budget: nat, eos: seq<int>, pen: bool, lp: bool, con: bool, g: Gram, gone: bool)
      requires ids != [] && 0 < budget
      ensures Untouched() && prompt == ids && params == p && seed == s && maxTokens == budget && eosIds == eos
      ensures penalties == pen && wantLogprobs == lp && constrained == con && compiled == g && cancels == gone
    {
      prompt, params, seed, maxTokens, eosIds := ids, p, s, budget, eos;
      penalties, wantLogprobs, constrained, compiled, cancels := pen, lp, con, g, gone;
      grammar, tokens, logprobs, closed, reason, pushed := g, [], [], false, Running, [];
    }
  }

  // ---------------------------------------------------------------- the reference loop

  /** Where the generation of one request stands. */
  datatype Gen = Gen(history: seq<int>, rng: Rng, gram: Gram, tokens: seq<int>, logprobs: seq<Record>, reason: Reason)

  function Start(s: Sampler, q: Request): Gen {
    Gen(q.prompt, s.key(q.seed), q.compiled, [], [], Running)
  }

  /** One draw: logits masked by the grammar, a fresh subkey, the history when penalties need it. */
  function Draw(s: Sampler, q: Request, logits: Logits, rng: Rng, gram: Gram, history: seq<int>): (int, Record) {
    s.sample(if q.constrained then s.mask(gram, logits) else logits, q.params, s.split(rng).1,
             if q.penalties && history != [] then history else [])
  }

  function AdvanceGrammar(s: Sampler, q: Request, gram: Gram, id: int): Gram {
    if q.constrained then s.advance(gram, id) else gram
  }

  /** Take token `id` into the generation. */
  function Take(s: Sampler, q: Request, g: Gen, id: int, record: Record): Gen {
    var next := g.(history := g.history + [id], rng := s.split(g.rng).0, gram := AdvanceGrammar(s, q, g.gram, id));
    if id in q.eosIds then next.(reason := Stop)
    else
      var emitted := next.(tokens := g.tokens + [id], logprobs := g.logprobs + if q.wantLogprobs then [record] else []);
      if |emitted.tokens| >= q.maxTokens then emitted.(reason := Length) else emitted
  }

  ghost function RefStep(m: Model, s: Sampler, q: Request, g: Gen): (r: Gen)
    ensures r.reason == Running ==> |r.tokens| == |g.tokens| + 1 && |r.tokens| < q.maxTokens
  {
    var (id, record) := Draw(s, q, NextLogits(m, g.history), g.rng, g.gram, g.history);
    Take(s, q, g, id, record)
  }

  /** Run the generation to its end. */
  ghost function Generate(m: Model, s: Sampler, q: Request, g: Gen): (r: Gen)
    requires g.reason == Running ==> |g.tokens| < q.maxTokens
    ensures r.reason == Stop || r.reason == Length || r == g
    decreases if g.reason == Running then q.maxTokens - |g.tokens| + 1 else 0
  {
    if g.reason == Running then Generate(m, s, q, RefStep(m, s, q, g)) else g
  }

  /** The reference: what request `q` generates alone. */
  ghost function Reference(m: Model, s: Sampler, q: Request): (r: Gen)
    requires q.Wellformed()
    ensures r.reason == Stop || r.reason == Length
  {
    var r := RefStep(m, s, q, Start(s, q));
    Generate(m, s, q, r)
  }

  /** What the worker may see as cancelled at some moment. */
  ghost predicate Cancellable(cancelled: set<Request>) {
    forall r :: r in cancelled ==> r.cancels
  }

  lemma ReferenceIsGenerate(m: Model, s: Sampler, q: Request)
    requires q.Wellformed()
    ensures Reference(m, s, q) == Generate(m, s, q, Start(s, q))
  {
  }

  /** Whatever is generated later only extends what has been emitted. */
  lemma {:induction false} GenerateExtends(m: Model, s: Sampler, q: Request, g: Gen)
    requires g.reason == Running ==> |g.tokens| < q.maxTokens
    ensures g.tokens <= Generate(m, s, q, g).tokens
    ensures g.logprobs <= Generate(m, s, q, g).logprobs
    decreases if g.reason == Running then q.maxTokens - |g.tokens| + 1 else 0
  {
    if g.reason == Running {
      GenerateExtends(m, s, q, RefStep(m, s, q, g));
    }
  }

  /** `g` is a state of the reference run of `q`, still running. */
  ghost predicate Live(m: Model, s: Sampler, q: Request, g: Gen) {
    && q.Wellformed() && g.reason == Running && |g.tokens| < q.maxTokens
    && Generate(m, s, q, g) == Reference(m, s, q)
  }

  /** What a finished request's consumer has received: all of the reference, or part of it when
      its submitter cancelled it. */
  ghost predicate Settled(m: Model, s: Sampler, q: Request)
    reads q
  {
    && q.Wellformed() && q.InLockstep()
    && var ref := Reference(m, s, q);
       if q.reason == Cancel then q.cancels && q.tokens <= ref.tokens && q.logprobs <= ref.logprobs
       else q.tokens == ref.tokens && q.logprobs == ref.logprobs && q.reason == ref.reason
  }

  /** One drawn token moves a live generation on, or settles it. */
  lemma LiveStep(m: Model, s: Sampler, q: Request, g: Gen)
    requires Live(m, s, q, g)
    ensures
      var next := RefStep(m, s, q, g);
      if next.reason == Running then Live(m, s, q, next) else next == Reference(m, s, q)
  {
    var next := RefStep(m, s, q, g);
    assert Generate(m, s, q, g) == Generate(m, s, q, next);
  }

  lemma LivePrefix(m: Model, s: Sampler, q: Request, g: Gen)
    requires Live(m, s, q, g)
    ensures g.tokens <= Reference(m, s, q).tokens && g.logprobs <= Reference(m, s, q).logprobs
  {
    GenerateExtends(m, s, q, g);
  }

  lemma PushesNext(tokens: seq<int>, logprobs: seq<Record>, id: int, lp: Record, want: bool)
    requires |logprobs| == if want then |tokens| else 0
    ensures Pushes(tokens + [id], logprobs + (if want then [lp] else []), want)
         == Pushes(tokens, logprobs, want) + [Token(id)] + if want then [Logprob(lp)] else []
  {
    assert (tokens + [id])[..|tokens|] == tokens && (logprobs + [lp])[..|logprobs|] == logprobs;
    assert logprobs == [] || want;
  }

  /** consume: emit token `id`, or stop at an EOS. True when the request is finished. */
  method Consume(req: Request, produced: nat, id: int, lp: Record, hasLp: bool) returns (done: bool, now: nat)
    requires !req.closed && req.reason == Running && produced == |req.tokens|
    modifies req
    ensures req.closed == old(req.closed) && req.grammar == old(req.grammar)
    ensures now == |req.tokens|
    ensures old(req.InLockstep()) && hasLp == req.wantLogprobs ==> req.InLockstep()
    ensures if id in req.eosIds then done && req.reason == Stop && req.tokens == old(req.tokens) && req.logprobs == old(req.logprobs)
            else
              && req.tokens == old(req.tokens) + [id]
              && req.logprobs == old(req.logprobs) + (if hasLp then [lp] else [])
              && done == (|req.tokens| >= req.maxTokens) && req.reason == if done then Length else Running
  {
    if id in req.eosIds {
      req.reason := Stop;
      return true, produced;
    }
    if |req.logprobs| == if hasLp then |req.tokens| else 0 {
      PushesNext(req.tokens, req.logprobs, id, lp, hasLp);
    }
    req.tokens := req.tokens + [id];
    req.pushed := req.pushed + [Token(id)];
    if hasLp {
      req.logprobs := req.logprobs + [lp];
      req.pushed := req.pushed + [Logprob(lp)];
    }
    now := produced + 1;
    if now >= req.maxTokens {
      req.reason := Length;
      return true, now;
    }
    return false, now;
  }

  /** greedy_generate (src/runtime/single_stream.cpp): the single-request loop, with the forward pass
      over its own cache taken as NextLogits of everything fed so far. For a greedy request the
      reference is this loop. */
  method GreedyGenerate(m: Model, s: Sampler, q: Request, greedy: Logits -> int) returns (tokens: seq<int>, hitEos: bool)
    requires q.Wellformed() && !q.penalties && !q.constrained
    requires forall l, r :: s.sample(l, q.params, r, []).0 == greedy(l)
    ensures tokens == Reference(m, s, q).tokens
    ensures hitEos <==> Reference(m, s, q).reason == Stop
  {
    tokens, hitEos := [], false;
    ghost var g := Start(s, q);
    var fed := q.prompt;
    var next := greedy(NextLogits(m, fed));
    for i := 0 to q.maxTokens
      invariant |tokens| == i && !hitEos && tokens == g.tokens
      invariant if i < q.maxTokens then Live(m, s, q, g) && fed == g.history else g == Reference(m, s, q) && g.reason == Length
      invariant i < q.maxTokens ==> next == greedy(NextLogits(m, fed))
    {
      LiveStep(m, s, q, g);
      g := RefStep(m, s, q, g);
      if next in q.eosIds {
        hitEos := true;
        break;
      }
      tokens := tokens + [next];
      fed := fed + [next];
      next := greedy(NextLogits(m, fed));
    }
  }
}
