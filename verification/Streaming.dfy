/** From the worker to the consumers: what a served request's consumer ends up with (src/runtime/worker.cpp,
    consume and evict_finished; src/capi/mlxforge.cpp, mlxforge_request_next). */
module Streaming {
  import opened Transformer
  import opened Requests
  import S = TokenStreams

  /** Stands in the plan where no record is wanted. */
  const NO_RECORD: Record

  function PlanFrom(tokens: seq<int>, logprobs: seq<Record>, want: bool): (p: S.Plan)
    requires |logprobs| == if want then |tokens| else 0
    ensures |p.outs| == |tokens| && p.want == want
  {
    S.Plan(seq(|tokens|, i requires 0 <= i < |tokens| => (tokens[i], if want then logprobs[i] else NO_RECORD)), want)
  }

  function ActionOf(r: nat, p: Push): S.Action {
    match p
    case Token(id) => S.PushToken(r, id)
    case Logprob(record) => S.PushLogprob(r, record)
  }

  function ActionsOf(r: nat, pushed: seq<Push>): seq<S.Action> {
    if pushed == [] then []
    else
      var last := |pushed| - 1;
      ActionsOf(r, pushed[..last]) + [ActionOf(r, pushed[last])]
  }

  /** All the worker does to request r's queues: its pushes, then evict_finished closes both. */
  function ProgramOf(r: nat, pushed: seq<Push>): seq<S.Action> {
    ActionsOf(r, pushed) + [S.CloseTokens(r), S.CloseLogprobs(r)]
  }

  lemma ActionsSnoc(r: nat, pushed: seq<Push>, p: Push)
    ensures ActionsOf(r, pushed + [p]) == ActionsOf(r, pushed) + [ActionOf(r, p)]
  {
    assert (pushed + [p])[..|pushed|] == pushed;
    hide ActionOf;
  }

  function Taken(logprobs: seq<Record>, want: bool, n: nat): seq<Record>
    requires want ==> n <= |logprobs|
  {
    if want then logprobs[..n] else []
  }

  lemma {:induction false} PushedSoFar(r: nat, tokens: seq<int>, logprobs: seq<Record>, want: bool, n: nat)
    requires |logprobs| == (if want then |tokens| else 0) && n <= |tokens|
    ensures
      var p := PlanFrom(tokens, logprobs, want);
      ActionsOf(r, Pushes(tokens[..n], Taken(logprobs, want, n), want)) + S.Rest(r, p, n) == S.Rest(r, p, 0)
    decreases n
  {
    hide *;
    var p := PlanFrom(tokens, logprobs, want);
    if n == 0 {
      NothingPushed(r, tokens, logprobs, want);
      assert [] + S.Rest(r, p, 0) == S.Rest(r, p, 0);
    } else {
      PushedNext(r, tokens, logprobs, want, n - 1);
      PushedSoFar(r, tokens, logprobs, want, n - 1);
      OneOutput(r, tokens, logprobs, want, n - 1);
      var acts := ActionsOf(r, Pushes(tokens[..n - 1], Taken(logprobs, want, n - 1), want));
      var one := [S.PushToken(r, tokens[n - 1])] + if want then [S.PushLogprob(r, logprobs[n - 1])] else [];
      assert (acts + one) + S.Rest(r, p, n) == acts + (one + S.Rest(r, p, n));
    }
  }

  lemma NothingPushed(r: nat, tokens: seq<int>, logprobs: seq<Record>, want: bool)
    requires |logprobs| == if want then |tokens| else 0
    ensures |Taken(logprobs, want, 0)| == 0 && ActionsOf(r, Pushes(tokens[..0], Taken(logprobs, want, 0), want)) == []
  {
    assert tokens[..0] == [];
  }

  /** The actions of one more output. */
  lemma PushedNext(r: nat, tokens: seq<int>, logprobs: seq<Record>, want: bool, n: nat)
    requires |logprobs| == (if want then |tokens| else 0) && n < |tokens|
    ensures want ==> |Taken(logprobs, want, n)| == n && |Taken(logprobs, want, n + 1)| == n + 1
    ensures ActionsOf(r, Pushes(tokens[..n + 1], Taken(logprobs, want, n + 1), want))
         == ActionsOf(r, Pushes(tokens[..n], Taken(logprobs, want, n), want))
            + ([S.PushToken(r, tokens[n])] + if want then [S.PushLogprob(r, logprobs[n])] else [])
  {
    var before := Pushes(tokens[..n], Taken(logprobs, want, n), want);
    assert tokens[..n + 1] == tokens[..n] + [tokens[n]];
    assert want ==> logprobs[..n + 1] == logprobs[..n] + [logprobs[n]];
    PushesNext(tokens[..n], Taken(logprobs, want, n), tokens[n], if want then logprobs[n] else NO_RECORD, want);
    hide Pushes;
    ActionsSnoc(r, before, Token(tokens[n]));
    if want {
      ActionsSnoc(r, before + [Token(tokens[n])], Logprob(logprobs[n]));
    } else {
      assert Taken(logprobs, want, n) + [] == Taken(logprobs, want, n + 1);
      assert before + [Token(tokens[n])] + [] == before + [Token(tokens[n])];
    }
    hide ActionsOf;
  }

  lemma OneOutput(r: nat, tokens: seq<int>, logprobs: seq<Record>, want: bool, i: nat)
    requires |logprobs| == (if want then |tokens| else 0) && i < |tokens|
    ensures
      var p := PlanFrom(tokens, logprobs, want);
      S.Rest(r, p, i) == [S.PushToken(r, tokens[i])] + (if want then [S.PushLogprob(r, logprobs[i])] else []) + S.Rest(r, p, i + 1)
  {
  }

  /** The worker's pushes to a request form a plan: its tokens in order, each with its own record. */
  lemma ProgramIsPlan(r: nat, tokens: seq<int>, logprobs: seq<Record>, want: bool)
    requires |logprobs| == if want then |tokens| else 0
    ensures ProgramOf(r, Pushes(tokens, logprobs, want)) == S.Rest(r, PlanFrom(tokens, logprobs, want), 0)
  {
    PushedSoFar(r, tokens, logprobs, want, |tokens|);
    assert tokens[..|tokens|] == tokens && Taken(logprobs, want, |tokens|) == logprobs;
  }

  /** Requests the worker has settled, streamed through their queues: at any capacity, whatever the
      interleaving, every consumer that drains its pair ends up with what the request would generate
      alone, records and all; or with a part of it when its submitter cancelled. */
  lemma ConsumersReceive(m: Model, smp: Sampler, served: seq<Request>, start: S.State, es: seq<S.Event>, t: S.State, plans: seq<S.Plan>, capacity: nat)
    requires forall r :: 0 <= r < |served| ==> Settled(m, smp, served[r])
    requires |plans| == |served| && forall r :: 0 <= r < |served| ==>
               served[r].InLockstep() && plans[r] == PlanFrom(served[r].tokens, served[r].logprobs, served[r].wantLogprobs)
    requires |start.streams| == |served| && (forall i :: 0 <= i < |start.program| ==> start.program[i].r < |served|)
    requires forall r :: 0 <= r < |served| ==>
               start.streams[r] == S.EMPTY_STREAM && S.Project(start.program, r) == ProgramOf(r, served[r].pushed)
    requires S.Runs(start, es, t, plans, capacity) && 1 <= capacity && forall e :: !S.Enabled(t, e)
    ensures |t.streams| == |served|
    ensures forall r :: 0 <= r < |served| ==> Received(m, smp, served[r], t.streams[r].gotTokens, t.streams[r].gotLogprobs)
  {
    forall r: nat | r < |plans|
      ensures start.streams[r] == S.EMPTY_STREAM && S.Project(start.program, r) == S.Rest(r, plans[r], 0)
    {
      hide S.Project;
      ProgramIsPlan(r, served[r].tokens, served[r].logprobs, served[r].wantLogprobs);
    }
    hide *;
    Begins(start, plans);
    S.Delivered(start, es, t, plans, capacity);
    forall r | 0 <= r < |served|
      ensures Received(m, smp, served[r], t.streams[r].gotTokens, t.streams[r].gotLogprobs)
    {
      Got(m, smp, served[r]);
    }
  }

  /** What the consumer got is the reference's output, or a front part of it after a cancellation. */
  ghost predicate Received(m: Model, s: Sampler, q: Request, tokens: seq<int>, logprobs: seq<Record>)
    reads q
  {
    && q.Wellformed()
    && var ref := Reference(m, s, q);
       if q.reason == Cancel then q.cancels && tokens <= ref.tokens && logprobs <= ref.logprobs
       else tokens == ref.tokens && logprobs == ref.logprobs
  }

  lemma Begins(s: S.State, plans: seq<S.Plan>)
    requires |s.streams| == |plans| && forall i :: 0 <= i < |s.program| ==> s.program[i].r < |plans|
    requires forall r: nat :: r < |plans| ==> s.streams[r] == S.EMPTY_STREAM && S.Project(s.program, r) == S.Rest(r, plans[r], 0)
    ensures S.Starts(s, plans)
  {
    hide S.Project;
    hide S.Rest;
  }

  lemma Got(m: Model, s: Sampler, q: Request)
    requires Settled(m, s, q)
    ensures |q.logprobs| == (if q.wantLogprobs then |q.tokens| else 0)
    ensures
      var p := PlanFrom(q.tokens, q.logprobs, q.wantLogprobs);
      Received(m, s, q, S.Tokens(p), if p.want then S.Records(p) else [])
  {
    var p := PlanFrom(q.tokens, q.logprobs, q.wantLogprobs);
    assert S.Tokens(p) == q.tokens;
    assert p.want ==> S.Records(p) == q.logprobs;
    hide Reference;
  }
}
