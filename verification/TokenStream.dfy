/** The token and log-prob queues (src/scheduler/request.h, SpscQueue) between the worker, which feeds
    every request's pair, and one consumer thread per request, which drains its pair. */
module TokenStreams {
  import Requests

  type Record = Requests.Record
  /** One generated token and its log-prob record. */
  type Output = (int, Record)

  // ---------------------------------------------------------------- one queue

  /** `pushing` and `popping` say that the producer or the consumer sleeps on its condition variable. */
  datatype Queue<T> = Queue(items: seq<T>, closed: bool, pushing: bool, popping: bool)

  function Full<T>(q: Queue<T>, capacity: nat): bool { |q.items| >= capacity && !q.closed }
  function Dry<T>(q: Queue<T>): bool { q.items == [] && !q.closed }

  /** push, from the moment the lock is held: sleep when full, else append and wake the consumer. */
  function Push<T>(q: Queue<T>, item: T, capacity: nat): Queue<T> {
    if Full(q, capacity) then q.(pushing := true)
    else if q.closed then q
    else q.(items := q.items + [item], popping := false)
  }

  /** close: wakes both. */
  function Close<T>(q: Queue<T>): Queue<T> { q.(closed := true, pushing := false, popping := false) }

  /** pop: sleep when there is nothing yet, else take the front and wake the producer. */
  function Pop<T>(q: Queue<T>): Queue<T> {
    if Dry(q) then q.(popping := true)
    else if q.items == [] then q
    else q.(items := q.items[1..], pushing := false)
  }

  /** The queue as the source writes it; `asleep` out-parameters stand for the waits. */
  class SpscQueue<T> {
    const capacity: nat
    var q: seq<T>
    var closed: bool
    var notFull: bool
    var notEmpty: bool

    ghost function Now(): Queue<T>
      reads this
    {
      Queue(q, closed, notFull, notEmpty)
    }

    constructor (cap: nat)
      ensures capacity == cap && Now() == Queue([], false, false, false)
    {
      capacity, q, closed, notFull, notEmpty := cap, [], false, false, false;
    }

    method Add(item: T) returns (asleep: bool)
      modifies this
      ensures Now() == Push(old(Now()), item, capacity) && asleep == Full(old(Now()), capacity)
    {
      asleep := |q| >= capacity && !closed;
      if asleep {
        notFull := true;
        return;
      }
      if closed {
        return;
      }
      q := q + [item];
      notEmpty := false;
    }

    method Shut()
      modifies this
      ensures Now() == Close(old(Now()))
    {
      closed := true;
      notEmpty := false;
      notFull := false;
    }

    method Take() returns (asleep: bool, item: seq<T>)
      modifies this
      ensures Now() == Pop(old(Now())) && asleep == Dry(old(Now()))
      ensures item == if old(q) == [] then [] else [old(q)[0]]
    {
      item := [];
      asleep := q == [] && !closed;
      if asleep {
        notEmpty := true;
        return;
      }
      if q == [] {
        return;
      }
      item := [q[0]];
      q := q[1..];
      notFull := false;
    }
  }

  // ---------------------------------------------------------------- the threads

  /** What the worker does to the streams, in program order. */
  datatype Action =
    | PushToken(r: nat, token: int)
    | PushLogprob(r: nat, record: Record)
    | CloseTokens(r: nat)
    | CloseLogprobs(r: nat)

  /** Where a consumer is: about to pop a token, about to pop that token's record, or told the end. */
  datatype Pc = AtToken | AtLogprob | Done

  datatype Stream = Stream(
    tokens: Queue<int>, logprobs: Queue<Record>, pc: Pc, gotTokens: seq<int>, gotLogprobs: seq<Record>)

  datatype State = State(program: seq<Action>, streams: seq<Stream>)

  /** What each request is sent, and whether it asked for log-probs. */
  datatype Plan = Plan(outs: seq<Output>, want: bool)

  datatype Event = Work | Consume(r: nat)

  predicate Asleep(s: State, e: Event)
    requires e.Consume? ==> e.r < |s.streams|
    requires e.Work? ==> s.program != [] && s.program[0].r < |s.streams|
  {
    match e
    case Work =>
      var st := s.streams[s.program[0].r];
      (s.program[0].PushToken? && st.tokens.pushing) || (s.program[0].PushLogprob? && st.logprobs.pushing)
    case Consume(r) =>
      (s.streams[r].pc.AtToken? && s.streams[r].tokens.popping) || (s.streams[r].pc.AtLogprob? && s.streams[r].logprobs.popping)
  }

  predicate Enabled(s: State, e: Event) {
    match e
    case Work => s.program != [] && s.program[0].r < |s.streams| && !Asleep(s, e)
    case Consume(r) => r < |s.streams| && !s.streams[r].pc.Done? && !Asleep(s, e)
  }

  function Worked(st: Stream, a: Action, capacity: nat): Stream {
    match a
    case PushToken(_, token) => st.(tokens := Push(st.tokens, token, capacity))
    case PushLogprob(_, record) => st.(logprobs := Push(st.logprobs, record, capacity))
    case CloseTokens(_) => st.(tokens := Close(st.tokens))
    case CloseLogprobs(_) => st.(logprobs := Close(st.logprobs))
  }

  /** Whether the worker gets past `a`. */
  predicate Passes(st: Stream, a: Action, capacity: nat) {
    (a.PushToken? ==> !Full(st.tokens, capacity)) && (a.PushLogprob? ==> !Full(st.logprobs, capacity))
  }

  /** The consumer's loop: pop a token; when log-probs were asked for, pop its record. */
  function Consumed(st: Stream, want: bool): Stream {
    if st.pc.AtToken? then
      var now := st.(tokens := Pop(st.tokens));
      if st.tokens.items != [] then now.(gotTokens := st.gotTokens + [st.tokens.items[0]], pc := if want then AtLogprob else AtToken)
      else if st.tokens.closed then now.(pc := Done)
      else now
    else
      var now := st.(logprobs := Pop(st.logprobs));
      if st.logprobs.items != [] then now.(gotLogprobs := st.gotLogprobs + [st.logprobs.items[0]], pc := AtToken)
      else if st.logprobs.closed then now.(pc := AtToken)
      else now
  }

  function Step(s: State, e: Event, plans: seq<Plan>, capacity: nat): State
    requires Enabled(s, e) && |plans| == |s.streams|
  {
    match e
    case Work =>
      var a := s.program[0];
      var st := s.streams[a.r];
      State(if Passes(st, a, capacity) then s.program[1..] else s.program, s.streams[a.r := Worked(st, a, capacity)])
    case Consume(r) => s.(streams := s.streams[r := Consumed(s.streams[r], plans[r].want)])
  }

  // ---------------------------------------------------------------- what the worker's program says

  /** The worker's remaining actions on request `r`. */
  function Project(program: seq<Action>, r: nat): seq<Action> {
    if program == [] then []
    else (if program[0].r == r then [program[0]] else []) + Project(program[1..], r)
  }

  /** Outputs `i` onward: each token, right after it its record if wanted, then both queues closed. */
  function Rest(r: nat, p: Plan, i: nat): seq<Action>
    requires i <= |p.outs|
    decreases |p.outs| - i
  {
    if i == |p.outs| then [CloseTokens(r), CloseLogprobs(r)]
    else [PushToken(r, p.outs[i].0)] + (if p.want then [PushLogprob(r, p.outs[i].1)] else []) + Rest(r, p, i + 1)
  }

  function Tokens(p: Plan): (ts: seq<int>)
    ensures |ts| == |p.outs|
  {
    seq(|p.outs|, i requires 0 <= i < |p.outs| => p.outs[i].0)
  }

  function Records(p: Plan): (rs: seq<Record>)
    ensures |rs| == |p.outs|
  {
    seq(|p.outs|, i requires 0 <= i < |p.outs| => p.outs[i].1)
  }

  function Sent(st: Stream): nat { |st.gotTokens| + |st.tokens.items| }
  function SentRecords(st: Stream): nat { |st.gotLogprobs| + |st.logprobs.items| }

  /** What has been pushed is what the plan says, in order; what has been popped is its front. */
  ghost predicate Carries(st: Stream, p: Plan) {
    && Sent(st) <= |p.outs| && SentRecords(st) <= |p.outs|
    && st.gotTokens + st.tokens.items == Tokens(p)[..Sent(st)]
    && st.gotLogprobs + st.logprobs.items == Records(p)[..SentRecords(st)]
    && (!p.want ==> SentRecords(st) == 0)
  }

  /** The worker's remaining actions on the stream are what is left of the plan. */
  ghost predicate OnPlan(st: Stream, p: Plan, r: nat, rest: seq<Action>)
    requires Carries(st, p)
  {
    if !st.tokens.closed then
      && !st.logprobs.closed
      && ((rest == Rest(r, p, Sent(st)) && (p.want ==> SentRecords(st) == Sent(st)))
          || (p.want && 0 < Sent(st) && SentRecords(st) + 1 == Sent(st)
              && rest == [PushLogprob(r, p.outs[Sent(st) - 1].1)] + Rest(r, p, Sent(st))))
    else
      && Sent(st) == |p.outs| && (p.want ==> SentRecords(st) == Sent(st))
      && rest == if st.logprobs.closed then [] else [CloseLogprobs(r)]
  }

  /** The consumer has popped one record per token, or is about to pop the last token's. */
  ghost predicate InStep(st: Stream, p: Plan) {
    match st.pc
    case AtToken => p.want ==> |st.gotLogprobs| == |st.gotTokens|
    case AtLogprob => p.want && |st.gotLogprobs| + 1 == |st.gotTokens|
    case Done => st.tokens.closed && st.tokens.items == [] && (p.want ==> |st.gotLogprobs| == |st.gotTokens|)
  }

  /** Nobody sleeps on a condition that holds: no wake-up is lost. */
  ghost predicate SleepOk(st: Stream, next: seq<Action>, capacity: nat) {
    && (st.tokens.pushing ==> Full(st.tokens, capacity) && next != [] && next[0].PushToken?)
    && (st.logprobs.pushing ==> Full(st.logprobs, capacity) && next != [] && next[0].PushLogprob?)
    && (st.tokens.popping ==> Dry(st.tokens) && st.pc.AtToken?)
    && (st.logprobs.popping ==> Dry(st.logprobs) && st.pc.AtLogprob?)
  }

  ghost predicate StreamOk(st: Stream, p: Plan, r: nat, rest: seq<Action>, capacity: nat) {
    Carries(st, p) && OnPlan(st, p, r, rest) && InStep(st, p) && SleepOk(st, rest, capacity)
  }

  ghost predicate Inv(s: State, plans: seq<Plan>, capacity: nat) {
    && |s.streams| == |plans|
    && (forall i :: 0 <= i < |s.program| ==> s.program[i].r < |s.streams|)
    && forall r: nat :: r < |s.streams| ==> StreamOk(s.streams[r], plans[r], r, Project(s.program, r), capacity)
  }

  // ---------------------------------------------------------------- one step of one stream

  lemma Front<T>(a: T, rest: seq<T>, s: seq<T>)
    requires [a] + rest == s
    ensures s != [] && a == s[0] && rest == s[1..]
  {
    assert ([a] + rest)[0] == a && ([a] + rest)[1..] == rest;
  }

  /** What the worker's next action on a stream can be, and what is left after it. */
  lemma PlanHead(st: Stream, p: Plan, r: nat, a: Action, rest: seq<Action>)
    requires Carries(st, p) && OnPlan(st, p, r, [a] + rest)
    ensures a.PushToken? ==>
              && !st.tokens.closed && !st.logprobs.closed && Sent(st) < |p.outs| && a == PushToken(r, p.outs[Sent(st)].0)
              && (p.want ==> SentRecords(st) == Sent(st))
              && rest == (if p.want then [PushLogprob(r, p.outs[Sent(st)].1)] else []) + Rest(r, p, Sent(st) + 1)
    ensures a.PushLogprob? ==>
              && p.want && !st.tokens.closed && !st.logprobs.closed && 0 < Sent(st) && SentRecords(st) + 1 == Sent(st)
              && a == PushLogprob(r, p.outs[Sent(st) - 1].1) && rest == Rest(r, p, Sent(st))
    ensures a.CloseTokens? ==>
              && !st.tokens.closed && !st.logprobs.closed && Sent(st) == |p.outs| && (p.want ==> SentRecords(st) == Sent(st))
              && rest == [CloseLogprobs(r)]
    ensures a.CloseLogprobs? ==>
              && st.tokens.closed && !st.logprobs.closed && Sent(st) == |p.outs| && (p.want ==> SentRecords(st) == Sent(st))
              && rest == []
  {
    assert Sent(st) <= |p.outs|;
    hide Carries;
    if !st.tokens.closed {
      if [a] + rest == Rest(r, p, Sent(st)) && (p.want ==> SentRecords(st) == Sent(st)) {
        Front(a, rest, Rest(r, p, Sent(st)));
        if Sent(st) < |p.outs| {
          var more := (if p.want then [PushLogprob(r, p.outs[Sent(st)].1)] else []) + Rest(r, p, Sent(st) + 1);
          assert Rest(r, p, Sent(st)) == [PushToken(r, p.outs[Sent(st)].0)] + more;
          Front(PushToken(r, p.outs[Sent(st)].0), more, Rest(r, p, Sent(st)));
        }
      } else {
        Front(a, rest, [PushLogprob(r, p.outs[Sent(st) - 1].1)] + Rest(r, p, Sent(st)));
        Front(PushLogprob(r, p.outs[Sent(st) - 1].1), Rest(r, p, Sent(st)), [PushLogprob(r, p.outs[Sent(st) - 1].1)] + Rest(r, p, Sent(st)));
      }
    } else {
      Front(a, rest, [CloseLogprobs(r)]);
    }
  }

  lemma Extend<T>(got: seq<T>, items: seq<T>, all: seq<T>, item: T)
    requires |got| + |items| < |all| && got + items == all[..|got| + |items|] && item == all[|got| + |items|]
    ensures got + (items + [item]) == all[..|got| + |items + [item]|]
  {
    assert all[..|got| + |items| + 1] == all[..|got| + |items|] + [item];
    assert got + (items + [item]) == (got + items) + [item];
  }

  lemma PushTokenOk(st: Stream, p: Plan, r: nat, a: Action, rest: seq<Action>, capacity: nat)
    requires StreamOk(st, p, r, [a] + rest, capacity) && a.PushToken? && !Full(st.tokens, capacity)
    ensures StreamOk(Worked(st, a, capacity), p, r, rest, capacity)
  {
    PlanHead(st, p, r, a, rest);
    Extend(st.gotTokens, st.tokens.items, Tokens(p), a.token);
    hide Rest;
    hide Tokens;
    hide Records;
    var now := Worked(st, a, capacity);
    assert Sent(now) == Sent(st) + 1 && SentRecords(now) == SentRecords(st);
    assert Carries(now, p);
    if !p.want {
      assert [] + Rest(r, p, Sent(now)) == Rest(r, p, Sent(now));
    }
  }

  lemma PushLogprobOk(st: Stream, p: Plan, r: nat, a: Action, rest: seq<Action>, capacity: nat)
    requires StreamOk(st, p, r, [a] + rest, capacity) && a.PushLogprob? && !Full(st.logprobs, capacity)
    ensures StreamOk(Worked(st, a, capacity), p, r, rest, capacity)
  {
    PlanHead(st, p, r, a, rest);
    assert Records(p)[Sent(st) - 1] == a.record;
    Extend(st.gotLogprobs, st.logprobs.items, Records(p), a.record);
    hide Rest;
    hide Tokens;
    hide Records;
    var now := Worked(st, a, capacity);
    assert Sent(now) == Sent(st) && SentRecords(now) == SentRecords(st) + 1;
    assert Carries(now, p);
  }

  lemma CloseOk(st: Stream, p: Plan, r: nat, a: Action, rest: seq<Action>, capacity: nat)
    requires StreamOk(st, p, r, [a] + rest, capacity) && (a.CloseTokens? || a.CloseLogprobs?)
    ensures StreamOk(Worked(st, a, capacity), p, r, rest, capacity)
  {
    PlanHead(st, p, r, a, rest);
    hide Rest;
    hide Tokens;
    hide Records;
    assert Carries(Worked(st, a, capacity), p);
  }

  lemma WaitOk(st: Stream, p: Plan, r: nat, a: Action, rest: seq<Action>, capacity: nat)
    requires StreamOk(st, p, r, [a] + rest, capacity) && !Passes(st, a, capacity)
    ensures StreamOk(Worked(st, a, capacity), p, r, [a] + rest, capacity)
  {
    hide Rest;
    hide Tokens;
    hide Records;
    assert ([a] + rest)[0] == a;
    assert Carries(Worked(st, a, capacity), p);
  }

  lemma WorkedOk(st: Stream, p: Plan, r: nat, a: Action, rest: seq<Action>, capacity: nat)
    requires StreamOk(st, p, r, [a] + rest, capacity)
    ensures StreamOk(Worked(st, a, capacity), p, r, if Passes(st, a, capacity) then rest else [a] + rest, capacity)
  {
    hide StreamOk;
    hide Worked;
    if !Passes(st, a, capacity) {
      WaitOk(st, p, r, a, rest, capacity);
    } else if a.PushToken? {
      PushTokenOk(st, p, r, a, rest, capacity);
    } else if a.PushLogprob? {
      PushLogprobOk(st, p, r, a, rest, capacity);
    } else {
      CloseOk(st, p, r, a, rest, capacity);
    }
  }

  lemma Shift<T>(got: seq<T>, items: seq<T>)
    requires items != []
    ensures (got + [items[0]]) + items[1..] == got + items && |got + [items[0]]| + |items[1..]| == |got| + |items|
  {
  }

  lemma TokenPopped(st: Stream, p: Plan, r: nat, rest: seq<Action>, capacity: nat)
    requires StreamOk(st, p, r, rest, capacity) && st.pc.AtToken?
    ensures StreamOk(Consumed(st, p.want), p, r, rest, capacity)
  {
    var now := Consumed(st, p.want);
    if st.tokens.items != [] {
      Shift(st.gotTokens, st.tokens.items);
    }
    assert Sent(now) == Sent(st) && SentRecords(now) == SentRecords(st);
    hide Tokens;
    hide Records;
    hide Rest;
    assert Carries(now, p);
  }

  /** A consumer about to pop a record always gets one. */
  lemma LogprobPopped(st: Stream, p: Plan, r: nat, rest: seq<Action>, capacity: nat)
    requires StreamOk(st, p, r, rest, capacity) && st.pc.AtLogprob?
    ensures StreamOk(Consumed(st, p.want), p, r, rest, capacity)
    ensures st.logprobs.items == [] ==> !st.logprobs.closed
  {
    var now := Consumed(st, p.want);
    if st.logprobs.items != [] {
      Shift(st.gotLogprobs, st.logprobs.items);
    }
    assert st.logprobs.closed ==> SentRecords(st) == Sent(st);
    assert Sent(now) == Sent(st) && SentRecords(now) == SentRecords(st);
    hide Tokens;
    hide Records;
    hide Rest;
    assert Carries(now, p);
  }

  // ---------------------------------------------------------------- every interleaving

  lemma {:induction false} ProjectHead(program: seq<Action>, r: nat)
    requires program != []
    ensures program[0].r != r ==> Project(program, r) == Project(program[1..], r)
    ensures program[0].r == r ==> Project(program, r) == [program[0]] + Project(program[1..], r)
  {
    assert [] + Project(program[1..], r) == Project(program[1..], r);
  }

  lemma WorkInv(s: State, plans: seq<Plan>, capacity: nat)
    requires Inv(s, plans, capacity) && Enabled(s, Work)
    ensures Inv(Step(s, Work, plans, capacity), plans, capacity)
  {
    var a, t := s.program[0], Step(s, Work, plans, capacity);
    hide StreamOk;
    hide Project;
    forall r: nat | r < |t.streams|
      ensures StreamOk(t.streams[r], plans[r], r, Project(t.program, r), capacity)
    {
      ProjectHead(s.program, r);
      if r == a.r {
        WorkedOk(s.streams[r], plans[r], r, a, Project(s.program[1..], r), capacity);
      }
    }
  }

  lemma ConsumeInv(s: State, r: nat, plans: seq<Plan>, capacity: nat)
    requires Inv(s, plans, capacity) && Enabled(s, Consume(r))
    ensures Inv(Step(s, Consume(r), plans, capacity), plans, capacity)
  {
    var st := s.streams[r];
    hide StreamOk;
    hide Project;
    hide Consumed;
    if st.pc.AtToken? {
      TokenPopped(st, plans[r], r, Project(s.program, r), capacity);
    } else {
      LogprobPopped(st, plans[r], r, Project(s.program, r), capacity);
    }
  }

  lemma StepInv(s: State, e: Event, plans: seq<Plan>, capacity: nat)
    requires Inv(s, plans, capacity) && Enabled(s, e)
    ensures Inv(Step(s, e, plans, capacity), plans, capacity)
  {
    match e
    case Work => WorkInv(s, plans, capacity);
    case Consume(r) => ConsumeInv(s, r, plans, capacity);
  }

  const EMPTY_STREAM: Stream := Stream(Queue([], false, false, false), Queue([], false, false, false), AtToken, [], [])

  /** The worker sends every request its plan, its actions on different requests interleaved anyhow. */
  ghost predicate Starts(s: State, plans: seq<Plan>) {
    && |s.streams| == |plans|
    && (forall i :: 0 <= i < |s.program| ==> s.program[i].r < |s.streams|)
    && forall r: nat :: r < |plans| ==> s.streams[r] == EMPTY_STREAM && Project(s.program, r) == Rest(r, plans[r], 0)
  }

  lemma StartInv(s: State, plans: seq<Plan>, capacity: nat)
    requires Starts(s, plans)
    ensures Inv(s, plans, capacity)
  {
    hide Project;
    hide Rest;
  }

  ghost predicate Runs(s: State, es: seq<Event>, t: State, plans: seq<Plan>, capacity: nat)
    requires |s.streams| == |plans|
    decreases |es|
  {
    if es == [] then t == s
    else Enabled(s, es[0]) && Runs(Step(s, es[0], plans, capacity), es[1..], t, plans, capacity)
  }

  lemma {:induction false} RunInv(s: State, es: seq<Event>, t: State, plans: seq<Plan>, capacity: nat)
    requires Inv(s, plans, capacity) && Runs(s, es, t, plans, capacity)
    ensures Inv(t, plans, capacity)
    decreases |es|
  {
    if es != [] {
      StepInv(s, es[0], plans, capacity);
      hide StreamOk;
      hide Step;
      hide Enabled;
      RunInv(Step(s, es[0], plans, capacity), es[1..], t, plans, capacity);
    }
  }

  /** Over all interleavings, the i-th record popped is the i-th token's. */
  lemma Lockstep(s: State, es: seq<Event>, t: State, plans: seq<Plan>, capacity: nat, r: nat, i: nat)
    requires Starts(s, plans) && Runs(s, es, t, plans, capacity) && r < |plans|
    ensures |t.streams| == |plans| && |t.streams[r].gotTokens| <= |plans[r].outs| && |t.streams[r].gotLogprobs| <= |t.streams[r].gotTokens|
    ensures i < |t.streams[r].gotTokens| ==> t.streams[r].gotTokens[i] == plans[r].outs[i].0
    ensures i < |t.streams[r].gotLogprobs| ==> t.streams[r].gotLogprobs[i] == plans[r].outs[i].1
  {
    StartInv(s, plans, capacity);
    RunInv(s, es, t, plans, capacity);
    var st, p := t.streams[r], plans[r];
    assert StreamOk(st, p, r, Project(t.program, r), capacity);
    if i < |st.gotTokens| {
      assert (st.gotTokens + st.tokens.items)[i] == Tokens(p)[..Sent(st)][i];
    }
    if i < |st.gotLogprobs| {
      assert (st.gotLogprobs + st.logprobs.items)[i] == Records(p)[..SentRecords(st)][i];
    }
  }

  // ---------------------------------------------------------------- no deadlock, and an end

  predicate Finished(s: State) {
    s.program == [] && forall r: nat :: r < |s.streams| ==> s.streams[r].pc.Done?
  }

  /** A consumer whose queue is full, or whose producer is done, is awake. */
  lemma ConsumerAwake(st: Stream, p: Plan, r: nat, rest: seq<Action>, capacity: nat)
    requires StreamOk(st, p, r, rest, capacity) && 1 <= capacity
    requires rest == [] || (rest[0].PushToken? && Full(st.tokens, capacity)) || (rest[0].PushLogprob? && Full(st.logprobs, capacity))
    ensures st.pc.Done? ==> rest == []
    ensures !(st.pc.AtToken? && st.tokens.popping) && !(st.pc.AtLogprob? && st.logprobs.popping)
  {
    hide Tokens;
    hide Records;
    assert Rest(r, p, Sent(st)) != [];
    if rest != [] {
      assert rest == [rest[0]] + rest[1..];
      PlanHead(st, p, r, rest[0], rest[1..]);
    }
  }

  /** With room for one item a queue, somebody can always go on until everything is delivered. */
  lemma NoDeadlock(s: State, plans: seq<Plan>, capacity: nat) returns (e: Event)
    requires Inv(s, plans, capacity) && 1 <= capacity && !Finished(s)
    ensures Enabled(s, e)
  {
    e := Work;
    hide StreamOk;
    hide Project;
    if s.program != [] {
      if !Enabled(s, Work) {
        var r := s.program[0].r;
        ProjectHead(s.program, r);
        PushBlocked(s.streams[r], plans[r], r, Project(s.program, r), s.program[0], capacity);
        ConsumerAwake(s.streams[r], plans[r], r, Project(s.program, r), capacity);
        e := Consume(r);
      }
    } else {
      var r: nat :| r < |s.streams| && !s.streams[r].pc.Done?;
      NothingLeft(r);
      ConsumerAwake(s.streams[r], plans[r], r, Project(s.program, r), capacity);
      e := Consume(r);
    }
  }

  lemma NothingLeft(r: nat)
    ensures Project([], r) == []
  {
  }

  lemma PushBlocked(st: Stream, p: Plan, r: nat, rest: seq<Action>, a: Action, capacity: nat)
    requires StreamOk(st, p, r, rest, capacity) && rest != [] && rest[0] == a
    requires (a.PushToken? && st.tokens.pushing) || (a.PushLogprob? && st.logprobs.pushing)
    ensures (rest[0].PushToken? && Full(st.tokens, capacity)) || (rest[0].PushLogprob? && Full(st.logprobs, capacity))
  {
  }

  function StreamWork(st: Stream): nat {
    |st.tokens.items| + |st.logprobs.items| + if st.pc.Done? then 0 else 1
  }

  function StreamAwake(st: Stream): nat {
    (if st.tokens.pushing then 0 else 1) + (if st.tokens.popping then 0 else 1)
    + (if st.logprobs.pushing then 0 else 1) + if st.logprobs.popping then 0 else 1
  }

  function Sum(streams: seq<Stream>, f: Stream -> nat): nat {
    if streams == [] then 0 else f(streams[0]) + Sum(streams[1..], f)
  }

  lemma {:induction false} SumUpdate(streams: seq<Stream>, r: nat, st: Stream, f: Stream -> nat)
    requires r < |streams|
    ensures Sum(streams[r := st], f) + f(streams[r]) == Sum(streams, f) + f(st)
    decreases r
  {
    if r == 0 {
      assert streams[0 := st][1..] == streams[1..];
    } else {
      assert streams[r := st][1..] == streams[1..][r - 1 := st];
      SumUpdate(streams[1..], r - 1, st, f);
    }
  }

  /** Actions to come (an item counts again until it is popped), consumers not done; and who is awake. */
  function Pending(s: State): nat { 2 * |s.program| + Sum(s.streams, StreamWork) }
  function Awake(s: State): nat { Sum(s.streams, StreamAwake) }

  /** Every step brings the end nearer, or puts its thread to sleep; so no run goes on for ever. */
  lemma StepNearer(s: State, e: Event, plans: seq<Plan>, capacity: nat)
    requires Inv(s, plans, capacity) && Enabled(s, e)
    ensures
      var t := Step(s, e, plans, capacity);
      Pending(t) < Pending(s) || (Pending(t) == Pending(s) && Awake(t) < Awake(s))
  {
    var t := Step(s, e, plans, capacity);
    var r := if e.Work? then s.program[0].r else e.r;
    SumUpdate(s.streams, r, t.streams[r], StreamWork);
    SumUpdate(s.streams, r, t.streams[r], StreamAwake);
    assert t.streams == s.streams[r := t.streams[r]];
    assert StreamOk(s.streams[r], plans[r], r, Project(s.program, r), capacity);
    hide Sum;
    if e.Work? {
      WorkedNearer(s.streams[r], s.program[0], capacity);
    } else {
      ConsumedNearer(s.streams[r], plans[r], r, Project(s.program, r), capacity);
    }
  }

  lemma WorkedNearer(st: Stream, a: Action, capacity: nat)
    requires !((a.PushToken? && st.tokens.pushing) || (a.PushLogprob? && st.logprobs.pushing))
    ensures
      var now := Worked(st, a, capacity);
      if Passes(st, a, capacity) then StreamWork(now) <= StreamWork(st) + 1
      else StreamWork(now) == StreamWork(st) && StreamAwake(now) < StreamAwake(st)
  {
  }

  lemma ConsumedNearer(st: Stream, p: Plan, r: nat, rest: seq<Action>, capacity: nat)
    requires StreamOk(st, p, r, rest, capacity) && !st.pc.Done?
    requires !(st.pc.AtToken? && st.tokens.popping) && !(st.pc.AtLogprob? && st.logprobs.popping)
    ensures
      var now := Consumed(st, p.want);
      StreamWork(now) < StreamWork(st) || (StreamWork(now) == StreamWork(st) && StreamAwake(now) < StreamAwake(st))
  {
    if st.pc.AtLogprob? {
      LogprobPopped(st, p, r, rest, capacity);
    }
    hide StreamOk;
  }

  /** A run that can go no further has delivered everything, at any capacity. */
  lemma Delivered(s: State, es: seq<Event>, t: State, plans: seq<Plan>, capacity: nat)
    requires Starts(s, plans) && Runs(s, es, t, plans, capacity) && 1 <= capacity
    requires forall e :: !Enabled(t, e)
    ensures Finished(t) && |t.streams| == |plans|
    ensures forall r: nat :: r < |plans| ==>
              && t.streams[r].gotTokens == Tokens(plans[r])
              && t.streams[r].gotLogprobs == if plans[r].want then Records(plans[r]) else []
  {
    StartInv(s, plans, capacity);
    RunInv(s, es, t, plans, capacity);
    hide Enabled;
    if !Finished(t) {
      var e := NoDeadlock(t, plans, capacity);
    }
    forall r: nat | r < |plans|
      ensures t.streams[r].gotTokens == Tokens(plans[r])
      ensures t.streams[r].gotLogprobs == if plans[r].want then Records(plans[r]) else []
    {
      NothingLeft(r);
      GotAll(t.streams[r], plans[r], r, capacity);
    }
  }

  lemma GotAll(st: Stream, p: Plan, r: nat, capacity: nat)
    requires StreamOk(st, p, r, [], capacity) && st.pc.Done?
    ensures st.gotTokens == Tokens(p) && st.gotLogprobs == if p.want then Records(p) else []
  {
    assert Tokens(p)[..|p.outs|] == Tokens(p) && Records(p)[..|p.outs|] == Records(p);
    assert st.gotTokens + [] == st.gotTokens;
    if p.want {
      assert st.logprobs.items == [];
      assert st.gotLogprobs + [] == st.gotLogprobs;
    }
  }
}
