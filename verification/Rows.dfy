/** What the worker's row vectors and queued prefills mean (src/runtime/worker.cpp, worker.h). */
module Rows {
  import opened KvQuant
  import opened BatchCache
  import opened Transformer
  import opened ForwardPass
  import opened BlockPools
  import opened PrefixCaches
  import opened PrefixSeed
  import opened Prefill
  import opened Requests

  /** What the row-aligned vectors say about one row, and (ghost) the tokens its cache row holds. */
  datatype RowVars = RowVars(produced: nat, feed: int, finished: bool, history: seq<int>, rng: Rng, consumed: seq<int>)

  /** A row between decode steps. A live row's cache is one token behind its history: `feed` goes
      in next, and the generation so far is a state of the request's reference run. */
  ghost predicate RowState(m: Model, s: Sampler, req: Request, v: RowVars)
    reads req
  {
    && req.Wellformed() && !req.closed
    && req.prompt <= v.history && req.prompt <= v.consumed
    && if v.finished then Settled(m, s, req)
       else
         && req.reason == Running && req.InLockstep() && v.produced == |req.tokens| && v.consumed + [v.feed] == v.history
         && Live(m, s, req, Gen(v.history, v.rng, req.grammar, req.tokens, req.logprobs, Running))
  }

  lemma RunningRow(m: Model, s: Sampler, req: Request, v: RowVars)
    requires RowState(m, s, req, v) && !v.finished
    ensures v.produced == |req.tokens| < req.maxTokens
  {
  }

  /** A row about to draw its next token with key `rng`: its cache row holds its whole history. */
  ghost predicate Drawing(m: Model, s: Sampler, req: Request, v: RowVars, rng: Rng)
    reads req
  {
    && req.Wellformed() && !req.closed && req.prompt <= v.history && v.consumed == v.history
    && !v.finished && req.reason == Running && req.InLockstep() && v.produced == |req.tokens|
    && Live(m, s, req, Gen(v.history, rng, req.grammar, req.tokens, req.logprobs, Running))
  }

  datatype Sampled = Sampled(id: int, record: Record, hasLp: bool)

  /** Its next token has been sampled, from `rng`, but not yet taken in. */
  ghost predicate Drawn(m: Model, s: Sampler, req: Request, v: RowVars, rng: Rng, d: Sampled)
    reads req
  {
    && Drawing(m, s, req, v, rng) && v.rng == s.split(rng).0 && d.hasLp == req.wantLogprobs
    && (d.id, d.record) == Draw(s, req, NextLogits(m, v.history), rng, req.grammar, v.history)
  }

  /** Its drawn token is in its history and grammar, and not yet emitted; `g` is its generation before. */
  ghost predicate Taking(m: Model, s: Sampler, req: Request, v: RowVars, g: Gen, d: Sampled)
    reads req
  {
    && Live(m, s, req, g) && (d.id, d.record) == Draw(s, req, NextLogits(m, g.history), g.rng, g.gram, g.history)
    && !req.closed && req.reason == g.reason == Running && req.InLockstep() && d.hasLp == req.wantLogprobs
    && req.tokens == g.tokens && req.logprobs == g.logprobs && v.produced == |req.tokens|
    && req.grammar == AdvanceGrammar(s, req, g.gram, d.id) && v.rng == s.split(g.rng).0
    && v.history == g.history + [d.id] && v.feed == d.id && req.prompt <= g.history == v.consumed
  }

  /** The generation a request is in before its drawn token is taken. */
  ghost function GenBefore(req: Request, history: seq<int>, rng: Rng): Gen
    reads req
  {
    Gen(history, rng, req.grammar, req.tokens, req.logprobs, Running)
  }

  lemma TakenRow(m: Model, s: Sampler, req: Request, g: Gen, d: Sampled, v: RowVars)
    requires Live(m, s, req, g) && (d.id, d.record) == Draw(s, req, NextLogits(m, g.history), g.rng, g.gram, g.history)
    requires !req.closed && req.InLockstep() && req.prompt <= g.history == v.consumed && v.feed == d.id
    requires Gen(v.history, v.rng, req.grammar, req.tokens, req.logprobs, req.reason) == Take(s, req, g, d.id, d.record)
    requires v.finished == (req.reason != Running) && v.produced == |req.tokens|
    ensures RowState(m, s, req, v)
  {
    LiveStep(m, s, req, g);
    hide Live;
    hide Reference;
    assert RefStep(m, s, req, g) == Take(s, req, g, d.id, d.record);
  }

  lemma CancelledRow(m: Model, s: Sampler, req: Request, g: Gen, v: RowVars)
    requires Live(m, s, req, g) && req.tokens == g.tokens && req.logprobs == g.logprobs
    requires req.reason == Cancel && req.cancels && !req.closed && req.InLockstep()
    requires v.finished && req.prompt <= v.history && req.prompt <= v.consumed
    ensures RowState(m, s, req, v)
  {
    LivePrefix(m, s, req, g);
  }

  /** What a row's request has received, and whether it is finished. */
  datatype Mark = Mark(tokens: seq<int>, logprobs: seq<Record>, reason: Reason)

  ghost function MarkOf(q: Request): Mark
    reads q
  {
    Mark(q.tokens, q.logprobs, q.reason)
  }

  /** One draw later: the row was dropped, with nothing more, exactly if it was seen cancelled; else it got at most
      one more token. */
  ghost predicate Heeded(q: Request, was: Mark, cancelled: bool)
    reads q
  {
    if cancelled then MarkOf(q) == was.(reason := Cancel)
    else q.reason != Cancel && was.tokens <= q.tokens && |q.tokens| <= |was.tokens| + 1
  }

  /** A row of a decode step: heeded, finished if cancelled, and one token on unless it finished. */
  ghost predicate TookOne(q: Request, was: Mark, made0: nat, made: nat, cancelled: bool, done: bool)
    reads q
  {
    && Heeded(q, was, cancelled) && (cancelled ==> done) && made0 <= made
    && (!done ==> |q.tokens| == |was.tokens| + 1 && made == made0 + 1)
  }

  lemma TookMeans(q: Request, was: Mark, made0: nat, made: nat, cancelled: bool, done: bool)
    requires TookOne(q, was, made0, made, cancelled, done)
    ensures MarkOf(q) == Mark(q.tokens, q.logprobs, q.reason)
    ensures made0 <= made && (!done ==> |q.tokens| == |was.tokens| + 1 && made == made0 + 1)
    ensures if cancelled then done && MarkOf(q) == was.(reason := Cancel)
            else q.reason != Cancel && was.tokens <= q.tokens && |q.tokens| <= |was.tokens| + 1
  {
  }

  lemma OthersDiffer(rs: seq<Request>, b: nat)
    requires Distinct(rs) && b < |rs|
    ensures forall k :: 0 <= k < |rs| && k != b ==> rs[k] != rs[b]
  {
  }

  /** A row that has just joined: exactly the cancelled ones were dropped, with nothing, before their first token. */
  ghost predicate Welcomed(q: Request, joins: set<Request>)
    reads q
  {
    Heeded(q, Mark([], [], Running), q in joins)
  }

  /** The rows that were not in the batch before have just joined. */
  ghost predicate Joined(now: seq<Request>, was: seq<Request>, joins: set<Request>)
    reads now
  {
    forall i :: 0 <= i < |now| ==> now[i] in was || Welcomed(now[i], joins)
  }

  lemma JoinedNone(rs: seq<Request>, joins: set<Request>)
    ensures Joined(rs, rs, joins)
  {
  }

  lemma JoinedMean(now: seq<Request>, was: seq<Request>, joins: set<Request>)
    requires Joined(now, was, joins)
    ensures forall r :: r in now ==> r in was || Welcomed(r, joins)
  {
  }

  lemma JoinedAre(now: seq<Request>, was: seq<Request>, joins: set<Request>)
    requires forall i :: 0 <= i < |now| ==> now[i] in was || Welcomed(now[i], joins)
    ensures Joined(now, was, joins)
  {
  }

  lemma JoinedTwice(now: seq<Request>, mid: seq<Request>, was: seq<Request>, joins: set<Request>)
    requires Joined(now, mid, joins) && Joined(mid, was, joins)
    ensures Joined(now, was, joins)
  {
    hide Welcomed;
    forall i | 0 <= i < |now|
      ensures now[i] in was || Welcomed(now[i], joins)
    {
      if now[i] in mid {
        var j :| 0 <= j < |mid| && mid[j] == now[i];
      }
    }
  }

  /** Each request once. */
  ghost predicate Distinct(rs: seq<Request>) {
    forall i, j :: 0 <= i < j < |rs| ==> rs[i] != rs[j]
  }

  lemma DistinctParts(a: seq<Request>, b: seq<Request>)
    requires Distinct(a + b)
    ensures Distinct(a) && Distinct(b) && forall i, j :: 0 <= i < |a| && 0 <= j < |b| ==> a[i] != b[j]
  {
    forall i, j | 0 <= i < |a| && 0 <= j < |b|
      ensures a[i] != b[j]
    {
      assert (a + b)[i] != (a + b)[|a| + j];
    }
    forall i, j | 0 <= i < j < |b|
      ensures b[i] != b[j]
    {
      assert (a + b)[|a| + i] != (a + b)[|a| + j];
    }
    forall i, j | 0 <= i < j < |a|
      ensures a[i] != a[j]
    {
      assert (a + b)[i] != (a + b)[j];
    }
  }

  /** Strictly increasing indices below `n`. */
  predicate Ascending(keep: seq<nat>, n: nat) {
    && (forall i :: 0 <= i < |keep| ==> keep[i] < n)
    && (forall i, j :: 0 <= i < j < |keep| ==> keep[i] < keep[j])
  }

  lemma {:induction false} AscendingAtLeast(keep: seq<nat>, n: nat, k: nat)
    requires Ascending(keep, n) && k < |keep|
    ensures k <= keep[k]
  {
    if k > 0 {
      AscendingAtLeast(keep, n, k - 1);
    }
  }

  lemma {:induction false} AscendingRoom(keep: seq<nat>, n: nat, k: nat)
    requires Ascending(keep, n) && k < |keep|
    ensures |keep| - k <= n - keep[k]
    decreases |keep| - k
  {
    if k + 1 < |keep| {
      AscendingRoom(keep, n, k + 1);
    }
  }

  lemma AscendingFits(keep: seq<nat>, n: nat)
    requires Ascending(keep, n)
    ensures |keep| <= n && forall k :: 0 <= k < |keep| ==> k <= keep[k]
    ensures |keep| == n ==> forall k :: 0 <= k < n ==> keep[k] == k
  {
    forall k | 0 <= k < |keep|
      ensures k <= keep[k] && |keep| - k <= n - keep[k]
    {
      AscendingAtLeast(keep, n, k);
      AscendingRoom(keep, n, k);
    }
    if keep != [] {
      AscendingRoom(keep, n, 0);
    }
  }

  /** Keeping the rows not marked splits them from the marked ones, each once. */
  lemma {:induction false} SplitMarked(rs: seq<Request>, marked: seq<bool>, keep: seq<nat>) returns (gone: seq<nat>)
    requires |marked| == |rs| && Ascending(keep, |rs|)
    requires forall b :: 0 <= b < |rs| ==> (b in keep <==> !marked[b])
    ensures forall i :: 0 <= i < |gone| ==> gone[i] < |rs| && marked[gone[i]]
    ensures multiset(Select(rs, keep)) + multiset(Select(rs, gone)) == multiset(rs)
  {
    if rs == [] {
      gone := [];
      assert keep == [];
    } else {
      var last := |rs| - 1;
      if marked[last] {
        AscendingBelow(keep, last);
        gone := SplitMarked(rs[..last], marked[..last], keep);
        JoinLast(rs, keep, gone);
        gone := gone + [last];
      } else {
        AscendingEnds(keep, last);
        gone := SplitMarked(rs[..last], marked[..last], keep[..|keep| - 1]);
        JoinLast(rs, gone, keep[..|keep| - 1]);
        assert keep == keep[..|keep| - 1] + [last];
      }
    }
  }

  lemma JoinLast(rs: seq<Request>, a: seq<nat>, b: seq<nat>)
    requires rs != []
    requires forall i :: 0 <= i < |a| ==> a[i] < |rs| - 1
    requires forall i :: 0 <= i < |b| ==> b[i] < |rs| - 1
    requires multiset(Select(rs[..|rs| - 1], a)) + multiset(Select(rs[..|rs| - 1], b)) == multiset(rs[..|rs| - 1])
    ensures multiset(Select(rs, a)) + multiset(Select(rs, b + [|rs| - 1])) == multiset(rs)
  {
    var last := |rs| - 1;
    assert rs == rs[..last] + [rs[last]];
    assert Select(rs, a) == Select(rs[..last], a);
    assert Select(rs, b + [last]) == Select(rs[..last], b) + [rs[last]];
  }

  lemma DistinctSelect(rs: seq<Request>, keep: seq<nat>)
    requires Distinct(rs) && Ascending(keep, |rs|)
    ensures Distinct(Select(rs, keep))
  {
  }

  lemma AscendingBelow(keep: seq<nat>, last: nat)
    requires Ascending(keep, last + 1) && last !in keep
    ensures Ascending(keep, last)
  {
    forall i | 0 <= i < |keep|
      ensures keep[i] < last
    {
      assert keep[i] in keep;
    }
  }

  lemma AscendingEnds(keep: seq<nat>, last: nat)
    requires Ascending(keep, last + 1) && last in keep
    ensures keep[|keep| - 1] == last && Ascending(keep[..|keep| - 1], last)
    ensures forall b :: b < last ==> (b in keep <==> b in keep[..|keep| - 1])
  {
    var i :| 0 <= i < |keep| && keep[i] == last;
    assert keep[i] <= keep[|keep| - 1];
    assert keep == keep[..i] + [last];
  }

  /** The first `dst` kept elements have been moved down; the rest is as it was. */
  ghost predicate Gathered<T>(now: seq<T>, was: seq<T>, keep: seq<nat>, dst: nat)
    requires forall i :: 0 <= i < |keep| ==> keep[i] < |was|
    requires dst <= |keep|
  {
    && |now| == |was|
    && (forall k :: 0 <= k < dst && k < |was| ==> now[k] == was[keep[k]])
    && (forall k :: dst <= k < |was| ==> now[k] == was[k])
  }

  lemma GatherStep<T>(now: seq<T>, was: seq<T>, keep: seq<nat>, dst: nat)
    requires Ascending(keep, |was|) && dst < |keep| <= |was| && dst <= keep[dst] && Gathered(now, was, keep, dst)
    ensures Gathered(now[dst := now[keep[dst]]], was, keep, dst + 1)
  {
  }

  lemma GatherDone<T>(now: seq<T>, was: seq<T>, keep: seq<nat>)
    requires Ascending(keep, |was|) && |keep| <= |was| && Gathered(now, was, keep, |keep|)
    ensures |now| == |was| && now[..|keep|] == Select(was, keep)
  {
  }

  function Prompts(rs: seq<Request>): seq<seq<int>> {
    seq(|rs|, i requires 0 <= i < |rs| => rs[i].prompt)
  }

  ghost function NewRow(s: Sampler, req: Request): RowVars {
    RowVars(0, 0, false, req.prompt, s.key(req.seed), req.prompt)
  }

  lemma NewRowDraws(m: Model, s: Sampler, req: Request)
    requires req.Wellformed() && req.tokens == [] && req.logprobs == [] && req.pushed == [] && !req.closed && req.reason == Running
    requires req.grammar == req.compiled
    ensures Drawing(m, s, req, NewRow(s, req), s.key(req.seed))
  {
    ReferenceIsGenerate(m, s, req);
  }

  /** A new row whose first token has just been sampled. */
  lemma NewRowDrawn(m: Model, s: Sampler, req: Request, d: Sampled)
    requires req.Untouched() && req.grammar == req.compiled && d.hasLp == req.wantLogprobs
    requires (d.id, d.record) == Draw(s, req, NextLogits(m, req.prompt), s.key(req.seed), req.grammar, req.prompt)
    ensures Drawn(m, s, req, NewRow(s, req).(rng := s.split(s.key(req.seed)).0), s.key(req.seed), d)
  {
    NewRowDraws(m, s, req);
  }

  ghost function SeedKeys(s: Sampler, rs: seq<Request>): seq<Rng> {
    seq(|rs|, i requires 0 <= i < |rs| => s.key(rs[i].seed))
  }

  lemma SnocAll(s: Sampler, rs: seq<Request>, i: nat)
    requires i < |rs|
    ensures rs[..i + 1] == rs[..i] + [rs[i]]
    ensures Prompts(rs[..i + 1]) == Prompts(rs[..i]) + [rs[i].prompt]
    ensures SeedKeys(s, rs[..i + 1]) == SeedKeys(s, rs[..i]) + [s.key(rs[i].seed)]
    ensures Repeat(i + 1, 0) == Repeat(i, 0) + [0] && Repeat(i + 1, false) == Repeat(i, false) + [false]
  {
  }

  lemma SampledRow(m: Model, s: Sampler, req: Request, v: RowVars, d: Sampled)
    requires Drawing(m, s, req, v, v.rng) && d.hasLp == req.wantLogprobs
    requires (d.id, d.record) == Draw(s, req, NextLogits(m, v.history), v.rng, req.grammar, v.history)
    ensures Drawn(m, s, req, v.(rng := s.split(v.rng).0), v.rng, d)
  {
  }

  /** A queued prefill: cold requests share one left-padded unit, a prefix hit has its own, whose
      cache starts with `reused` tokens and whose columns are the uncached suffix. */
  datatype Pending = Pending(reqs: seq<Request>, tokens: seq<seq<int>>, cache: BatchKVCache, total: nat, pos: nat, reused: nat)

  ghost predicate UnitOk(m: Model, p: Pending)
    reads p.cache, p.reqs
  {
    && p.reqs != [] && p.pos < p.total && |p.tokens| == |p.reqs|
    && (forall b :: 0 <= b < |p.reqs| ==> p.reqs[b].Untouched())
    && PrefilledTo(m, p.cache, Prompts(p.reqs), p.reused + p.total, p.reused + p.pos)
    && forall b :: 0 <= b < |p.tokens| ==>
         && |Prompts(p.reqs)[b]| <= p.reused + p.total
         && p.tokens[b] == PadLeft(Prompts(p.reqs)[b], p.reused + p.total, 0)[p.reused..]
  }

  lemma ColdUnitOk(m: Model, p: Pending)
    requires p.reqs != [] && p.pos == p.reused == 0 && |p.tokens| == |p.reqs| && forall r :: r in p.reqs ==> r.Untouched()
    requires PrefilledTo(m, p.cache, Prompts(p.reqs), p.total, 0)
    requires forall b :: 0 <= b < |p.reqs| ==> |p.reqs[b].prompt| <= p.total && p.tokens[b] == PadLeft(p.reqs[b].prompt, p.total, 0)
    ensures UnitOk(m, p)
  {
    hide PrefilledTo;
    assert p.reqs[0] in p.reqs && 0 < |p.reqs[0].prompt| <= p.total;
    forall b | 0 <= b < |p.reqs|
      ensures p.reqs[b].Untouched()
      ensures p.tokens[b] == PadLeft(Prompts(p.reqs)[b], p.total, 0)[0..]
    {
    }
  }

  lemma ColumnsOfUnit(m: Model, p: Pending, n: nat)
    requires UnitOk(m, p) && p.pos + n <= p.total
    ensures forall b :: 0 <= b < |p.tokens| ==>
              && |p.tokens[b]| == p.total
              && |PadLeft(p.reqs[b].prompt, p.reused + p.total, 0)| == p.reused + p.total
              && p.tokens[b][p.pos..p.pos + n] == PadLeft(p.reqs[b].prompt, p.reused + p.total, 0)[p.reused + p.pos..p.reused + p.pos + n]
  {
    forall b | 0 <= b < |p.tokens|
      ensures |p.tokens[b]| == p.total
      ensures p.tokens[b][p.pos..p.pos + n] == PadLeft(p.reqs[b].prompt, p.reused + p.total, 0)[p.reused + p.pos..p.reused + p.pos + n]
    {
      assert Prompts(p.reqs)[b] == p.reqs[b].prompt;
      var all := PadLeft(p.reqs[b].prompt, p.reused + p.total, 0);
      assert all[p.reused..][p.pos..p.pos + n] == all[p.reused + p.pos..p.reused + p.pos + n];
    }
  }

  lemma ReadyHolds(m: Model, c: BatchKVCache, rs: seq<Request>, last: seq<Logits>)
    requires Ready(m, c, Prompts(rs), last)
    ensures Holding(m, c, Prompts(rs)) && |last| == |rs|
    ensures forall i :: 0 <= i < |rs| ==> last[i] == NextLogits(m, rs[i].prompt)
  {
    forall i | 0 <= i < |rs|
      ensures last[i] == NextLogits(m, rs[i].prompt)
    {
      assert Prompts(rs)[i] == rs[i].prompt;
    }
  }

  /** A prompt that matched pooled blocks. */
  datatype Warm = Warm(req: Request, blocks: seq<KVBlock>, tokens: nat)

  /** What the pool answers for a prompt: the longest run available, all but the prompt's last token at most. */
  ghost predicate Longest(prompt: seq<int>, size: nat, available: set<Key>, n: nat, tokens: nat)
    requires 0 < size
  {
    && LongestRun(BlockKeys(prompt, size), available, n)
    && tokens == if n * size <= |prompt| - 1 then n * size else if |prompt| == 0 then 0 else |prompt| - 1
  }

  /** Exactly the prompts that reuse something are warm, each with its longest run. */
  ghost predicate WellSplit(cold: seq<Request>, warm: seq<Warm>, size: nat, available: set<Key>) {
    && 0 < size
    && (forall i :: 0 <= i < |warm| ==>
          0 < warm[i].tokens && Longest(warm[i].req.prompt, size, available, |warm[i].blocks|, warm[i].tokens))
    && forall i :: 0 <= i < |cold| ==> NothingReused(cold[i].prompt, size, available)
  }

  ghost predicate NothingReused(prompt: seq<int>, size: nat, available: set<Key>)
    requires 0 < size
  {
    exists n :: Longest(prompt, size, available, n, 0)
  }

  /** A queued unit for each warm request, in order. */
  ghost predicate WarmUnits(units: seq<Pending>, warm: seq<Warm>) {
    |units| == |warm| && forall i :: 0 <= i < |warm| ==> units[i].reqs == [warm[i].req] && units[i].reused == warm[i].tokens
  }

  lemma NoWarmUnits(warm: seq<Warm>)
    ensures WarmUnits([], warm[..0])
  {
  }

  lemma WarmUnitNext(units: seq<Pending>, warm: seq<Warm>, i: nat, unit: Pending)
    requires i < |warm| && WarmUnits(units, warm[..i]) && unit.reqs == [warm[i].req] && unit.reused == warm[i].tokens
    ensures WarmUnits(units + [unit], warm[..i + 1])
  {
  }

  lemma NoneSplit(size: nat, available: set<Key>)
    requires 0 < size
    ensures WellSplit([], [], size, available)
  {
  }

  lemma SplitOne(cold: seq<Request>, warm: seq<Warm>, size: nat, available: set<Key>, req: Request, blocks: seq<KVBlock>, tokens: nat)
    requires WellSplit(cold, warm, size, available) && Longest(req.prompt, size, available, |blocks|, tokens)
    ensures if 0 < tokens then WellSplit(cold, warm + [Warm(req, blocks, tokens)], size, available)
            else WellSplit(cold + [req], warm, size, available)
  {
    assert tokens == 0 ==> NothingReused(req.prompt, size, available);
    hide Longest;
    hide NothingReused;
    var wider := warm + [Warm(req, blocks, tokens)];
    assert forall i :: 0 <= i < |warm| ==> wider[i] == warm[i];
    assert forall i :: 0 <= i < |cold| ==> (cold + [req])[i] == cold[i];
  }

  lemma MatchIsUsable(len: nat, size: nat, n: nat, tokens: nat)
    requires 0 < size && n <= len / size && 0 < tokens == ReusedTokens(n, size, len)
    ensures n * size <= len && tokens < len && tokens <= n * size
  {
    assert n * size <= (len / size) * size;
  }

  function WarmReqs(warm: seq<Warm>): seq<Request> {
    seq(|warm|, i requires 0 <= i < |warm| => warm[i].req)
  }

  /** The first `len` cached positions of row b sit right after its left padding. */
  lemma FetchedPrefix(m: Model, c: BatchKVCache, b: nat, l: nat, len: nat)
    requires c.Valid() && c.Started() && b < c.batch && l < |c.keys| && c.keys[0] != []
    requires c.leftPadding[b] + len <= c.idx
    ensures Long(c.Rows()[b].keys[l], c.comps, c.idx - c.leftPadding[b]) && Long(c.Rows()[b].values[l], c.comps, c.idx - c.leftPadding[b])
    ensures LayerSection(c.keys[l], c.comps, b, c.leftPadding[b], c.leftPadding[b] + len) == Upto(c.Rows()[b].keys[l], len)
    ensures LayerSection(c.values[l], c.comps, b, c.leftPadding[b], c.leftPadding[b] + len) == Upto(c.Rows()[b].values[l], len)
  {
    var lp := c.leftPadding[b];
    forall i | 0 <= i < c.comps
      ensures c.keys[l][i][b][lp..lp + len] == c.Rows()[b].keys[l][i][..len]
      ensures c.values[l][i][b][lp..lp + len] == c.Rows()[b].values[l][i][..len]
    {
      assert c.keys[l][i][b][lp..c.idx][..len] == c.keys[l][i][b][lp..lp + len];
      assert c.values[l][i][b][lp..c.idx][..len] == c.values[l][i][b][lp..lp + len];
    }
  }
}
