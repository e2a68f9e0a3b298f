/** The continuous-batching worker (src/runtime/worker.cpp). */
module Workers {
  import opened KvQuant
  import opened BatchCache
  import opened Transformer
  import opened ForwardPass
  import opened BlockPools
  import opened PrefixCaches
  import opened PrefixSeed
  import opened Prefill
  import opened Requests
  import opened Schedulers
  import opened Rows
  import opened Ledger

  const PREFILL_STEP_SIZE := 2048
  const PREFILL_BATCH_SIZE := 8

  class Worker {
    const m: Model
    const s: Sampler

    // Row-aligned with the cache's batch axis.
    var reqs: seq<Request>
    var produced: seq<nat>
    var feed: seq<int>
    var finished: seq<bool>
    var history: seq<seq<int>>
    var rngKeys: seq<Rng>
    ghost var consumed: seq<seq<int>>

    const sched: Scheduler

    /** Null when the prefix cache is off. */
    const prefix: PrefixCache?

    /** Chunk size in tokens; 0 means monolithic admission. */
    const chunk: nat

    /** Prefills in flight, first in first out. */
    var pending: seq<Pending>

    /** The decode batch's cache; null exactly when no row is active. */
    var cache: BatchKVCache?

    /** An idle worker; with a prefix cache when one is configured, its pool empty, over no disk tier or over
        whatever blocks an earlier run left there. */
    constructor (model: Model, sampler: Sampler, scheduler: Scheduler, chunkSize: nat, cached: bool, blockSize: nat, budget: nat, spill: SpillTier?)
      requires model.Valid() && (cached ==> 0 < blockSize)
      requires cached && spill != null ==> forall k :: k in spill.visible ==> spill.visible[k] == RefBlock(model, blockSize, k)
      ensures m == model && s == sampler && sched == scheduler && chunk == chunkSize
      ensures reqs == [] && pending == [] && Between() && UnitsOk(m, pending) && CacheApart()
      ensures prefix == null || fresh(prefix.pool)
      ensures prefix != null ==> prefix.blockSize == blockSize && prefix.pool.spill == spill
      ensures prefix != null ==> prefix.Available() == if spill == null then {} else spill.visible.Keys
    {
      m, s, sched, chunk := model, sampler, scheduler, chunkSize;
      reqs, produced, feed, finished, history, rngKeys, consumed := [], [], [], [], [], [], [];
      pending, cache := [], null;
      if cached {
        prefix := new PrefixCache(blockSize, budget, spill, k => RefBlock(model, blockSize, k));
      } else {
        prefix := null;
      }
    }

    ghost predicate Aligned()
      reads this`reqs, this`produced, this`feed, this`finished, this`history, this`rngKeys, this`consumed
    {
      |reqs| == |produced| == |feed| == |finished| == |history| == |rngKeys| == |consumed|
    }

    ghost function Row(b: nat): RowVars
      reads this`reqs, this`produced, this`feed, this`finished, this`history, this`rngKeys, this`consumed
      requires Aligned() && b < |reqs|
    {
      RowVars(produced[b], feed[b], finished[b], history[b], rngKeys[b], consumed[b])
    }

    ghost predicate RowsOk()
      reads this`reqs, this`produced, this`feed, this`finished, this`history, this`rngKeys, this`consumed, reqs
    {
      Aligned() && Distinct(reqs) && forall b :: 0 <= b < |reqs| ==> RowState(m, s, reqs[b], Row(b))
    }

    /** Sample one token for each of `count` rows from row `base` on, advancing their keys. */
    method SampleRows(logits: seq<Logits>, base: nat, count: nat) returns (drawn: seq<Sampled>)
      requires Aligned() && base + count <= |reqs| && count <= |logits|
      modifies this`rngKeys
      ensures Aligned() && |drawn| == count
      ensures forall r :: 0 <= r < |reqs| ==>
                Row(r) == if base <= r < base + count then old(Row(r)).(rng := s.split(old(Row(r)).rng).0) else old(Row(r))
      ensures forall r :: base <= r < base + count ==>
                && (drawn[r - base].id, drawn[r - base].record)
                   == Draw(s, reqs[r], logits[r - base], old(Row(r)).rng, reqs[r].grammar, old(Row(r)).history)
                && drawn[r - base].hasLp == reqs[r].wantLogprobs
    {
      drawn := [];
      for i := 0 to count
        invariant Aligned() && |drawn| == i
        invariant forall r :: 0 <= r < |rngKeys| ==>
                    rngKeys[r] == if base <= r < base + i then s.split(old(rngKeys)[r]).0 else old(rngKeys)[r]
        invariant forall k :: 0 <= k < i ==>
                    && (drawn[k].id, drawn[k].record)
                       == Draw(s, reqs[base + k], logits[k], old(rngKeys)[base + k], reqs[base + k].grammar, history[base + k])
                    && drawn[k].hasLp == reqs[base + k].wantLogprobs
      {
        var r := base + i;
        var req := reqs[r];
        var row := if req.constrained then s.mask(req.grammar, logits[i]) else logits[i];
        var keys := s.split(rngKeys[r]);
        rngKeys := rngKeys[r := keys.0];
        var one := if !req.penalties || history[r] == [] then s.sample(row, req.params, keys.1, [])
                   else s.sample(row, req.params, keys.1, history[r]);
        drawn := drawn + [Sampled(one.0, one.1, req.wantLogprobs)];
      }
    }

    /** Take row b's drawn token: feed it next, let later penalties see it, advance the grammar,
        then emit it, unless the request turned out cancelled. */
    method AcceptToken(b: nat, d: Sampled, cancelled: bool, ghost rng0: Rng)
      requires Aligned() && b < |reqs| && Drawn(m, s, reqs[b], Row(b), rng0, d) && (cancelled ==> reqs[b].cancels)
      modifies this`produced, this`feed, this`finished, this`history, reqs[b]
      ensures Aligned() && RowState(m, s, reqs[b], Row(b))
      ensures forall k :: 0 <= k < |reqs| && k != b ==> Row(k) == old(Row(k))
      ensures produced == old(produced)[b := produced[b]] && finished == old(finished)[b := finished[b]] && old(produced[b]) <= produced[b]
      ensures !finished[b] ==> |reqs[b].tokens| == |old(reqs[b].tokens)| + 1 == produced[b] == old(produced[b]) + 1
      ensures Heeded(reqs[b], old(MarkOf(reqs[b])), cancelled) && (cancelled ==> finished[b])
    {
      hide Settled;
      hide Generate;
      hide RowState;
      hide Live;
      hide NextLogits;
      ghost var g := GenBefore(reqs[b], history[b], rng0);
      feed := feed[b := d.id];
      history := history[b := history[b] + [d.id]];
      if reqs[b].constrained {
        reqs[b].grammar := s.advance(reqs[b].grammar, d.id);
      }
      if cancelled {
        reqs[b].reason := Cancel;
        finished := finished[b := true];
        CancelledRow(m, s, reqs[b], g, Row(b));
        return;
      }
      EmitToken(b, d, g);
    }

    /** The part of AcceptToken that emits. */
    method EmitToken(b: nat, d: Sampled, ghost g: Gen)
      requires Aligned() && b < |reqs| && !finished[b] && Taking(m, s, reqs[b], Row(b), g, d)
      modifies this`produced, this`finished, reqs[b]
      ensures Aligned() && RowState(m, s, reqs[b], Row(b))
      ensures forall k :: 0 <= k < |reqs| && k != b ==> Row(k) == old(Row(k))
      ensures produced == old(produced)[b := produced[b]] && finished == old(finished)[b := finished[b]] && old(produced[b]) <= produced[b]
      ensures !finished[b] ==> |reqs[b].tokens| == |old(reqs[b].tokens)| + 1 == produced[b] == old(produced[b]) + 1
      ensures Heeded(reqs[b], old(MarkOf(reqs[b])), false)
    {
      hide Settled;
      hide Generate;
      hide RowState;
      hide Live;
      hide NextLogits;
      hide Pushes;
      hide Draw;
      var done, now := Consume(reqs[b], produced[b], d.id, d.record, d.hasLp);
      produced := produced[b := now];
      if done {
        finished := finished[b := true];
      }
      TakenRow(m, s, reqs[b], g, d, Row(b));
    }

    /** Mark row b cancelled; its drawn token goes nowhere. */
    method CancelRow(b: nat, ghost rng0: Rng, ghost d: Sampled)
      requires Aligned() && b < |reqs| && Drawn(m, s, reqs[b], Row(b), rng0, d) && reqs[b].cancels
      modifies this`finished, reqs[b]
      ensures Aligned() && RowState(m, s, reqs[b], Row(b)) && finished == old(finished)[b := true]
      ensures Heeded(reqs[b], old(MarkOf(reqs[b])), true)
      ensures forall k :: 0 <= k < |reqs| && k != b ==> Row(k) == old(Row(k))
    {
      hide RowState;
      hide Live;
      ghost var g := GenBefore(reqs[b], history[b], rng0);
      reqs[b].reason := Cancel;
      finished := finished[b := true];
      CancelledRow(m, s, reqs[b], g, Row(b));
    }

    /** The new rows' bookkeeping, before anything is sampled. */
    method PushRows(incoming: seq<Request>)
      requires Aligned()
      modifies this`reqs, this`produced, this`feed, this`finished, this`history, this`rngKeys, this`consumed
      ensures Aligned() && reqs == old(reqs) + incoming && consumed == old(consumed) + Prompts(incoming)
      ensures produced[..|old(reqs)|] == old(produced)
      ensures forall b :: 0 <= b < |old(reqs)| ==> Row(b) == old(Row(b))
      ensures forall b :: |old(reqs)| <= b < |reqs| ==> Row(b) == NewRow(s, reqs[b])
    {
      ghost var base := |reqs|;
      for i := 0 to |incoming|
        invariant reqs == old(reqs) + incoming[..i] && consumed == old(consumed) + Prompts(incoming[..i])
        invariant produced == old(produced) + Repeat(i, 0) && feed == old(feed) + Repeat(i, 0)
        invariant finished == old(finished) + Repeat(i, false)
        invariant history == old(history) + Prompts(incoming[..i]) && rngKeys == old(rngKeys) + SeedKeys(s, incoming[..i])
      {
        SnocAll(s, incoming, i);
        hide *;
        var req := incoming[i];
        reqs := reqs + [req];
        produced := produced + [0];
        feed := feed + [0];
        finished := finished + [false];
        history := history + [req.prompt];
        rngKeys := rngKeys + [s.key(req.seed)];
        consumed := consumed + [req.prompt];
      }
      assert incoming[..|incoming|] == incoming;
    }

    /** Compile each constrained request's grammar before its first token is sampled. */
    method CompileGrammars(incoming: seq<Request>)
      requires forall i :: 0 <= i < |incoming| ==> incoming[i].Untouched()
      modifies incoming`grammar
      ensures forall i :: 0 <= i < |incoming| ==> incoming[i].Untouched() && incoming[i].grammar == incoming[i].compiled
    {
      for i := 0 to |incoming|
        invariant forall k :: 0 <= k < |incoming| ==> incoming[k].Untouched()
        invariant forall k :: 0 <= k < i ==> incoming[k].grammar == incoming[k].compiled
      {
        if incoming[i].constrained {
          incoming[i].grammar := incoming[i].compiled;
        }
      }
    }

    /** Register the new rows and sample their first tokens; nothing is taken in yet. */
    method JoinRows(incoming: seq<Request>, last: seq<Logits>) returns (drawn: seq<Sampled>, ghost keys0: seq<Rng>)
      requires RowsOk() && Distinct(reqs + incoming) && |last| == |incoming|
      requires forall i :: 0 <= i < |incoming| ==> incoming[i].Untouched() && last[i] == NextLogits(m, incoming[i].prompt)
      modifies this`reqs, this`produced, this`feed, this`finished, this`history, this`rngKeys, this`consumed, incoming`grammar
      ensures Aligned() && reqs == old(reqs) + incoming && consumed == old(consumed) + Prompts(incoming)
      ensures produced[..|old(reqs)|] == old(produced)
      ensures |drawn| == |incoming| && |keys0| == |reqs|
      ensures forall b :: 0 <= b < |old(reqs)| ==> RowState(m, s, reqs[b], Row(b))
      ensures forall b :: |old(reqs)| <= b < |reqs| ==> Drawn(m, s, reqs[b], Row(b), keys0[b], drawn[b - |old(reqs)|])
    {
      hide Live;
      hide RowState;
      hide Drawn;
      hide Draw;
      hide NextLogits;
      var base := |reqs|;
      DistinctParts(reqs, incoming);
      CompileGrammars(incoming);
      PushRows(incoming);
      keys0 := rngKeys;
      label sampling:
      drawn := SampleRows(last, base, |incoming|);
      forall b | base <= b < |reqs|
        ensures Drawn(m, s, reqs[b], Row(b), keys0[b], drawn[b - base])
      {
        assert old@sampling(Row(b)) == NewRow(s, reqs[b]);
        assert reqs[b] == incoming[b - base];
        NewRowDrawn(m, s, reqs[b], drawn[b - base]);
      }
      forall b | 0 <= b < base
        ensures RowState(m, s, reqs[b], Row(b))
      {
        assert old(RowState(m, s, reqs[b], Row(b))) && reqs[b] == old(reqs)[b] && reqs[b] !in incoming;
        assert Row(b) == old(Row(b));
      }
    }

    /** register_rows: join the prefilled requests to the batch and sample each one's first token. */
    method RegisterRows(incoming: seq<Request>, last: seq<Logits>, cancelled: set<Request>)
      requires RowsOk() && Distinct(reqs + incoming) && |last| == |incoming| && Cancellable(cancelled)
      requires forall i :: 0 <= i < |incoming| ==> incoming[i].Untouched() && last[i] == NextLogits(m, incoming[i].prompt)
      modifies this`reqs, this`produced, this`feed, this`finished, this`history, this`rngKeys, this`consumed, incoming
      ensures RowsOk() && reqs == old(reqs) + incoming
      ensures consumed == old(consumed) + Prompts(incoming)
      ensures produced[..|old(reqs)|] == old(produced)
      ensures Joined(reqs, old(reqs), cancelled)
      ensures forall b :: |old(reqs)| <= b < |reqs| && reqs[b] in cancelled ==>
                finished[b] && reqs[b].reason == Cancel && reqs[b].tokens == [] && reqs[b].logprobs == []
      ensures forall b :: |old(reqs)| <= b < |reqs| && reqs[b] !in cancelled ==> reqs[b].reason != Cancel
    {
      hide RowState;
      hide Drawn;
      hide Row;
      hide NextLogits;
      var base := |reqs|;
      var drawn; ghost var keys0;
      drawn, keys0 := JoinRows(incoming, last);
      assert reqs[base..] == incoming;
      TakeFirst(base, drawn, cancelled, keys0);
    }

    lemma CancelsAllowed(cancelled: set<Request>)
      requires Cancellable(cancelled)
      ensures forall r :: r in cancelled ==> r.cancels
    {
    }

    /** The loop of register_rows over the new rows' first tokens. */
    method TakeFirst(base: nat, drawn: seq<Sampled>, cancelled: set<Request>, ghost keys0: seq<Rng>)
      requires Aligned() && Distinct(reqs) && base + |drawn| == |keys0| == |reqs| && Cancellable(cancelled)
      requires forall b :: 0 <= b < base ==> RowState(m, s, reqs[b], Row(b))
      requires forall b :: base <= b < |reqs| ==> Drawn(m, s, reqs[b], Row(b), keys0[b], drawn[b - base])
      modifies this`produced, this`feed, this`finished, this`history, reqs[base..]
      ensures RowsOk() && produced[..base] == old(produced[..base])
      ensures forall b :: base <= b < |reqs| ==> Heeded(reqs[b], old(MarkOf(reqs[b])), reqs[b] in cancelled) && (reqs[b] in cancelled ==> finished[b])
    {
      hide RowState;
      hide Drawn;
      hide Heeded;
      hide Row;
      hide MarkOf;
      hide Cancellable;
      CancelsAllowed(cancelled);
      for i := 0 to |drawn|
        invariant Aligned() && produced[..base] == old(produced[..base])
        invariant forall b :: 0 <= b < base + i ==> RowState(m, s, reqs[b], Row(b))
        invariant forall b :: base + i <= b < |reqs| ==> Drawn(m, s, reqs[b], Row(b), keys0[b], drawn[b - base])
        invariant forall b :: base + i <= b < |reqs| ==> MarkOf(reqs[b]) == old(MarkOf(reqs[b]))
        invariant forall b :: base <= b < base + i ==> Heeded(reqs[b], old(MarkOf(reqs[b])), reqs[b] in cancelled) && (reqs[b] in cancelled ==> finished[b])
      {
        var b := base + i;
        assert reqs[b] == reqs[base..][i];
        assert forall k :: 0 <= k < |reqs| && k != b ==> reqs[k] != reqs[b];
        hide Distinct;
        AcceptToken(b, drawn[i], reqs[b] in cancelled, keys0[b]);
      }
    }

    ghost predicate NoneFinished()
      reads this`finished
    {
      forall b :: 0 <= b < |finished| ==> !finished[b]
    }

    /** decode_step: one token for every row. A row either gets exactly one more token or finishes; the rows seen
        cancelled, and no others, finish as cancelled, with nothing more. */
    method DecodeStep(cancelled: set<Request>)
      requires RowsOk() && NoneFinished() && 0 < |reqs| && m.Valid() && cache != null && Holding(m, cache, consumed) && Cancellable(cancelled)
      modifies this`produced, this`feed, this`finished, this`history, this`rngKeys, this`consumed, cache, reqs
      ensures RowsOk() && cache != null && Holding(m, cache, consumed) && |produced| == |old(produced)|
      ensures forall b :: 0 <= b < |produced| ==> old(produced[b]) <= produced[b]
      ensures forall b :: 0 <= b < |reqs| && !finished[b] ==>
                |reqs[b].tokens| == |old(reqs[b].tokens)| + 1 && produced[b] == old(produced[b]) + 1
      ensures forall b :: 0 <= b < |reqs| && reqs[b] in cancelled ==>
                && finished[b] && reqs[b].reason == Cancel
                && reqs[b].tokens == old(reqs[b].tokens) && reqs[b].logprobs == old(reqs[b].logprobs)
      ensures forall b :: 0 <= b < |reqs| && reqs[b] !in cancelled ==>
                reqs[b].reason != Cancel && old(reqs[b].tokens) <= reqs[b].tokens && |reqs[b].tokens| <= |old(reqs[b].tokens)| + 1
    {
      hide *;
      RowsMean();
      LengthsAre();
      GivenMeans(reqs);
      ghost var counts := produced;
      var logits := DecodeBatch();
      LengthsAre();
      ghost var keys0 := rngKeys;
      var drawn := SampleAll(logits, keys0);
      LengthsAre();
      TakeAll(drawn, cancelled, keys0);
      RowsMean();
      DropDummies(m, cache, |reqs|, consumed);
      forall b | 0 <= b < |reqs|
        ensures TookOne(reqs[b], old(MarkOf(reqs[b])), counts[b], produced[b], reqs[b] in cancelled, finished[b])
      {
      }
      forall b | 0 <= b < |reqs|
        ensures MarkOf(reqs[b]) == Mark(reqs[b].tokens, reqs[b].logprobs, reqs[b].reason)
        ensures counts[b] <= produced[b] && (!finished[b] ==> |reqs[b].tokens| == |old(reqs[b].tokens)| + 1 && produced[b] == counts[b] + 1)
        ensures reqs[b] in cancelled ==> finished[b] && MarkOf(reqs[b]) == old(MarkOf(reqs[b])).(reason := Cancel)
        ensures reqs[b] !in cancelled ==>
                  reqs[b].reason != Cancel && old(reqs[b].tokens) <= reqs[b].tokens && |reqs[b].tokens| <= |old(reqs[b].tokens)| + 1
      {
        TookMeans(reqs[b], old(MarkOf(reqs[b])), counts[b], produced[b], reqs[b] in cancelled, finished[b]);
      }
    }

    /** The loop of decode_step over the sampled rows. */
    method TakeAll(drawn: seq<Sampled>, cancelled: set<Request>, ghost keys0: seq<Rng>)
      requires Aligned() && Distinct(reqs) && |drawn| == |keys0| == |reqs| && Cancellable(cancelled)
      requires forall b :: 0 <= b < |reqs| ==> Drawn(m, s, reqs[b], Row(b), keys0[b], drawn[b])
      modifies this`produced, this`feed, this`finished, this`history, reqs
      ensures RowsOk() && |produced| == |old(produced)|
      ensures forall b :: 0 <= b < |reqs| ==>
                TookOne(reqs[b], old(MarkOf(reqs[b])), old(produced[b]), produced[b], reqs[b] in cancelled, finished[b])
    {
      hide *;
      CancelsAllowed(cancelled);
      GivenMeans(reqs);
      ghost var marks, counts := Given(reqs), produced;
      LengthsAre();
      for b := 0 to |reqs|
        invariant Aligned() && |produced| == |reqs| == |finished|
        invariant forall k :: 0 <= k < b ==> RowState(m, s, reqs[k], Row(k))
        invariant forall k :: 0 <= k < b ==> TookOne(reqs[k], marks[k], counts[k], produced[k], reqs[k] in cancelled, finished[k])
        invariant forall k :: b <= k < |reqs| ==> Drawn(m, s, reqs[k], Row(k), keys0[k], drawn[k])
        invariant forall k :: b <= k < |reqs| ==> MarkOf(reqs[k]) == marks[k] && produced[k] == counts[k]
      {
        OthersDiffer(reqs, b);
        TakeDrawn(b, drawn[b], reqs[b] in cancelled, keys0[b]);
        LengthsAre();
      }
      RowsAre();
    }

    lemma LengthsAre()
      ensures Aligned() <==> |reqs| == |produced| == |feed| == |finished| == |history| == |rngKeys| == |consumed|
    {
    }

    lemma RowsAre()
      requires Aligned() && Distinct(reqs) && forall b :: 0 <= b < |reqs| ==> RowState(m, s, reqs[b], Row(b))
      ensures RowsOk()
    {
    }

    /** One row of that loop. */
    method TakeDrawn(b: nat, d: Sampled, cancelled: bool, ghost rng0: Rng)
      requires Aligned() && b < |reqs| && Drawn(m, s, reqs[b], Row(b), rng0, d) && (cancelled ==> reqs[b].cancels)
      modifies this`produced, this`feed, this`finished, this`history, reqs[b]
      ensures Aligned() && RowState(m, s, reqs[b], Row(b))
      ensures forall k :: 0 <= k < |reqs| && k != b ==> Row(k) == old(Row(k))
      ensures produced == old(produced)[b := produced[b]] && finished == old(finished)[b := finished[b]] && old(produced[b]) <= produced[b]
      ensures TookOne(reqs[b], old(MarkOf(reqs[b])), old(produced[b]), produced[b], cancelled, finished[b])
    {
      hide RowState;
      hide Drawn;
      hide Heeded;
      if cancelled {
        CancelRow(b, rng0, d);
      } else {
        AcceptToken(b, d, false, rng0);
      }
    }

    /** The forward pass of a decode step: every row's cache takes in its feed token. */
    method DecodeBatch() returns (logits: seq<Logits>)
      requires RowsOk() && NoneFinished() && 0 < |reqs| && m.Valid() && cache != null && Holding(m, cache, consumed)
      modifies this`consumed, cache
      ensures Aligned() && consumed == history
      ensures cache.Valid() && cache.Aligned() && cache.Started() && cache.comps == m.comps && |cache.keys| == m.nLayers && cache.keys[0] != []
      ensures |reqs| <= cache.batch && forall b :: 0 <= b < |reqs| ==> cache.Rows()[b] == RefRow(m, consumed[b])
      ensures |reqs| <= |logits| && forall b :: 0 <= b < |reqs| ==> logits[b] == NextLogits(m, history[b])
      ensures forall b :: 0 <= b < |reqs| ==> Drawing(m, s, reqs[b], Row(b), rngKeys[b])
    {
      assert forall b :: 0 <= b < |reqs| ==> RowState(m, s, reqs[b], Row(b)) && !finished[b];
      hide Live;
      logits := DecodeForward(m, cache, feed, consumed);
      forall b | 0 <= b < |reqs|
        ensures consumed[b] + [feed[b]] == history[b]
      {
        assert RowState(m, s, reqs[b], Row(b));
      }
      consumed := history;
    }

    /** Sample every row of the batch; the logits of dummy rows are left alone. */
    method SampleAll(logits: seq<Logits>, ghost keys0: seq<Rng>) returns (drawn: seq<Sampled>)
      requires Aligned() && |reqs| <= |logits| && keys0 == rngKeys
      requires forall b :: 0 <= b < |reqs| ==> logits[b] == NextLogits(m, history[b]) && Drawing(m, s, reqs[b], Row(b), rngKeys[b])
      modifies this`rngKeys
      ensures Aligned() && |drawn| == |reqs|
      ensures forall b :: 0 <= b < |reqs| ==> Drawn(m, s, reqs[b], Row(b), keys0[b], drawn[b])
    {
      hide Drawing;
      drawn := SampleRows(logits, 0, |reqs|);
      forall b | 0 <= b < |reqs|
        ensures Drawn(m, s, reqs[b], Row(b), keys0[b], drawn[b])
      {
        var i := b - 0;
        assert Row(b) == old(Row(b)).(rng := s.split(old(Row(b)).rng).0);
        assert drawn[i].hasLp == reqs[b].wantLogprobs;
        SampledRow(m, s, reqs[b], old(Row(b)), drawn[i]);
      }
    }

    /** The prefix pool's objects, when the feature is on. */
    ghost function Pools(): set<BlockPool> {
      if prefix == null then {} else {prefix.pool}
    }

    ghost function Tiers(): set<SpillTier> {
      if prefix == null || prefix.pool.spill == null then {} else {prefix.pool.spill}
    }

    /** Every pooled or spilled block is the K/V its key names. */
    ghost predicate PrefixOk()
      reads if prefix == null then {} else {prefix}, Pools(), Tiers()
    {
      prefix != null ==> prefix.Valid() && PrefixNames()
    }

    ghost predicate PrefixNames()
      requires prefix != null
    {
      forall k :: prefix.truth(k) == RefBlock(m, prefix.blockSize, k)
    }

    ghost predicate CacheMatches()
      reads this`reqs, this`consumed, this`cache, cache
    {
      if reqs == [] then cache == null else cache != null && Holding(m, cache, consumed)
    }

    /** One finished row's prompt span, all layers. */
    method FetchRow(b: nat, leftPad: nat, len: nat) returns (ks: seq<seq<Row>>, vs: seq<seq<Row>>)
      requires cache != null && Holding(m, cache, consumed) && b < |consumed| && m.Valid()
      requires leftPad == cache.leftPadding[b] && len <= |consumed[b]|
      ensures ks == RefRow(m, consumed[b][..len]).keys && vs == RefRow(m, consumed[b][..len]).values
    {
      ks, vs := [], [];
      ghost var row, want := RefRow(m, consumed[b]), RefRow(m, consumed[b][..len]);
      assert cache.Rows()[b] == row;
      RefRowWhole(m, consumed[b]);
      for l := 0 to m.nLayers
        invariant ks == want.keys[..l] && vs == want.values[..l]
      {
        var k, v := cache.FetchRowComponents(l, b, leftPad, len);
        PrefixCells(m, l, consumed[b], len);
        FetchedPrefix(m, cache, b, l, len);
        assert row.keys[l] == RefKeys(m, l, consumed[b]) && row.values[l] == RefValues(m, l, consumed[b]);
        ks := ks + [k];
        vs := vs + [v];
      }
    }

    /** What holds of the decode batch between iterations. */
    ghost predicate Between()
      reads this`reqs, this`produced, this`feed, this`finished, this`history, this`rngKeys, this`consumed, this`cache, reqs, cache,
            if prefix == null then {} else {prefix}, Pools(), Tiers()
    {
      RowsOk() && NoneFinished() && CacheMatches() && PrefixOk()
    }

    ghost function Work(): nat
      reads this`reqs, this`produced
    {
      if |reqs| == |produced| then RowsWork(reqs, produced) else 0
    }

    /** harvest_finished: seal each finished row's prompt span into the pool. */
    method HarvestFinished()
      requires RowsOk() && CacheMatches() && PrefixOk() && m.Valid()
      modifies Pools(), Tiers()
      ensures PrefixOk() && RowsOk() && CacheMatches()
      ensures prefix != null && prefix.Keeps() ==> old(prefix.Available()) <= prefix.Available()
      ensures prefix != null ==> Harvested(|reqs|)
    {
      if prefix == null || cache == null {
        return;
      }
      assert Aligned();
      PrefixMeans();
      BlockSizePositive();
      hide *;
      HarvestedNone();
      for b := 0 to |reqs|
        invariant PrefixOk() && RowsOk() && CacheMatches()
        invariant prefix.Keeps() ==> old(prefix.Available()) <= prefix.Available()
        invariant Harvested(b)
      {
        HarvestedNext(b);
        if finished[b] {
          HarvestRow(b);
        }
      }
    }

    /** Of the finished ones of the first `n` rows, every block of the prompt is in an unbounded pool, and every block
        the pool admits is available over a lossless disk tier. */
    ghost predicate Harvested(n: nat)
      reads this`reqs, this`finished, if prefix == null then {} else {prefix}, Pools(), Tiers()
    {
      && prefix != null && 0 < prefix.blockSize && n <= |reqs| == |finished|
      && forall k :: 0 <= k < n && finished[k] ==>
           && (prefix.pool.budget == 0 ==> prefix.Named(reqs[k].prompt) <= prefix.pool.blocks.Keys)
           && (prefix.Keeps() ==> prefix.Fitting(reqs[k].prompt) <= prefix.Available())
    }

    lemma HarvestedNone()
      requires prefix != null && 0 < prefix.blockSize && |reqs| == |finished|
      ensures Harvested(0)
    {
    }

    lemma HarvestedNext(b: nat)
      requires Harvested(b) && b < |reqs|
      ensures !finished[b] ==> Harvested(b + 1)
    {
    }

    /** One more prompt's blocks, and none lost. */
    lemma HarvestedMore(b: nat, held: set<Key>, available: set<Key>)
      requires prefix != null && 0 < prefix.blockSize && b < |reqs| == |finished|
      requires HarvestedIn(b, held, available)
      requires prefix.pool.budget == 0 ==> held + prefix.Named(reqs[b].prompt) <= prefix.pool.blocks.Keys
      requires prefix.Keeps() ==> available + prefix.Fitting(reqs[b].prompt) <= prefix.Available()
      ensures Harvested(b + 1)
    {
    }

    /** Harvested, of a pool and tier that hold these keys. */
    ghost predicate HarvestedIn(n: nat, held: set<Key>, available: set<Key>)
      requires prefix != null && 0 < prefix.blockSize && n <= |reqs| == |finished|
      reads this`reqs, this`finished, prefix
    {
      forall k :: 0 <= k < n && finished[k] ==>
        && (prefix.pool.budget == 0 ==> prefix.Named(reqs[k].prompt) <= held)
        && (prefix.Keeps() ==> prefix.Fitting(reqs[k].prompt) <= available)
    }

    lemma HarvestedHere(n: nat)
      requires Harvested(n)
      ensures |reqs| == |finished| && HarvestedIn(n, prefix.pool.blocks.Keys, prefix.Available())
    {
    }

    method HarvestRow(b: nat)
      requires RowsOk() && CacheMatches() && PrefixOk() && m.Valid() && prefix != null && b < |reqs|
      requires Harvested(b)
      modifies Pools(), Tiers()
      ensures PrefixOk() && RowsOk() && CacheMatches()
      ensures Harvested(b + 1)
      ensures prefix.Keeps() ==> old(prefix.Available()) <= prefix.Available()
    {
      hide *;
      RowSpan(b);
      var lp := cache.leftPadding[b];
      var len := Min(cache.idx - lp, |reqs[b].prompt|);
      HarvestedHere(b);
      ghost var held, available := prefix.pool.blocks.Keys, prefix.Available();
      PrefixMeans();
      PoolsAre();
      BlockSizePositive();
      if len < prefix.blockSize {
        NothingToKeep(reqs[b].prompt);
        HarvestedMore(b, held, available);
        return;
      }
      ghost var ids := reqs[b].prompt;
      assert history[b][..len] == ids && consumed[b][..len] == ids;
      var ks, vs := FetchRow(b, lp, len);
      SealedNamed(ids, ks, vs);
      prefix.Harvest(history[b], len, ks, vs);
      HarvestedMore(b, held, available);
      PrefixMeans();
    }

    /** A row's cached and remembered tokens both begin with its prompt, which its cache row covers. */
    lemma RowSpan(b: nat)
      requires RowsOk() && CacheMatches() && m.Valid() && b < |reqs|
      ensures |history| == |consumed| == |reqs| && cache != null && Holding(m, cache, consumed) && |cache.leftPadding| == |reqs|
      ensures reqs[b].prompt <= history[b] && reqs[b].prompt <= consumed[b] && cache.idx - cache.leftPadding[b] == |consumed[b]|
      ensures Min(cache.idx - cache.leftPadding[b], |reqs[b].prompt|) == |reqs[b].prompt|
    {
      assert RowState(m, s, reqs[b], Row(b));
      assert cache.Rows()[b] == RefRow(m, consumed[b]);
      hide Live;
      hide Settled;
    }

    lemma PoolsAre()
      requires prefix != null
      ensures Pools() == {prefix.pool} && Tiers() == if prefix.pool.spill == null then {} else {prefix.pool.spill}
    {
    }

    lemma NothingToKeep(ids: seq<int>)
      requires prefix != null && |ids| < prefix.blockSize
      ensures prefix.Named(ids) == prefix.Fitting(ids) == {}
    {
      assert BlockKeys(ids, prefix.blockSize) == [];
    }

    lemma SealedNamed(ids: seq<int>, ks: seq<seq<Row>>, vs: seq<seq<Row>>)
      requires prefix != null && 0 < prefix.blockSize && PrefixNames() && ks == RefRow(m, ids).keys && vs == RefRow(m, ids).values
      ensures Spans(ks, |ids|) && Spans(vs, |ids|)
      ensures forall k :: 0 <= k < |ids| / prefix.blockSize ==>
                SealedBlock(ks, vs, |ids|, prefix.blockSize, k) == prefix.truth(BlockKeys(ids, prefix.blockSize)[k])
    {
      RefRowWhole(m, ids);
      hide RefRow;
      hide SealedBlock;
      hide BlockKeys;
      hide RefBlock;
      forall k | 0 <= k < |ids| / prefix.blockSize
        ensures SealedBlock(ks, vs, |ids|, prefix.blockSize, k) == prefix.truth(BlockKeys(ids, prefix.blockSize)[k])
      {
        HarvestedIsNamed(m, prefix.blockSize, ids, k);
      }
    }

    /** Close the finished requests' queues and list the rows to keep. */
    method CloseFinished() returns (keep: seq<nat>)
      requires RowsOk()
      modifies reqs`closed
      ensures Ascending(keep, |reqs|) && forall b :: 0 <= b < |reqs| ==> (b in keep <==> !finished[b])
      ensures forall b :: 0 <= b < |reqs| && !finished[b] ==> RowState(m, s, reqs[b], Row(b))
      ensures forall b :: 0 <= b < |reqs| && finished[b] ==> reqs[b].closed && Settled(m, s, reqs[b])
    {
      hide Settled;
      hide RowState;
      hide Row;
      keep := [];
      for b := 0 to |reqs|
        invariant Ascending(keep, b) && forall k :: 0 <= k < b ==> (k in keep <==> !finished[k])
        invariant forall k :: 0 <= k < |reqs| && (k >= b || !finished[k]) ==> RowState(m, s, reqs[k], Row(k))
        invariant forall k :: 0 <= k < b && finished[k] ==> reqs[k].closed && Settled(m, s, reqs[k])
      {
        assert forall k :: 0 <= k < |reqs| && k != b ==> reqs[k] != reqs[b];
        if finished[b] {
          Close(b, reqs[b]);
        } else {
          keep := keep + [b];
        }
      }
    }

    /** The queues of a finished row close. */
    method Close(b: nat, req: Request)
      requires Aligned() && b < |reqs| && req == reqs[b] && finished[b] && RowState(m, s, req, Row(b))
      modifies req`closed
      ensures req.closed && Settled(m, s, req)
    {
      hide Live;
      hide Reference;
      req.closed := true;
    }

    /** Compact each row-aligned vector down to the kept rows, in place; `keep` is ascending, so
        every source sits at or after its destination. */
    method Compact(keep: seq<nat>)
      requires Aligned() && Ascending(keep, |reqs|)
      modifies this`reqs, this`produced, this`feed, this`finished, this`history, this`rngKeys, this`consumed
      ensures Aligned() && reqs == Select(old(reqs), keep) && consumed == Select(old(consumed), keep)
      ensures produced == Select(old(produced), keep)
      ensures forall k :: 0 <= k < |keep| ==> Row(k) == old(Row(keep[k]))
    {
      AscendingFits(keep, |reqs|);
      ghost var reqs0, produced0, feed0, finished0, history0, rng0 := reqs, produced, feed, finished, history, rngKeys;
      for dst := 0 to |keep|
        invariant |reqs| == |produced| == |feed| == |finished| == |history| == |rngKeys| == |reqs0| && consumed == old(consumed)
        invariant Gathered(reqs, reqs0, keep, dst) && Gathered(produced, produced0, keep, dst) && Gathered(feed, feed0, keep, dst)
        invariant Gathered(finished, finished0, keep, dst) && Gathered(history, history0, keep, dst) && Gathered(rngKeys, rng0, keep, dst)
      {
        hide Gathered;
        var src := keep[dst];
        GatherStep(reqs, reqs0, keep, dst);
        GatherStep(produced, produced0, keep, dst);
        GatherStep(feed, feed0, keep, dst);
        GatherStep(finished, finished0, keep, dst);
        GatherStep(history, history0, keep, dst);
        GatherStep(rngKeys, rng0, keep, dst);
        reqs := reqs[dst := reqs[src]];
        produced := produced[dst := produced[src]];
        feed := feed[dst := feed[src]];
        finished := finished[dst := finished[src]];
        history := history[dst := history[src]];
        rngKeys := rngKeys[dst := rngKeys[src]];
      }
      Resize(keep, reqs0, produced0, feed0, finished0, history0, rng0);
    }

    /** Drop the tails the gather left behind. */
    method Resize(keep: seq<nat>, ghost reqs0: seq<Request>, ghost produced0: seq<nat>, ghost feed0: seq<int>, ghost finished0: seq<bool>,
                  ghost history0: seq<seq<int>>, ghost rng0: seq<Rng>)
      requires Ascending(keep, |reqs0|) && |keep| <= |reqs0|
      requires |reqs0| == |produced0| == |feed0| == |finished0| == |history0| == |rng0| == |consumed|
      requires Gathered(reqs, reqs0, keep, |keep|) && Gathered(produced, produced0, keep, |keep|) && Gathered(feed, feed0, keep, |keep|)
      requires Gathered(finished, finished0, keep, |keep|) && Gathered(history, history0, keep, |keep|) && Gathered(rngKeys, rng0, keep, |keep|)
      modifies this`reqs, this`produced, this`feed, this`finished, this`history, this`rngKeys, this`consumed
      ensures reqs == Select(reqs0, keep) && produced == Select(produced0, keep) && feed == Select(feed0, keep)
      ensures finished == Select(finished0, keep) && history == Select(history0, keep) && rngKeys == Select(rng0, keep)
      ensures consumed == Select(old(consumed), keep)
    {
      GatherDone(reqs, reqs0, keep);
      GatherDone(produced, produced0, keep);
      GatherDone(feed, feed0, keep);
      GatherDone(finished, finished0, keep);
      GatherDone(history, history0, keep);
      GatherDone(rngKeys, rng0, keep);
      hide Gathered;
      var n := |keep|;
      reqs := reqs[..n];
      produced := produced[..n];
      feed := feed[..n];
      finished := finished[..n];
      history := history[..n];
      rngKeys := rngKeys[..n];
      consumed := Select(consumed, keep);
    }

    /** evict_finished: harvest, close and drop the finished rows; the others stay, in order. */
    method EvictFinished() returns (ghost gone: seq<Request>)
      requires RowsOk() && CacheMatches() && PrefixOk() && m.Valid()
      modifies this`reqs, this`produced, this`feed, this`finished, this`history, this`rngKeys, this`consumed, this`cache,
               cache, reqs`closed, Pools(), Tiers()
      ensures Between() && (cache == old(cache) || cache == null) && Distinct(old(reqs)) && |old(finished)| == |old(reqs)|
      ensures multiset(reqs) + multiset(gone) == multiset(old(reqs)) && Served(m, s, gone)
      ensures Work() <= old(Work()) && (!old(NoneFinished()) ==> Work() < old(Work()))
      ensures forall b :: 0 <= b < |old(reqs)| ==> (old(finished)[b] <==> old(reqs)[b] in gone)
      ensures forall i :: 0 <= i < |reqs| ==> reqs[i] in old(reqs) && reqs[i] !in gone
      ensures old(NoneFinished()) ==> reqs == old(reqs)
      ensures Given(old(reqs)) == old(Given(reqs))
    {
      hide *;
      WorkMeans();
      GivenMeans(reqs);
      ghost var all, counts, done, before := reqs, produced, finished, Given(reqs);
      gone := EvictRows();
      WorkMeans();
      EvictedWork(all, counts, done, reqs, produced, gone);
      EvictedGone(all, counts, done, reqs, produced, gone);
      GivenIs(all, before);
    }

    method EvictRows() returns (ghost gone: seq<Request>)
      requires RowsOk() && CacheMatches() && PrefixOk() && m.Valid()
      modifies this`reqs, this`produced, this`feed, this`finished, this`history, this`rngKeys, this`consumed, this`cache,
               cache, reqs`closed, Pools(), Tiers()
      ensures Between() && (cache == old(cache) || cache == null) && Distinct(old(reqs))
      ensures Evicted(old(reqs), old(produced), old(finished), reqs, produced, gone) && Served(m, s, gone)
    {
      hide RowState;
      hide PrefixOk;
      hide Holding;
      hide Evicted;
      hide Served;
      HarvestFinished();
      gone := DropClosed();
    }

    lemma WorkMeans()
      ensures |reqs| == |produced| ==> Work() == RowsWork(reqs, produced)
      ensures NoneFinished() <==> forall b :: 0 <= b < |finished| ==> !finished[b]
    {
    }

    method DropClosed() returns (ghost gone: seq<Request>)
      requires RowsOk() && CacheMatches() && m.Valid()
      modifies this`reqs, this`produced, this`feed, this`finished, this`history, this`rngKeys, this`consumed, this`cache, cache, reqs`closed
      ensures RowsOk() && NoneFinished() && CacheMatches() && (cache == old(cache) || cache == null)
      ensures Evicted(old(reqs), old(produced), old(finished), reqs, produced, gone) && Served(m, s, gone)
    {
      hide Settled;
      hide RowState;
      hide Holding;
      hide Row;
      ghost var rows, counts, done := reqs, produced, finished;
      RowsMean();
      var keep := CloseFinished();
      ghost var dropped := SplitMarked(reqs, finished, keep);
      gone := Select(reqs, dropped);
      assert forall i :: 0 <= i < |gone| ==> gone[i].closed && Settled(m, s, gone[i]);
      ServedIs(m, s, gone);
      hide RowsOk;
      hide Served;
      label closed:
      DropFinished(keep);
      EvictedIs(rows, counts, done, reqs, produced, gone, keep);
    }

    /** Filter the cache and the row vectors down to `keep`. */
    method DropFinished(keep: seq<nat>)
      requires Aligned() && Distinct(reqs) && CacheMatches() && m.Valid()
      requires Ascending(keep, |reqs|) && forall b :: 0 <= b < |reqs| ==> (b in keep <==> !finished[b])
      requires forall b :: 0 <= b < |reqs| && !finished[b] ==> RowState(m, s, reqs[b], Row(b))
      modifies this`reqs, this`produced, this`feed, this`finished, this`history, this`rngKeys, this`consumed, this`cache, cache
      ensures RowsOk() && NoneFinished() && CacheMatches()
      ensures reqs == Select(old(reqs), keep) && produced == Select(old(produced), keep)
      ensures cache == old(cache) || cache == null
    {
      hide Gathered;
      hide RowState;
      hide Holding;
      AscendingFits(keep, |reqs|);
      assert forall k :: 0 <= k < |keep| ==> keep[k] in keep;
      if |keep| == |reqs| {
        assert Select(reqs, keep) == reqs && Select(produced, keep) == produced;
        forall b | 0 <= b < |finished|
          ensures !finished[b]
        {
          assert keep[b] == b && keep[b] in keep;
        }
        return;
      }
      if keep == [] {
        cache := null;
      } else {
        FilterHeld(m, cache, keep, consumed);
      }
      DistinctSelect(reqs, keep);
      Compact(keep);
      forall k | 0 <= k < |finished|
        ensures !finished[k]
      {
        assert Row(k) == old(Row(keep[k])) && !old(finished[keep[k]]);
      }
    }

    /** Adopt a prefilled cache into the decode batch: take it over, or merge it after the rows. */
    method Adopt(other: BatchKVCache, ghost prompts: seq<seq<int>>)
      requires Aligned() && CacheMatches() && Holding(m, other, prompts) && other != cache && prompts != []
      modifies this`cache, cache
      ensures cache != null && Holding(m, cache, consumed + prompts)
      ensures cache == old(cache) || (old(cache) == null && cache == other)
    {
      if cache == null {
        cache := other;
        assert consumed + prompts == prompts;
      } else {
        MergeHeld(m, cache, other, consumed, prompts);
      }
    }

    /** No queued unit shares the decode batch's cache. */
    ghost predicate CacheApart()
      reads this`pending, this`cache
    {
      forall i :: 0 <= i < |pending| ==> pending[i].cache != cache
    }

    /** advance_chunked_prefill: one chunk of the front unit and no more; its rows join the batch when it is done. */
    method AdvanceChunkedPrefill(cancelled: set<Request>)
      requires m.Valid() && 0 < chunk && pending != [] && UnitsOk(m, pending) && CacheApart() && RowsOk() && CacheMatches()
      requires Distinct(reqs + Flat(pending)) && Cancellable(cancelled)
      modifies this`reqs, this`produced, this`feed, this`finished, this`history, this`rngKeys, this`consumed, this`cache, this`pending
      modifies cache, pending[0].cache, pending[0].reqs
      ensures RowsOk() && CacheMatches() && UnitsOk(m, pending) && CacheApart()
      ensures reqs + Flat(pending) == old(reqs + Flat(pending)) && old(reqs) <= reqs
      ensures RowsWork(reqs, produced) + PrefillWork(pending) < old(RowsWork(reqs, produced) + PrefillWork(pending))
      ensures cache == old(cache) || (old(cache) == null && cache == old(pending[0].cache))
      ensures Caches(pending) <= old(Caches(pending))
      ensures Joined(reqs, old(reqs), cancelled)
      ensures old(pending[0].pos) + chunk < old(pending[0].total) ==>
                reqs == old(reqs) && pending == old(pending)[0 := old(pending[0]).(pos := old(pending[0].pos) + chunk)]
      ensures old(pending[0].total) <= old(pending[0].pos) + chunk ==>
                reqs == old(reqs) + old(pending[0].reqs) && pending == old(pending)[1..]
    {
      hide RowState;
      hide Holding;
      hide RowsOk;
      hide CacheMatches;
      hide UnitOk;
      hide RowsWork;
      Apart(reqs, pending);
      hide Distinct;
      var p := pending[0];
      var last, pos := RunFront();
      if pos < p.total {
        ghost var rest := pending[1..];
        pending := pending[0 := p.(pos := pos)];
        assert pending[1..] == rest;
        UnitsCons(m, pending);
        return;
      }
      JoinFront(last, cancelled);
    }

    /** The front unit is fully prefilled: its rows join the batch. */
    method JoinFront(last: seq<Logits>, cancelled: set<Request>)
      requires m.Valid() && pending != [] && UnitsOk(m, pending[1..]) && CacheApart() && RowsOk() && CacheMatches()
      requires pending[0].cache !in Caches(pending[1..]) && forall r :: r in Queued(pending[1..]) ==> r !in pending[0].reqs
      requires Distinct(reqs + pending[0].reqs) && Cancellable(cancelled)
      requires pending[0].reqs != [] && |last| == |pending[0].reqs| && Holding(m, pending[0].cache, Prompts(pending[0].reqs))
      requires forall i :: 0 <= i < |last| ==> pending[0].reqs[i].Untouched() && last[i] == NextLogits(m, pending[0].reqs[i].prompt)
      modifies this`reqs, this`produced, this`feed, this`finished, this`history, this`rngKeys, this`consumed, this`cache, this`pending
      modifies cache, pending[0].reqs
      ensures RowsOk() && CacheMatches() && UnitsOk(m, pending) && CacheApart()
      ensures reqs == old(reqs) + old(pending[0].reqs) && pending == old(pending[1..])
      ensures RowsWork(reqs, produced) <= old(RowsWork(reqs, produced)) + Budget(old(pending[0].reqs))
      ensures cache == old(cache) || (old(cache) == null && cache == old(pending[0].cache))
      ensures Joined(reqs, old(reqs), cancelled)
    {
      hide *;
      var p := pending[0];
      ghost var rest := pending[1..];
      UnitParts(rest);
      UnitsMean(m, rest);
      UnitCaches();
      JoinBatch(p.reqs, p.cache, last, cancelled);
      pending := pending[1..];
      assert pending == rest;
      forall i | 0 <= i < |pending|
        ensures UnitOk(m, pending[i]) && pending[i].cache != cache
      {
        assert rest[i] == old(pending)[i + 1];
        assert old(UnitOk(m, rest[i])) && old(pending[i + 1].cache != cache);
        assert unchanged(rest[i].cache) && unchanged(rest[i].reqs);
      }
      UnitsAre(m, pending);
      UnitCaches();
    }

    /** One chunk of the front unit; the units behind it are left alone. */
    method RunFront() returns (last: seq<Logits>, pos: nat)
      requires m.Valid() && 0 < chunk && pending != [] && UnitsOk(m, pending) && CacheApart() && RowsOk() && CacheMatches()
      modifies pending[0].cache
      ensures RowsOk() && CacheMatches() && UnitsOk(m, pending[1..]) && pending[0].cache !in Caches(pending[1..])
      ensures pending[0].pos < pos <= pending[0].total
      ensures pos == if pending[0].pos + chunk < pending[0].total then pending[0].pos + chunk else pending[0].total
      ensures forall i :: 0 <= i < |pending[0].reqs| ==> pending[0].reqs[i].Untouched()
      ensures pos < pending[0].total ==> UnitOk(m, pending[0].(pos := pos))
      ensures pos == pending[0].total ==>
                && pending[0].reqs != [] && |last| == |pending[0].reqs| && Holding(m, pending[0].cache, Prompts(pending[0].reqs))
                && forall i :: 0 <= i < |last| ==> last[i] == NextLogits(m, pending[0].reqs[i].prompt)
    {
      hide RowState;
      hide Holding;
      hide PrefilledTo;
      hide NextLogits;
      ghost var rest := pending[1..];
      assert forall i :: 0 <= i < |rest| ==> rest[i] == pending[i + 1];
      assert UnitOk(m, pending[0]);
      hide UnitOk;
      last, pos := RunChunk(pending[0]);
      forall i | 0 <= i < |rest|
        ensures UnitOk(m, rest[i])
      {
        assert old(UnitOk(m, pending[i + 1]));
        assert unchanged(rest[i].cache) && unchanged(rest[i].reqs);
      }
    }

    /** Prefilled requests join the batch: their cache is adopted, their first tokens sampled. */
    method JoinBatch(rs: seq<Request>, c: BatchKVCache, last: seq<Logits>, cancelled: set<Request>)
      requires m.Valid() && RowsOk() && CacheMatches() && Distinct(reqs + rs) && c != cache && Cancellable(cancelled)
      requires rs != [] && |last| == |rs| && Holding(m, c, Prompts(rs))
      requires forall i :: 0 <= i < |rs| ==> rs[i].Untouched() && last[i] == NextLogits(m, rs[i].prompt)
      modifies this`reqs, this`produced, this`feed, this`finished, this`history, this`rngKeys, this`consumed, this`cache, cache, rs
      ensures RowsOk() && CacheMatches() && reqs == old(reqs) + rs
      ensures RowsWork(reqs, produced) <= old(RowsWork(reqs, produced)) + Budget(rs)
      ensures cache == old(cache) || (old(cache) == null && cache == c)
      ensures Joined(reqs, old(reqs), cancelled)
    {
      hide RowState;
      hide Holding;
      hide Live;
      hide RowsWork;
      hide Budget;
      Adopt(c, Prompts(rs));
      RegisterRows(rs, last, cancelled);
      JoinedWork(old(reqs), old(produced), rs, produced);
    }

    /** One chunk of one unit; the last column's logits when it was the final one. */
    method RunChunk(p: Pending) returns (last: seq<Logits>, pos: nat)
      requires m.Valid() && 0 < chunk && UnitOk(m, p)
      modifies p.cache
      ensures pos == p.pos + Min(chunk, p.total - p.pos)
      ensures pos < p.total ==> UnitOk(m, p.(pos := pos))
      ensures pos == p.total ==> Holding(m, p.cache, Prompts(p.reqs)) && |last| == |p.reqs|
      ensures pos == p.total ==> forall i :: 0 <= i < |p.reqs| ==> last[i] == NextLogits(m, p.reqs[i].prompt)
    {
      hide PrefilledTo;
      hide NextLogits;
      var n := Min(chunk, p.total - p.pos);
      ColumnsOfUnit(m, p, n);
      var slice := SliceCols(p.tokens, p.pos, p.pos + n);
      ghost var prompts, width := Prompts(p.reqs), p.reused + p.total;
      var logits := ForwardChunk(m, p.cache, slice, prompts, width, p.reused + p.pos, n, 0);
      last := LastColumn(logits);
      pos := p.pos + n;
      if pos == p.total {
        PrefilledReady(m, p.cache, prompts, width, last);
        assert Ready(m, p.cache, prompts, last);
      }
    }

    /** split_prefix: requests whose prompt matches pooled blocks are warm, the rest cold. */
    method SplitPrefix(incoming: seq<Request>) returns (cold: seq<Request>, warm: seq<Warm>)
      requires PrefixOk() && m.Valid()
      modifies Pools(), Tiers()
      ensures PrefixOk() && (prefix != null && prefix.Sure() ==> prefix.Available() == old(prefix.Available()))
      ensures Split(cold, warm, incoming)
      ensures prefix == null ==> warm == []
      ensures forall i :: 0 <= i < |warm| ==> Matches(m, warm[i].req.prompt, warm[i].blocks, warm[i].tokens, prefix.blockSize)
      ensures prefix != null && prefix.Sure() ==> WellSplit(cold, warm, prefix.blockSize, old(prefix.Available()))
    {
      assert prefix != null ==> 0 < prefix.blockSize;
      hide PrefixOk;
      hide Matches;
      hide WellSplit;
      hide Longest;
      cold, warm := [], [];
      if prefix != null {
        NoneSplit(prefix.blockSize, prefix.Available());
      }
      assert Split(cold, warm, incoming[..0]);
      hide Split;
      for i := 0 to |incoming|
        invariant PrefixOk() && (prefix != null && prefix.Sure() ==> prefix.Available() == old(prefix.Available()))
        invariant Split(cold, warm, incoming[..i])
        invariant prefix == null ==> warm == []
        invariant forall k :: 0 <= k < |warm| ==> Matches(m, warm[k].req.prompt, warm[k].blocks, warm[k].tokens, prefix.blockSize)
        invariant prefix != null && prefix.Sure() ==> WellSplit(cold, warm, prefix.blockSize, old(prefix.Available()))
      {
        var req := incoming[i];
        var blocks, tokens := MatchPrompt(req.prompt);
        if prefix != null && prefix.Sure() {
          SplitOne(cold, warm, prefix.blockSize, old(prefix.Available()), req, blocks, tokens);
        }
        SplitSnoc(cold, warm, incoming, i, blocks, tokens);
        if tokens > 0 {
          warm := warm + [Warm(req, blocks, tokens)];
        } else {
          cold := cold + [req];
        }
      }
      assert incoming[..|incoming|] == incoming;
    }

    /** The pool's match for one prompt; nothing when the feature is off. */
    method MatchPrompt(prompt: seq<int>) returns (blocks: seq<KVBlock>, tokens: nat)
      requires PrefixOk() && m.Valid()
      modifies Pools(), Tiers()
      ensures PrefixOk() && (prefix != null && prefix.Sure() ==> prefix.Available() == old(prefix.Available()))
      ensures 0 < tokens ==> prefix != null && Matches(m, prompt, blocks, tokens, prefix.blockSize)
      ensures prefix != null ==> 0 < prefix.blockSize
      ensures prefix != null && prefix.Sure() ==> Longest(prompt, prefix.blockSize, old(prefix.Available()), |blocks|, tokens)
    {
      if prefix == null {
        return [], 0;
      }
      blocks, tokens := prefix.Match(prompt);
      if 0 < tokens {
        MatchIsUsable(|prompt|, prefix.blockSize, |blocks|, tokens);
      }
    }

    /** A warm unit: its cache is seeded, its columns are the uncached suffix. */
    method WarmUnit(w: Warm) returns (p: Pending)
      requires m.Valid() && prefix != null && 0 < prefix.blockSize && w.req.Untouched()
      requires Matches(m, w.req.prompt, w.blocks, w.tokens, prefix.blockSize)
      ensures p.reqs == [w.req] && p.reused == w.tokens && fresh(p.cache) && UnitOk(m, p)
      ensures UnitWork(p) <= |w.req.prompt| + w.req.maxTokens + 1
    {
      hide PrefilledTo;
      var c := SeedPrompt(m, w.req.prompt, w.blocks, w.tokens, prefix.blockSize);
      var suffix := w.req.prompt[w.tokens..];
      p := Pending([w.req], [suffix], c, |suffix|, 0, w.tokens);
      assert Prompts(p.reqs) == [w.req.prompt];
      assert PadLeft(w.req.prompt, |w.req.prompt|, 0) == w.req.prompt;
      OneRequest(w.req);
    }

    /** The cold requests' shared unit, left-padded exactly like the monolithic prefill. */
    method ColdUnit(cold: seq<Request>) returns (p: Pending)
      requires m.Valid() && cold != [] && forall r :: r in cold ==> r.Untouched()
      ensures p.reqs == cold && p.reused == 0 && fresh(p.cache) && UnitOk(m, p)
      ensures UnitWork(p) <= Columns(cold) + Budget(cold)
    {
      hide UnitOk;
      hide PrefilledTo;
      hide PadLeft;
      var prompts := Prompts(cold);
      assert forall b :: 0 <= b < |prompts| ==> cold[b] in cold && prompts[b] == cold[b].prompt;
      var pMax, padded, c; ghost var widest;
      pMax, padded, c, widest := StartCold(m, prompts, 0);
      ColumnsCover(cold, widest);
      p := Pending(cold, padded, c, pMax, 0, 0);
      ColdUnitOk(m, p);
    }

    /** One more unit at the back of the queue. */
    method Queue(p: Pending)
      requires UnitsOk(m, pending) && UnitOk(m, p) && p.cache !in Caches(pending)
      modifies this`pending
      ensures pending == old(pending) + [p]
      ensures UnitsOk(m, pending) && Flat(pending) == old(Flat(pending)) + p.reqs
      ensures PrefillWork(pending) == old(PrefillWork(pending)) + UnitWork(p)
    {
      hide UnitOk;
      FlatSnoc(pending, p);
      pending := pending + [p];
    }

    /** enqueue_admissions: a unit for every warm request, then one for all the cold ones. */
    method EnqueueAdmissions(incoming: seq<Request>) returns (ghost cold: seq<Request>, ghost warm: seq<Warm>)
      requires m.Valid() && PrefixOk() && UnitsOk(m, pending) && incoming != []
      requires forall r :: r in incoming ==> r.Untouched()
      modifies this`pending, Pools(), Tiers()
      ensures PrefixOk() && UnitsOk(m, pending)
      ensures forall c :: c in Caches(pending) ==> c in old(Caches(pending)) || fresh(c)
      ensures multiset(Flat(pending)) == old(multiset(Flat(pending))) + multiset(incoming)
      ensures PrefillWork(pending) < old(PrefillWork(pending)) + WaitingWork(incoming)
      ensures Split(cold, warm, incoming) && QueuedUnits(old(pending), pending, cold, warm)
      ensures prefix != null && prefix.Sure() ==> WellSplit(cold, warm, prefix.blockSize, old(prefix.Available()))
    {
      hide UnitOk;
      hide UnitsOk;
      hide QueuedUnits;
      hide WellSplit;
      hide Matches;
      hide WaitingWork;
      hide Split;
      hide PrefixOk;
      hide Flat;
      hide Caches;
      hide PrefillWork;
      hide RowsOk;
      var rest, matched := SplitQueued(incoming);
      QueueSplit(rest, matched, incoming);
      cold, warm := rest, matched;
    }

    /** split_prefix leaves what is already queued alone. */
    method SplitQueued(incoming: seq<Request>) returns (cold: seq<Request>, warm: seq<Warm>)
      requires PrefixOk() && m.Valid() && UnitsOk(m, pending)
      modifies Pools(), Tiers()
      ensures PrefixOk() && UnitsOk(m, pending) && Split(cold, warm, incoming)
      ensures prefix != null && prefix.Sure() ==> WellSplit(cold, warm, prefix.blockSize, old(prefix.Available()))
      ensures warm != [] ==> prefix != null && 0 < prefix.blockSize
      ensures forall i :: 0 <= i < |warm| ==> Matches(m, warm[i].req.prompt, warm[i].blocks, warm[i].tokens, prefix.blockSize)
    {
      assert prefix != null ==> 0 < prefix.blockSize;
      hide UnitOk;
      hide UnitsOk;
      hide PrefixOk;
      hide WellSplit;
      hide Matches;
      hide Split;
      UnitsMean(m, pending);
      cold, warm := SplitPrefix(incoming);
      forall i | 0 <= i < |pending|
        ensures UnitOk(m, pending[i])
      {
        assert old(UnitOk(m, pending[i]));
        assert unchanged(pending[i].cache) && unchanged(pending[i].reqs);
      }
      UnitsAre(m, pending);
    }

    method QueueSplit(cold: seq<Request>, warm: seq<Warm>, ghost incoming: seq<Request>)
      requires m.Valid() && UnitsOk(m, pending) && (warm != [] ==> prefix != null && 0 < prefix.blockSize)
      requires incoming != [] && Split(cold, warm, incoming) && forall r :: r in incoming ==> r.Untouched()
      requires forall i :: 0 <= i < |warm| ==> Matches(m, warm[i].req.prompt, warm[i].blocks, warm[i].tokens, prefix.blockSize)
      modifies this`pending
      ensures UnitsOk(m, pending) && multiset(Flat(pending)) == old(multiset(Flat(pending))) + multiset(incoming)
      ensures forall c :: c in Caches(pending) ==> c in old(Caches(pending)) || fresh(c)
      ensures PrefillWork(pending) < old(PrefillWork(pending)) + WaitingWork(incoming)
      ensures QueuedUnits(old(pending), pending, cold, warm)
    {
      hide *;
      SplitUntouched(cold, warm, incoming);
      SplitWork(cold, warm, incoming, Flat(pending));
      ghost var units := QueueWarm(warm);
      if cold != [] {
        QueueCold(cold);
      }
      QueuedIs(old(pending), pending, units, cold, warm);
    }

    method QueueCold(cold: seq<Request>)
      requires m.Valid() && UnitsOk(m, pending) && cold != [] && forall r :: r in cold ==> r.Untouched()
      modifies this`pending
      ensures UnitsOk(m, pending) && Flat(pending) == old(Flat(pending)) + cold
      ensures forall c :: c in Caches(pending) ==> c in old(Caches(pending)) || fresh(c)
      ensures PrefillWork(pending) <= old(PrefillWork(pending)) + Columns(cold) + Budget(cold)
      ensures |pending| == |old(pending)| + 1 && pending[..|old(pending)|] == old(pending)
      ensures pending[|old(pending)|].reqs == cold && pending[|old(pending)|].reused == 0
    {
      hide UnitOk;
      hide UnitsOk;
      UnitsMean(m, pending);
      var unit := ColdUnit(cold);
      forall i | 0 <= i < |pending|
        ensures UnitOk(m, pending[i])
      {
        assert old(UnitOk(m, pending[i]));
        assert unchanged(pending[i].cache) && unchanged(pending[i].reqs);
      }
      UnitsAre(m, pending);
      Queue(unit);
    }

    method QueueWarm(warm: seq<Warm>) returns (ghost units: seq<Pending>)
      requires m.Valid() && UnitsOk(m, pending) && (warm != [] ==> prefix != null && 0 < prefix.blockSize)
      requires forall i :: 0 <= i < |warm| ==>
                 warm[i].req.Untouched() && Matches(m, warm[i].req.prompt, warm[i].blocks, warm[i].tokens, prefix.blockSize)
      modifies this`pending
      ensures UnitsOk(m, pending) && Flat(pending) == old(Flat(pending)) + WarmReqs(warm)
      ensures forall c :: c in Caches(pending) ==> c in old(Caches(pending)) || fresh(c)
      ensures PrefillWork(pending) <= old(PrefillWork(pending)) + Columns(WarmReqs(warm)) + Budget(WarmReqs(warm))
      ensures pending == old(pending) + units && WarmUnits(units, warm)
    {
      hide *;
      units := [];
      NoWarmUnits(warm);
      NoneWarm(warm);
      assert Flat(pending) + WarmReqs(warm[..0]) == Flat(pending) && pending + units == pending;
      for i := 0 to |warm|
        invariant UnitsOk(m, pending) && Flat(pending) == old(Flat(pending)) + WarmReqs(warm[..i])
        invariant forall c :: c in Caches(pending) ==> c in old(Caches(pending)) || fresh(c)
        invariant PrefillWork(pending) <= old(PrefillWork(pending)) + Columns(WarmReqs(warm[..i])) + Budget(WarmReqs(warm[..i]))
        invariant pending == old(pending) + units && WarmUnits(units, warm[..i])
      {
        WarmSnoc(warm, i);
        QueueOne(warm[i]);
        ghost var unit := pending[|pending| - 1];
        WarmUnitNext(units, warm, i, unit);
        units := units + [unit];
      }
      assert warm[..|warm|] == warm;
    }

    /** One warm request's unit. */
    method QueueOne(w: Warm)
      requires m.Valid() && UnitsOk(m, pending) && prefix != null && 0 < prefix.blockSize
      requires w.req.Untouched() && Matches(m, w.req.prompt, w.blocks, w.tokens, prefix.blockSize)
      modifies this`pending
      ensures UnitsOk(m, pending) && Flat(pending) == old(Flat(pending)) + [w.req]
      ensures forall c :: c in Caches(pending) ==> c in old(Caches(pending)) || fresh(c)
      ensures PrefillWork(pending) <= old(PrefillWork(pending)) + |w.req.prompt| + w.req.maxTokens + 1
      ensures |pending| == |old(pending)| + 1 && pending == old(pending) + [pending[|pending| - 1]]
      ensures pending[|pending| - 1].reqs == [w.req] && pending[|pending| - 1].reused == w.tokens
    {
      hide *;
      UnitCaches();
      UnitsMean(m, pending);
      var unit := WarmUnit(w);
      forall i | 0 <= i < |pending|
        ensures UnitOk(m, pending[i])
      {
        assert old(UnitOk(m, pending[i]));
        assert unchanged(pending[i].cache) && unchanged(pending[i].reqs);
      }
      UnitsAre(m, pending);
      Queue(unit);
      CachesSnoc(old(pending), unit);
    }

    /** admit: the monolithic path. The cold requests share one batched prefill, matched ones
        prefill only their suffix, one by one. */
    method Admit(incoming: seq<Request>, cancelled: set<Request>)
      requires m.Valid() && PrefixOk() && RowsOk() && CacheMatches() && Cancellable(cancelled)
      requires Once(multiset(reqs) + multiset(incoming)) && forall r :: r in incoming ==> r.Untouched()
      modifies this`reqs, this`produced, this`feed, this`finished, this`history, this`rngKeys, this`consumed, this`cache,
               cache, incoming, Pools(), Tiers()
      ensures PrefixOk() && RowsOk() && CacheMatches()
      ensures multiset(reqs) == multiset(old(reqs)) + multiset(incoming)
      ensures RowsWork(reqs, produced) <= old(RowsWork(reqs, produced)) + Budget(incoming)
      ensures cache == old(cache) || fresh(cache)
      ensures Joined(reqs, old(reqs), cancelled)
    {
      hide *;
      BlockSizePositive();
      var cold, warm := SplitPrefix(incoming);
      label split:
      PrefixMeans();
      AdmitSplit(cold, warm, incoming, cancelled);
      assert prefix != null ==> unchanged@split(prefix) && unchanged@split(prefix.pool);
      assert prefix != null && prefix.pool.spill != null ==> unchanged@split(prefix.pool.spill);
      PrefixMeans();
    }

    method AdmitSplit(cold: seq<Request>, warm: seq<Warm>, ghost incoming: seq<Request>, cancelled: set<Request>)
      requires m.Valid() && RowsOk() && CacheMatches() && Cancellable(cancelled) && (warm != [] ==> prefix != null && 0 < prefix.blockSize)
      requires Split(cold, warm, incoming) && Once(multiset(reqs) + multiset(incoming)) && forall r :: r in incoming ==> r.Untouched()
      requires forall i :: 0 <= i < |warm| ==> Matches(m, warm[i].req.prompt, warm[i].blocks, warm[i].tokens, prefix.blockSize)
      modifies this`reqs, this`produced, this`feed, this`finished, this`history, this`rngKeys, this`consumed, this`cache, cache, incoming
      ensures RowsOk() && CacheMatches() && multiset(reqs) == multiset(old(reqs)) + multiset(incoming)
      ensures RowsWork(reqs, produced) <= old(RowsWork(reqs, produced)) + Budget(incoming)
      ensures cache == old(cache) || fresh(cache)
      ensures Joined(reqs, old(reqs), cancelled)
    {
      hide *;
      SplitUntouched(cold, warm, incoming);
      SplitDistinct(reqs, cold, warm, incoming);
      SplitMeans(cold, warm, incoming, reqs);
      JoinedNone(reqs, cancelled);
      ghost var rows := reqs;
      if cold != [] {
        assert forall i :: 0 <= i < |cold| ==> cold[i] in incoming;
        AdmitCold(cold, cancelled);
      }
      forall i | 0 <= i < |warm|
        ensures warm[i].req.Untouched() && warm[i].req in incoming
      {
        assert unchanged(warm[i].req);
      }
      assert forall r :: r in WarmReqs(warm) ==> r in incoming;
      AdmitWarm(warm, cancelled, rows);
    }

    method AdmitCold(cold: seq<Request>, cancelled: set<Request>)
      requires m.Valid() && RowsOk() && CacheMatches() && Cancellable(cancelled)
      requires cold != [] && Distinct(reqs + cold) && forall r :: r in cold ==> r.Untouched()
      modifies this`reqs, this`produced, this`feed, this`finished, this`history, this`rngKeys, this`consumed, this`cache, cache, cold
      ensures RowsOk() && CacheMatches() && reqs == old(reqs) + cold
      ensures RowsWork(reqs, produced) <= old(RowsWork(reqs, produced)) + Budget(cold)
      ensures cache == old(cache) || fresh(cache)
      ensures Joined(reqs, old(reqs), cancelled)
    {
      hide RowState;
      hide RowsWork;
      hide Budget;
      var prompts := Prompts(cold);
      assert forall i :: 0 <= i < |cold| ==> cold[i] in cold;
      var c, last := PrefillCold(m, prompts, PREFILL_STEP_SIZE, 0);
      ReadyHolds(m, c, cold, last);
      hide Holding;
      hide Ready;
      JoinBatch(cold, c, last, cancelled);
    }

    method AdmitWarm(warm: seq<Warm>, cancelled: set<Request>, ghost rows: seq<Request>)
      requires m.Valid() && RowsOk() && CacheMatches() && Cancellable(cancelled)
      requires Joined(reqs, rows, cancelled)
      requires Distinct(reqs + WarmReqs(warm)) && (warm != [] ==> prefix != null && 0 < prefix.blockSize)
      requires forall i :: 0 <= i < |warm| ==>
                 warm[i].req.Untouched() && Matches(m, warm[i].req.prompt, warm[i].blocks, warm[i].tokens, prefix.blockSize)
      modifies this`reqs, this`produced, this`feed, this`finished, this`history, this`rngKeys, this`consumed, this`cache, cache, WarmReqs(warm)
      ensures RowsOk() && CacheMatches() && reqs == old(reqs) + WarmReqs(warm)
      ensures RowsWork(reqs, produced) <= old(RowsWork(reqs, produced)) + Budget(WarmReqs(warm))
      ensures cache == old(cache) || fresh(cache)
      ensures Joined(reqs, rows, cancelled)
    {
      hide *;
      NoneWarm(warm);
      RowsMean();
      assert reqs + WarmReqs(warm[..0]) == reqs;
      for i := 0 to |warm|
        invariant RowsOk() && CacheMatches() && reqs == old(reqs) + WarmReqs(warm[..i]) && Joined(reqs, rows, cancelled)
        invariant |reqs| == |produced|
        invariant forall k :: i <= k < |warm| ==> warm[k].req.Untouched()
        invariant RowsWork(reqs, produced) <= old(RowsWork(reqs, produced)) + Budget(WarmReqs(warm[..i]))
        invariant cache == old(cache) || fresh(cache)
      {
        WarmSnoc(warm, i);
        WarmApart(old(reqs), warm, i);
        label here:
        AdmitAfter(warm[i], cancelled, rows);
        assert forall k :: i < k < |warm| ==> unchanged@here(warm[k].req);
        RowsMean();
      }
      assert warm[..|warm|] == warm;
    }

    /** One more matched request, after what has joined already. */
    method AdmitAfter(w: Warm, cancelled: set<Request>, ghost rows: seq<Request>)
      requires m.Valid() && RowsOk() && CacheMatches() && Cancellable(cancelled) && Joined(reqs, rows, cancelled)
      requires Distinct(reqs + [w.req]) && prefix != null && 0 < prefix.blockSize && w.req.Untouched()
      requires Matches(m, w.req.prompt, w.blocks, w.tokens, prefix.blockSize)
      modifies this`reqs, this`produced, this`feed, this`finished, this`history, this`rngKeys, this`consumed, this`cache, cache, w.req
      ensures RowsOk() && CacheMatches() && reqs == old(reqs) + [w.req] && Joined(reqs, rows, cancelled)
      ensures RowsWork(reqs, produced) <= old(RowsWork(reqs, produced)) + w.req.maxTokens + 1
      ensures cache == old(cache) || fresh(cache)
    {
      hide *;
      ghost var mid, marks := reqs, Given(reqs);
      GivenMeans(reqs);
      DistinctParts(reqs, [w.req]);
      assert forall i :: 0 <= i < |mid| ==> mid[i] != [w.req][0];
      JoinedEntered(mid, rows, cancelled);
      AdmitOne(w, cancelled);
      assert forall i :: 0 <= i < |mid| ==> unchanged(mid[i]);
      GivenIs(mid, marks);
      EnteredJoined(mid, rows, cancelled);
      JoinedTwice(reqs, mid, rows, cancelled);
    }

    method AdmitOne(w: Warm, cancelled: set<Request>)
      requires m.Valid() && RowsOk() && CacheMatches() && Cancellable(cancelled)
      requires Distinct(reqs + [w.req]) && prefix != null && 0 < prefix.blockSize && w.req.Untouched()
      requires Matches(m, w.req.prompt, w.blocks, w.tokens, prefix.blockSize)
      modifies this`reqs, this`produced, this`feed, this`finished, this`history, this`rngKeys, this`consumed, this`cache, cache, w.req
      ensures RowsOk() && CacheMatches() && reqs == old(reqs) + [w.req]
      ensures RowsWork(reqs, produced) <= old(RowsWork(reqs, produced)) + w.req.maxTokens + 1
      ensures cache == old(cache) || fresh(cache)
      ensures Joined(reqs, old(reqs), cancelled)
    {
      hide RowState;
      hide RowsWork;
      var c, last := PrefillWithPrefix(m, w.req.prompt, w.blocks, w.tokens, PREFILL_STEP_SIZE, prefix.blockSize);
      assert Prompts([w.req]) == [w.req.prompt];
      ReadyHolds(m, c, [w.req], last);
      hide Holding;
      hide Ready;
      hide Matches;
      OneRequest(w.req);
      JoinBatch([w.req], c, last, cancelled);
    }

    /** The second half of an iteration of run: rows that finished on their first token leave, the
        others each get one token, and rows that finish leave. */
    method DecodeRound(cancelled: set<Request>) returns (ghost gone: seq<Request>)
      requires RowsOk() && CacheMatches() && PrefixOk() && m.Valid() && Cancellable(cancelled)
      modifies this`reqs, this`produced, this`feed, this`finished, this`history, this`rngKeys, this`consumed, this`cache,
               cache, reqs, Pools(), Tiers()
      ensures Between() && (cache == old(cache) || cache == null)
      ensures multiset(reqs) + multiset(gone) == multiset(old(reqs)) && Served(m, s, gone)
      ensures Work() <= old(Work()) && (old(reqs) != [] ==> Work() < old(Work()))
      ensures Progressed(old(reqs), old(Given(reqs)), cancelled, gone)
    {
      hide *;
      ghost var all, before := reqs, Given(reqs);
      ghost var gone1, at1 := EvictMarked();
      ghost var kept, mid := reqs, Given(reqs);
      GivenMeans(reqs);
      label evicted:
      ghost var gone2 := [];
      if reqs == [] {
        NothingLeft(m, s, cancelled);
      } else {
        gone2 := DecodeAndEvict(cancelled);
        ThinnedApart(all, before, kept, mid, gone1, at1);
        assert forall i :: 0 <= i < |gone1| ==> unchanged@evicted(gone1[i]);
      }
      ServedBoth(m, s, gone1, gone2);
      GivenIs(gone1, at1);
      ProgressedAll(all, before, kept, mid, cancelled, gone1, at1, gone2);
      gone := gone1 + gone2;
    }

    /** evict_finished, with what every row had received. */
    method EvictMarked() returns (ghost gone: seq<Request>, ghost at: seq<Mark>)
      requires RowsOk() && CacheMatches() && PrefixOk() && m.Valid()
      modifies this`reqs, this`produced, this`feed, this`finished, this`history, this`rngKeys, this`consumed, this`cache,
               cache, reqs`closed, Pools(), Tiers()
      ensures Between() && (cache == old(cache) || cache == null) && Served(m, s, gone)
      ensures multiset(reqs) + multiset(gone) == multiset(old(reqs))
      ensures Work() <= old(Work()) && (old(reqs) != [] && reqs == [] ==> Work() < old(Work()))
      ensures forall i :: 0 <= i < |reqs| ==> reqs[i] in old(reqs)
      ensures Thinned(old(reqs), old(Given(reqs)), reqs, Given(reqs), gone, at)
      ensures |at| == |gone| && forall i :: 0 <= i < |gone| ==> at[i] == Mark(gone[i].tokens, gone[i].logprobs, gone[i].reason)
    {
      hide *;
      ghost var all, before := reqs, Given(reqs);
      ReasonsMean();
      GivenMeans(reqs);
      RowsMean();
      ghost var done := finished;
      gone := EvictFinished();
      at := Given(gone);
      GivenAgree(reqs, all);
      GivenAgree(gone, all);
      GivenMeans(gone);
      ThinnedIs(all, before, done, reqs, Given(reqs), gone, at);
      SomeFinished(done, all, reqs, gone);
      WorkMeans();
    }

    /** One decode step over a batch with no finished rows, and the evictions it causes. */
    method DecodeAndEvict(cancelled: set<Request>) returns (ghost gone: seq<Request>)
      requires Between() && m.Valid() && Cancellable(cancelled) && reqs != []
      modifies this`reqs, this`produced, this`feed, this`finished, this`history, this`rngKeys, this`consumed, this`cache,
               cache, reqs, Pools(), Tiers()
      ensures Between() && (cache == old(cache) || cache == null)
      ensures multiset(reqs) + multiset(gone) == multiset(old(reqs)) && Served(m, s, gone)
      ensures Work() < old(Work())
      ensures Progressed(old(reqs), old(Given(reqs)), cancelled, gone)
    {
      hide *;
      ghost var all, before := reqs, Given(reqs);
      BetweenMeans();
      RunningMean();
      DecodeCounted(cancelled);
      ghost var done, after := finished, Given(reqs);
      gone := EvictFinished();
      ProgressedOne(all, before, after, done, cancelled, gone);
    }

    /** A row is finished exactly when its request says why. */
    lemma ReasonsMean()
      requires RowsOk()
      ensures |finished| == |reqs| && forall b :: 0 <= b < |reqs| ==> (finished[b] <==> reqs[b].reason != Running)
    {
      forall b | 0 <= b < |reqs|
        ensures finished[b] <==> reqs[b].reason != Running
      {
        assert RowState(m, s, reqs[b], Row(b));
        hide Live;
      }
    }

    lemma RunningMean()
      requires RowsOk() && NoneFinished()
      ensures |Given(reqs)| == |reqs| && forall i :: 0 <= i < |reqs| ==> Given(reqs)[i].reason == Running
    {
      hide RowsOk;
      ReasonsMean();
    }

    /** decode_step, row by row. */
    method DecodeMarked(cancelled: set<Request>)
      requires RowsOk() && NoneFinished() && 0 < |reqs| && m.Valid() && cache != null && Holding(m, cache, consumed) && Cancellable(cancelled)
      modifies this`produced, this`feed, this`finished, this`history, this`rngKeys, this`consumed, cache, reqs
      ensures RowsOk() && cache != null && Holding(m, cache, consumed) && |produced| == |old(produced)|
      ensures forall b :: 0 <= b < |produced| ==> old(produced[b]) <= produced[b]
      ensures |finished| == |produced| && forall b :: 0 <= b < |produced| && !finished[b] ==> produced[b] == old(produced[b]) + 1
      ensures Stepped(reqs, old(Given(reqs)), Given(reqs), finished, cancelled)
    {
      hide *;
      RowsMean();
      GivenMeans(reqs);
      ghost var before := Given(reqs);
      DecodeStep(cancelled);
      RowsMean();
      GivenMeans(reqs);
      SteppedIs(reqs, before, Given(reqs), finished, cancelled);
    }

    /** decode_step, counted. */
    method DecodeCounted(cancelled: set<Request>)
      requires Between() && m.Valid() && Cancellable(cancelled) && reqs != []
      modifies this`produced, this`feed, this`finished, this`history, this`rngKeys, this`consumed, cache, reqs
      ensures RowsOk() && CacheMatches() && PrefixOk()
      ensures Work() <= old(Work()) && (NoneFinished() ==> Work() < old(Work()))
      ensures Stepped(reqs, old(Given(reqs)), Given(reqs), finished, cancelled)
    {
      hide *;
      BetweenMeans();
      Budgeted();
      RowsMean();
      CacheMeans();
      GivenMeans(reqs);
      PrefixMeans();
      ghost var counts := produced;
      DecodeMarked(cancelled);
      RowsMean();
      WorkMeans();
      CacheMeans();
      DecodedWork(reqs, counts, produced, finished);
      PrefixStays();
    }

    // ---------------------------------------------------------------- run

    /** What one iteration of run takes from the queue: when idle it blocks for a first request, with
        prefills in flight it takes nothing. `exit`: idle, stopping and drained. */
    method TakeIncoming() returns (incoming: seq<Request>, exit: bool)
      requires reqs == [] && pending == [] ==> sched.waiting != [] || sched.stopping
      modifies sched`waiting
      ensures old(sched.waiting) == incoming + sched.waiting
      ensures exit <==> reqs == [] && pending == [] && old(sched.waiting) == []
      ensures !exit ==> reqs != [] || pending != [] || incoming != []
      ensures |incoming| == if pending != [] then 0 else if |old(sched.waiting)| < 8 then |old(sched.waiting)| else 8
    {
      incoming, exit := [], false;
      if reqs == [] && pending == [] {
        var first := sched.NextWaiting();
        if first == null {
          return [], true;
        }
        var more := sched.TakeWaiting(PREFILL_BATCH_SIZE - 1);
        incoming := [first] + more;
      } else if pending == [] {
        incoming := sched.TakeWaiting(PREFILL_BATCH_SIZE);
      }
    }

    /** The admission half of an iteration, once requests have been taken. */
    method TakeIn(incoming: seq<Request>, joins: set<Request>)
      requires Between() && m.Valid() && Cancellable(joins) && pending == [] && incoming != []
      requires Once(multiset(reqs) + multiset(incoming)) && forall r :: r in incoming ==> r.Untouched()
      modifies this`reqs, this`produced, this`feed, this`finished, this`history, this`rngKeys, this`consumed, this`cache, this`pending,
               cache, incoming, Pools(), Tiers()
      ensures RowsOk() && CacheMatches() && PrefixOk() && UnitsOk(m, pending) && CacheApart() && (pending != [] ==> 0 < chunk)
      ensures multiset(reqs) + multiset(Flat(pending)) == multiset(old(reqs)) + multiset(incoming)
      ensures Work() + PrefillWork(pending) < old(Work()) + WaitingWork(incoming)
      ensures (cache == old(cache) || fresh(cache)) && forall i :: 0 <= i < |pending| ==> fresh(pending[i].cache)
      ensures forall r :: r in old(reqs) ==> r in reqs
      ensures Joined(reqs, old(reqs), joins)
    {
      hide *;
      BetweenMeans();
      RowsMean();
      NoUnits();
      JoinedNone(reqs, joins);
      if 0 < chunk {
        EnqueueOnly(incoming);
      } else {
        Admit(incoming, joins);
        NoUnits();
        AdmittedWork(incoming, old(reqs), reqs);
        RowsMean();
      }
    }

    lemma NoUnits()
      ensures pending == [] ==> UnitsOk(m, pending) && CacheApart() && Flat(pending) == [] && PrefillWork(pending) == 0 && Caches(pending) == {}
    {
    }

    lemma RowsMean()
      requires RowsOk()
      ensures |reqs| == |produced| == |finished| == |consumed| && Distinct(reqs) && Work() == RowsWork(reqs, produced)
    {
    }

    lemma Budgeted()
      requires RowsOk() && NoneFinished()
      ensures forall b :: 0 <= b < |reqs| ==> produced[b] < reqs[b].maxTokens
    {
      forall b | 0 <= b < |reqs|
        ensures produced[b] < reqs[b].maxTokens
      {
        RunningRow(m, s, reqs[b], Row(b));
      }
    }

    lemma CacheMeans()
      ensures reqs != [] ==> (CacheMatches() <==> cache != null && Holding(m, cache, consumed))
    {
    }

    lemma BlockSizePositive()
      requires PrefixOk()
      ensures prefix != null ==> 0 < prefix.blockSize
    {
    }

    lemma PrefixMeans()
      ensures PrefixOk() <==> prefix == null || (prefix.Valid() && PrefixNames())
    {
    }

    lemma UnitCaches()
      ensures forall i :: 0 <= i < |pending| ==> pending[i].cache in Caches(pending)
      ensures forall c :: c in Caches(pending) ==> exists i :: 0 <= i < |pending| && pending[i].cache == c
      ensures CacheApart() <==> forall i :: 0 <= i < |pending| ==> pending[i].cache != cache
    {
    }

    lemma BetweenMeans()
      requires Between()
      ensures RowsOk() && CacheMatches() && PrefixOk() && NoneFinished() && Aligned() && Distinct(reqs)
    {
    }

    /** Queueing prefills leaves the batch alone. */
    method EnqueueOnly(incoming: seq<Request>)
      requires RowsOk() && CacheMatches() && PrefixOk() && m.Valid() && pending == [] && incoming != []
      requires forall r :: r in incoming ==> r.Untouched()
      modifies this`pending, Pools(), Tiers()
      ensures RowsOk() && CacheMatches() && PrefixOk() && UnitsOk(m, pending) && CacheApart()
      ensures multiset(Flat(pending)) == multiset(incoming) && PrefillWork(pending) < WaitingWork(incoming)
      ensures forall i :: 0 <= i < |pending| ==> fresh(pending[i].cache)
    {
      hide *;
      NoUnits();
      ghost var cold, warm := EnqueueAdmissions(incoming);
      UnitCaches();
    }

    /** What a chunk of prefill keeps. */
    method Advance(joins: set<Request>)
      requires RowsOk() && CacheMatches() && PrefixOk() && UnitsOk(m, pending) && CacheApart() && m.Valid() && Cancellable(joins)
      requires pending != [] && 0 < chunk && Once(multiset(reqs) + multiset(Flat(pending)))
      modifies this`reqs, this`produced, this`feed, this`finished, this`history, this`rngKeys, this`consumed, this`cache, this`pending,
               cache, pending[0].cache, pending[0].reqs
      ensures RowsOk() && CacheMatches() && PrefixOk() && UnitsOk(m, pending) && CacheApart()
      ensures multiset(reqs) + multiset(Flat(pending)) == old(multiset(reqs) + multiset(Flat(pending)))
      ensures Work() + PrefillWork(pending) < old(Work() + PrefillWork(pending))
      ensures cache == old(cache) || cache in old(Caches(pending))
      ensures Caches(pending) <= old(Caches(pending))
      ensures forall r :: r in old(reqs) ==> r in reqs
      ensures Joined(reqs, old(reqs), joins)
    {
      hide *;
      RowsMean();
      UnitCaches();
      OnceDistinct(reqs + Flat(pending), multiset(reqs) + multiset(Flat(pending)));
      ghost var was := reqs + Flat(pending);
      AdvanceChunkedPrefill(joins);
      assert multiset(reqs + Flat(pending)) == multiset(was);
      RowsMean();
      PrefixStays();
    }

    /** A chunk of prefill, after what has joined already. */
    method AdvanceAfter(ghost rows: seq<Request>, joins: set<Request>)
      requires RowsOk() && CacheMatches() && PrefixOk() && UnitsOk(m, pending) && CacheApart() && m.Valid() && Cancellable(joins)
      requires pending != [] && 0 < chunk && Once(multiset(reqs) + multiset(Flat(pending))) && Joined(reqs, rows, joins)
      modifies this`reqs, this`produced, this`feed, this`finished, this`history, this`rngKeys, this`consumed, this`cache, this`pending,
               cache, pending[0].cache, pending[0].reqs
      ensures RowsOk() && CacheMatches() && PrefixOk() && UnitsOk(m, pending) && CacheApart()
      ensures multiset(reqs) + multiset(Flat(pending)) == old(multiset(reqs) + multiset(Flat(pending)))
      ensures Work() + PrefillWork(pending) < old(Work() + PrefillWork(pending))
      ensures cache == old(cache) || cache in old(Caches(pending))
      ensures Caches(pending) <= old(Caches(pending))
      ensures forall r :: r in old(reqs) ==> r in reqs
      ensures Joined(reqs, rows, joins)
    {
      hide *;
      ghost var mid, marks := reqs, Given(reqs);
      GivenMeans(reqs);
      UnitRequests();
      OnceDistinct(reqs + Flat(pending), multiset(reqs) + multiset(Flat(pending)));
      Apart(reqs, pending);
      JoinedEntered(mid, rows, joins);
      Advance(joins);
      assert forall i :: 0 <= i < |mid| ==> unchanged(mid[i]);
      GivenIs(mid, marks);
      EnteredJoined(mid, rows, joins);
      JoinedTwice(reqs, mid, rows, joins);
    }

    twostate lemma PrefixStays()
      requires old(PrefixOk()) && (prefix != null ==> unchanged(prefix) && unchanged(prefix.pool))
      requires prefix != null && prefix.pool.spill != null ==> unchanged(prefix.pool.spill)
      ensures PrefixOk()
    {
    }

    /** The first half of an iteration: admit what was taken, then advance the front prefill. */
    method FirstHalf(incoming: seq<Request>, joins: set<Request>)
      requires Between() && UnitsOk(m, pending) && CacheApart() && m.Valid() && Cancellable(joins)
      requires pending != [] ==> incoming == [] && 0 < chunk
      requires Once(multiset(reqs) + multiset(Flat(pending)) + multiset(incoming)) && forall r :: r in incoming ==> r.Untouched()
      modifies this`reqs, this`produced, this`feed, this`finished, this`history, this`rngKeys, this`consumed, this`cache, this`pending,
               cache, Caches(pending), Queued(pending), incoming, Pools(), Tiers()
      ensures RowsOk() && CacheMatches() && PrefixOk() && UnitsOk(m, pending) && CacheApart() && (pending != [] ==> 0 < chunk)
      ensures multiset(reqs) + multiset(Flat(pending)) == old(multiset(reqs) + multiset(Flat(pending))) + multiset(incoming)
      ensures Work() + PrefillWork(pending) <= old(Work() + PrefillWork(pending)) + WaitingWork(incoming)
      ensures incoming != [] || old(pending) != [] ==>
                Work() + PrefillWork(pending) < old(Work() + PrefillWork(pending)) + WaitingWork(incoming)
      ensures cache == old(cache) || cache in old(Caches(pending)) || fresh(cache)
      ensures forall c :: c in Caches(pending) ==> c in old(Caches(pending)) || fresh(c)
      ensures (forall r :: r in old(reqs) ==> r in reqs) && Given(old(reqs)) == old(Given(reqs))
      ensures Joined(reqs, old(reqs), joins)
    {
      hide *;
      ghost var rows, before := reqs, Given(reqs);
      GivenMeans(reqs);
      QueueSplits(reqs, Flat(pending), incoming, incoming, []);
      BetweenMeans();
      NoUnits();
      UnitCaches();
      QueuedFlat(pending);
      OnceParts(multiset(reqs), multiset(Flat(pending)), multiset(incoming));
      JoinedNone(reqs, joins);
      if incoming != [] {
        TakeIn(incoming, joins);
        UnitCaches();
        QueuedFlat(pending);
        TakenUnits(pending, reqs, old(reqs), incoming);
      }
      if pending != [] {
        AdvanceAfter(rows, joins);
      }
      assert forall i :: 0 <= i < |rows| ==> rows[i] in rows && unchanged(rows[i]);
      GivenIs(rows, before);
    }

    /** Every request the worker has in hand. */
    ghost function Held(): multiset<Request>
      reads this`reqs, this`pending, sched`waiting
    {
      multiset(reqs) + multiset(Flat(pending)) + multiset(sched.waiting)
    }

    ghost function WorkLeft(): nat
      reads this`reqs, this`produced, this`pending, sched`waiting
    {
      Work() + PrefillWork(pending) + WaitingWork(sched.waiting)
    }

    /** What holds between iterations of run. */
    ghost predicate Inv()
      reads this, cache, Caches(pending), Queued(pending), reqs, sched`waiting, sched.waiting, if prefix == null then {} else {prefix}, Pools(), Tiers()
    {
      && m.Valid() && Between() && UnitsOk(m, pending) && CacheApart() && (pending != [] ==> 0 < chunk)
      && Once(Held()) && forall i :: 0 <= i < |sched.waiting| ==> sched.waiting[i].Untouched()
    }

    /** The second half of an iteration leaves the queued prefills alone. */
    method SecondHalf(steps: set<Request>) returns (ghost gone: seq<Request>)
      requires RowsOk() && CacheMatches() && PrefixOk() && UnitsOk(m, pending) && CacheApart() && m.Valid() && Cancellable(steps)
      requires Once(multiset(reqs) + multiset(Flat(pending)))
      modifies this`reqs, this`produced, this`feed, this`finished, this`history, this`rngKeys, this`consumed, this`cache,
               cache, reqs, Pools(), Tiers()
      ensures Between() && UnitsOk(m, pending) && CacheApart() && (cache == old(cache) || cache == null)
      ensures multiset(reqs) + multiset(gone) == multiset(old(reqs)) && Served(m, s, gone)
      ensures Work() <= old(Work()) && (old(reqs) != [] ==> Work() < old(Work()))
      ensures Progressed(old(reqs), old(Given(reqs)), steps, gone)
    {
      hide *;
      UnitCaches();
      UnitRequests();
      OnceDistinct(reqs + Flat(pending), multiset(reqs) + multiset(Flat(pending)));
      Apart(reqs, pending);
      UnitsMean(m, pending);
      gone := DecodeRound(steps);
      forall i | 0 <= i < |pending|
        ensures UnitOk(m, pending[i])
      {
        assert old(UnitOk(m, pending[i]));
        assert unchanged(pending[i].cache) && unchanged(pending[i].reqs);
      }
      UnitsAre(m, pending);
      UnitCaches();
    }

    lemma UnitRequests()
      ensures forall i, k :: 0 <= i < |pending| && 0 <= k < |pending[i].reqs| ==> pending[i].reqs[k] in Queued(pending)
    {
    }

    lemma InvMeans()
      requires Inv()
      ensures m.Valid() && Between() && UnitsOk(m, pending) && CacheApart() && (pending != [] ==> 0 < chunk)
      ensures Once(multiset(reqs) + multiset(Flat(pending)) + multiset(sched.waiting))
      ensures forall i :: 0 <= i < |sched.waiting| ==> sched.waiting[i].Untouched()
    {
    }

    lemma InvIs()
      requires m.Valid() && Between() && UnitsOk(m, pending) && CacheApart() && (pending != [] ==> 0 < chunk)
      requires Once(multiset(reqs) + multiset(Flat(pending)) + multiset(sched.waiting))
      requires forall i :: 0 <= i < |sched.waiting| ==> sched.waiting[i].Untouched()
      ensures Inv()
    {
    }

    lemma Totals()
      ensures Held() == multiset(reqs) + multiset(Flat(pending)) + multiset(sched.waiting)
      ensures WorkLeft() == Work() + PrefillWork(pending) + WaitingWork(sched.waiting)
    {
    }

    /** Taking from the queue leaves the batch as it is. */
    method TakeBetween() returns (incoming: seq<Request>, exit: bool)
      requires Between() && (reqs == [] && pending == [] ==> sched.waiting != [] || sched.stopping)
      modifies sched`waiting
      ensures Between() && old(sched.waiting) == incoming + sched.waiting
      ensures exit <==> reqs == [] && pending == [] && old(sched.waiting) == []
      ensures !exit ==> reqs != [] || pending != [] || incoming != []
      ensures pending != [] ==> incoming == []
    {
      hide RowsOk;
      hide CacheMatches;
      incoming, exit := TakeIncoming();
    }

    /** Taking from the queue leaves everything else as it is. */
    method TakeWork() returns (incoming: seq<Request>, exit: bool)
      requires Inv() && (reqs == [] && pending == [] ==> sched.waiting != [] || sched.stopping)
      modifies sched`waiting
      ensures Between() && UnitsOk(m, pending) && (forall i :: 0 <= i < |incoming| ==> incoming[i].Untouched())
      ensures old(sched.waiting) == incoming + sched.waiting && forall i :: 0 <= i < |sched.waiting| ==> sched.waiting[i].Untouched()
      ensures exit <==> reqs == [] && pending == [] && old(sched.waiting) == []
      ensures pending != [] ==> incoming == []
      ensures !exit ==> reqs != [] || pending != [] || incoming != []
    {
      hide *;
      InvMeans();
      UnitsMean(m, pending);
      incoming, exit := TakeBetween();
      assert forall i :: 0 <= i < |incoming| ==> incoming[i] == old(sched.waiting)[i];
      assert forall i :: 0 <= i < |sched.waiting| ==> sched.waiting[i] == old(sched.waiting)[|incoming| + i];
      forall i | 0 <= i < |pending|
        ensures UnitOk(m, pending[i])
      {
        assert unchanged(pending[i].cache) && unchanged(pending[i].reqs);
      }
      UnitsAre(m, pending);
    }

    /** Both halves of an iteration over the requests it took. */
    method Serve(incoming: seq<Request>, joins: set<Request>, steps: set<Request>) returns (ghost gone: seq<Request>)
      requires Between() && UnitsOk(m, pending) && CacheApart() && m.Valid() && Cancellable(joins) && Cancellable(steps)
      requires pending != [] ==> incoming == [] && 0 < chunk
      requires incoming != [] || pending != [] || reqs != []
      requires Once(multiset(reqs) + multiset(Flat(pending)) + multiset(incoming)) && forall i :: 0 <= i < |incoming| ==> incoming[i].Untouched()
      modifies this`reqs, this`produced, this`feed, this`finished, this`history, this`rngKeys, this`consumed, this`cache, this`pending,
               cache, Caches(pending), reqs, Queued(pending), incoming, Pools(), Tiers()
      ensures Between() && UnitsOk(m, pending) && CacheApart() && (pending != [] ==> 0 < chunk)
      ensures multiset(reqs) + multiset(Flat(pending)) + multiset(gone) == old(multiset(reqs) + multiset(Flat(pending))) + multiset(incoming)
      ensures Served(m, s, gone) && Progressed(old(reqs), old(Given(reqs)), steps, gone)
      ensures AllArrived(reqs + gone, old(reqs), joins, steps, gone)
      ensures Work() + PrefillWork(pending) < old(Work() + PrefillWork(pending)) + WaitingWork(incoming)
      ensures cache == old(cache) || cache in old(Caches(pending)) || cache == null || fresh(cache)
      ensures forall c :: c in Caches(pending) ==> c in old(Caches(pending)) || fresh(c)
    {
      hide *;
      QueuedFlat(pending);
      ghost var rows, before, flat := reqs, Given(reqs), Flat(pending);
      FirstHalf(incoming, joins);
      ghost var batch, mid := reqs, Given(reqs);
      GivenAgree(rows, batch);
      BatchApart(rows, flat, incoming, batch, Flat(pending), []);
      assert forall i :: 0 <= i < |batch| ==> batch[i] in batch;
      assert rows != [] ==> rows[0] in rows && batch != [];
      ghost var total := multiset(rows) + multiset(flat) + multiset(incoming);
      JoinedEntered(batch, rows, joins);
      gone := SecondHalf(steps);
      MovedOn(reqs, gone, batch, Flat(pending), total);
      ProgressedSub(rows, before, batch, mid, steps, gone);
      ArrivedAll(batch, mid, rows, joins, steps, gone);
      ArrivedParts(reqs, gone, batch, rows, joins, steps);
    }

    /** An iteration over what it took from `queue`. */
    method ServeTaken(incoming: seq<Request>, ghost queue: seq<Request>, joins: set<Request>, steps: set<Request>) returns (ghost gone: seq<Request>)
      requires Between() && UnitsOk(m, pending) && CacheApart() && m.Valid() && Cancellable(joins) && Cancellable(steps)
      requires (pending != [] ==> incoming == [] && 0 < chunk) && (incoming != [] || pending != [] || reqs != [])
      requires queue == incoming + sched.waiting && Once(multiset(reqs) + multiset(Flat(pending)) + multiset(queue))
      requires forall i :: 0 <= i < |incoming| ==> incoming[i].Untouched()
      requires forall i :: 0 <= i < |sched.waiting| ==> sched.waiting[i].Untouched()
      modifies this`reqs, this`produced, this`feed, this`finished, this`history, this`rngKeys, this`consumed, this`cache, this`pending,
               cache, Caches(pending), reqs, Queued(pending), incoming, Pools(), Tiers()
      ensures Inv()
      ensures Held() + multiset(gone) == old(multiset(reqs) + multiset(Flat(pending))) + multiset(queue)
      ensures WorkLeft() < old(Work() + PrefillWork(pending)) + WaitingWork(queue)
      ensures Served(m, s, gone) && Progressed(old(reqs), old(Given(reqs)), steps, gone)
      ensures AllArrived(reqs + gone, old(reqs), joins, steps, gone)
      ensures cache == old(cache) || cache in old(Caches(pending)) || cache == null || fresh(cache)
      ensures forall c :: c in Caches(pending) ==> c in old(Caches(pending)) || fresh(c)
    {
      hide *;
      QueuedFlat(pending);
      ghost var rows, flat, later := reqs, Flat(pending), sched.waiting;
      QueueSplits(rows, flat, queue, incoming, later);
      gone := Serve(incoming, joins, steps);
      forall i | 0 <= i < |later|
        ensures later[i].Untouched()
      {
        assert later[i] in later;
        assert unchanged(later[i]);
      }
      LedgerStep(rows, flat, queue, incoming, later, reqs, Flat(pending), gone);
      Totals();
      InvIs();
    }

    /** Nothing in hand. */
    lemma Idle(before: seq<Mark>, joins: set<Request>, steps: set<Request>)
      requires m.Valid() && Between() && reqs == [] && pending == [] && sched.waiting == [] && |before| == 0
      ensures Inv() && Held() == multiset{} && Held() + multiset([]) == Held() && Served(m, s, [])
      ensures Progressed([], before, steps, []) && AllArrived([] + [], [], joins, steps, [])
      ensures Caches(pending) == {}
    {
      hide *;
      NoUnits();
      NothingLeft(m, s, steps);
      NothingHeld(reqs, Flat(pending), sched.waiting);
      NoneArrived(joins, steps);
      Totals();
      assert Once(multiset{}) by {
        OnceNone();
      }
      InvIs();
    }

    /** One iteration of run, row by row. */
    method IterateRows(joins: set<Request>, steps: set<Request>) returns (running: bool, ghost gone: seq<Request>)
      requires Inv() && Cancellable(joins) && Cancellable(steps)
      requires reqs == [] && pending == [] ==> sched.waiting != [] || sched.stopping
      modifies this`reqs, this`produced, this`feed, this`finished, this`history, this`rngKeys, this`consumed, this`cache, this`pending,
               sched`waiting, cache, Caches(pending), reqs, Queued(pending), sched.waiting, Pools(), Tiers()
      ensures Inv()
      ensures Held() + multiset(gone) == old(Held()) && Served(m, s, gone)
      ensures running ==> WorkLeft() < old(WorkLeft())
      ensures !running ==> old(Held()) == multiset{} && gone == []
      ensures Progressed(old(reqs), old(Given(reqs)), steps, gone)
      ensures AllArrived(reqs + gone, old(reqs), joins, steps, gone)
      ensures cache == old(cache) || cache in old(Caches(pending)) || cache == null || fresh(cache)
      ensures forall c :: c in Caches(pending) ==> c in old(Caches(pending)) || fresh(c)
    {
      hide *;
      InvMeans();
      Totals();
      ghost var queue := sched.waiting;
      GivenMeans(reqs);
      ghost var rows, before, work := reqs, Given(reqs), Work() + PrefillWork(pending);
      var incoming, exit := TakeWork();
      assert Work() + PrefillWork(pending) == work;
      running, gone := !exit, [];
      if exit {
        Idle(before, joins, steps);
      } else {
        assert forall i :: 0 <= i < |incoming| ==> incoming[i] == queue[i];
        assert forall i :: 0 <= i < |rows| ==> unchanged(rows[i]);
        GivenIs(rows, before);
        gone := ServeTaken(incoming, queue, joins, steps);
      }
    }

    /** One iteration of run. Requests only move on, none is lost or served twice, every row that was
        in the batch is served or gets exactly one token, and there is less work left. A row of the batch that the decode
        step sees cancelled is served there and then, with nothing more, and no other row of the batch as cancelled; a row
        that joins is cancelled only if it is seen cancelled at its first token, of which it then gets nothing, or in the
        decode step. */
    method Iterate(joins: set<Request>, steps: set<Request>) returns (running: bool, ghost gone: seq<Request>)
      requires Inv() && Cancellable(joins) && Cancellable(steps)
      requires reqs == [] && pending == [] ==> sched.waiting != [] || sched.stopping
      modifies this`reqs, this`produced, this`feed, this`finished, this`history, this`rngKeys, this`consumed, this`cache, this`pending,
               sched`waiting, cache, Caches(pending), reqs, Queued(pending), sched.waiting, Pools(), Tiers()
      ensures Inv()
      ensures Held() + multiset(gone) == old(Held()) && Served(m, s, gone)
      ensures running ==> WorkLeft() < old(WorkLeft())
      ensures !running ==> old(Held()) == multiset{} && gone == []
      ensures Progressed(old(reqs), old(Given(reqs)), steps, gone)
      ensures AllArrived(reqs + gone, old(reqs), joins, steps, gone)
      ensures forall r :: r in old(reqs) && r in steps ==>
                r in gone && r.reason == Cancel && r.tokens == old(r.tokens) && r.logprobs == old(r.logprobs)
      ensures forall r :: r in old(reqs) && r in gone && r.reason == Cancel ==> r in steps
      ensures forall r :: r in gone && r.reason == Cancel ==> r in joins || r in steps
      ensures cache == old(cache) || cache in old(Caches(pending)) || cache == null || fresh(cache)
      ensures forall c :: c in Caches(pending) ==> c in old(Caches(pending)) || fresh(c)
    {
      hide *;
      InvMeans();
      RowsRunning();
      GivenMeans(reqs);
      ghost var rows, before := reqs, Given(reqs);
      running, gone := IterateRows(joins, steps);
      ProgressedMeans(rows, before, steps, gone);
      forall r | r in rows
        ensures r in steps ==> r in gone && r.reason == Cancel && r.tokens == old(r.tokens) && r.logprobs == old(r.logprobs)
        ensures r.reason == Cancel ==> r in steps
      {
        var i :| 0 <= i < |rows| && rows[i] == r;
        assert before[i] == old(MarkOf(rows[i]));
      }
      ArrivedMean(reqs, gone, rows, joins, steps);
    }

    /** Between iterations every row is running. */
    lemma RowsRunning()
      requires Between()
      ensures |Given(reqs)| == |reqs| && forall i :: 0 <= i < |reqs| ==> Given(reqs)[i].reason == Running
    {
      hide *;
      BetweenMeans();
      RunningMean();
    }

    /** The books of a run: every accepted request is in hand or served, exactly once; `rest` has yet to arrive. */
    ghost predicate Books(accepted: seq<Request>, done: seq<Request>, rest: seq<Request>)
      reads this`reqs, this`pending, sched`waiting, done, rest
    {
      && multiset(accepted) == Held() + multiset(done) && Once(multiset(accepted) + multiset(rest))
      && Served(m, s, done) && forall i :: 0 <= i < |rest| ==> rest[i].Untouched()
    }

    /** The worker would block waiting for a request. */
    predicate Blocked()
      reads this`reqs, this`pending, sched
    {
      reqs == [] && pending == [] && sched.waiting == [] && !sched.stopping
    }

    /** Submitters' requests reach the queue; a full queue turns them away. */
    method SubmitAll(arrivals: seq<Request>, ghost accepted: seq<Request>, ghost done: seq<Request>, ghost rest: seq<Request>)
      returns (ghost taken: seq<Request>)
      requires Inv() && Books(accepted, done, arrivals + rest)
      modifies sched`waiting
      ensures Inv() && Books(accepted + taken, done, rest)
      ensures multiset(taken) <= multiset(arrivals) && (sched.maxWaiting == 0 ==> taken == arrivals)
      ensures sched.waiting == old(sched.waiting) + taken
    {
      hide *;
      InvMeans();
      BooksMean(accepted, done, arrivals + rest);
      Totals();
      ghost var queue := sched.waiting;
      taken := Offer(arrivals);
      Offered(reqs, Flat(pending), queue, accepted, done, arrivals, rest, taken);
      Totals();
      forall i | 0 <= i < |sched.waiting|
        ensures sched.waiting[i].Untouched()
      {
        if |queue| <= i {
          assert taken[i - |queue|] in taken;
        }
      }
      assert forall i :: 0 <= i < |rest| ==> (arrivals + rest)[|arrivals| + i] == rest[i];
      InvIs();
      BooksAre(accepted + taken, done, rest);
    }

    method Offer(arrivals: seq<Request>) returns (ghost taken: seq<Request>)
      requires Between() && UnitsOk(m, pending)
      modifies sched`waiting
      ensures Between() && UnitsOk(m, pending)
      ensures multiset(taken) <= multiset(arrivals) && (sched.maxWaiting == 0 ==> taken == arrivals)
      ensures sched.waiting == old(sched.waiting) + taken
    {
      taken := OfferAll(arrivals);
    }

    method OfferAll(arrivals: seq<Request>) returns (ghost taken: seq<Request>)
      modifies sched`waiting
      ensures multiset(taken) <= multiset(arrivals) && (sched.maxWaiting == 0 ==> taken == arrivals)
      ensures sched.waiting == old(sched.waiting) + taken
    {
      hide *;
      taken := [];
      OfferedNone(arrivals, sched.maxWaiting);
      for i := 0 to |arrivals|
        invariant TakenFrom(arrivals[..i], taken, sched.maxWaiting) && sched.waiting == old(sched.waiting) + taken
      {
        var ok := sched.Submit(arrivals[i]);
        OfferedNext(arrivals, i, taken, sched.maxWaiting, ok);
        if ok {
          taken := taken + [arrivals[i]];
        }
      }
      OfferedWhole(arrivals, taken, sched.maxWaiting);
    }

    lemma BooksMean(accepted: seq<Request>, done: seq<Request>, rest: seq<Request>)
      requires Books(accepted, done, rest)
      ensures multiset(accepted) == Held() + multiset(done) && Once(multiset(accepted) + multiset(rest))
      ensures Served(m, s, done) && forall i :: 0 <= i < |rest| ==> rest[i].Untouched()
    {
    }

    lemma BooksAre(accepted: seq<Request>, done: seq<Request>, rest: seq<Request>)
      requires multiset(accepted) == Held() + multiset(done) && Once(multiset(accepted) + multiset(rest))
      requires Served(m, s, done) && forall i :: 0 <= i < |rest| ==> rest[i].Untouched()
      ensures Books(accepted, done, rest)
    {
    }

    /** One iteration, in the books. */
    method Turn(joins: set<Request>, steps: set<Request>, ghost accepted: seq<Request>, ghost done: seq<Request>, ghost rest: seq<Request>)
      returns (running: bool, ghost gone: seq<Request>)
      requires Inv() && Books(accepted, done, rest) && Cancellable(joins) && Cancellable(steps) && !Blocked()
      modifies this`reqs, this`produced, this`feed, this`finished, this`history, this`rngKeys, this`consumed, this`cache, this`pending,
               sched`waiting, cache, Caches(pending), reqs, Queued(pending), sched.waiting, Pools(), Tiers()
      ensures Inv() && Books(accepted, done + gone, rest)
      ensures if running then WorkLeft() < old(WorkLeft()) else Held() == multiset{} && gone == []
      ensures cache == old(cache) || cache in old(Caches(pending)) || cache == null || fresh(cache)
      ensures forall c :: c in Caches(pending) ==> c in old(Caches(pending)) || fresh(c)
      ensures forall r :: r in gone && r.reason == Cancel ==> r in joins || r in steps
      ensures forall i :: 0 <= i < |done| ==> done[i].reason == old(done[i].reason)
    {
      hide *;
      BooksMean(accepted, done, rest);
      ServedMeans(m, s, done);
      Totals();
      QueuedFlat(pending);
      HeldApart(reqs, Flat(pending), sched.waiting, accepted, done, rest);
      NotBlocked();
      running, gone := Iterate(joins, steps);
      BooksBalance(old(Held()), Held(), accepted, done, gone);
      forall i | 0 <= i < |rest|
        ensures rest[i].Untouched()
      {
        assert rest[i] in rest && unchanged(rest[i]);
      }
      forall i | 0 <= i < |done|
        ensures done[i].closed && Settled(m, s, done[i])
      {
        assert unchanged(done[i]);
      }
      ServedIs(m, s, done);
      ServedBoth(m, s, done, gone);
      BooksAre(accepted, done + gone, rest);
    }

    lemma NotBlocked()
      requires !Blocked()
      ensures reqs == [] && pending == [] ==> sched.waiting != [] || sched.stopping
    {
    }

    /** Requests arrive; then an iteration, unless the worker has nothing to wake up for. */
    method Arrive(event: Event, ghost accepted: seq<Request>, ghost done: seq<Request>, ghost rest: seq<Request>)
      returns (ghost more: seq<Request>, ghost gone: seq<Request>)
      requires Inv() && Books(accepted, done, event.arrivals + rest) && Cancellable(event.joins) && Cancellable(event.steps)
      modifies this`reqs, this`produced, this`feed, this`finished, this`history, this`rngKeys, this`consumed, this`cache, this`pending,
               sched`waiting, cache, Caches(pending), accepted, event.arrivals, Pools(), Tiers()
      ensures Inv() && Books(accepted + more, done + gone, rest)
      ensures multiset(more) <= multiset(event.arrivals) && (sched.maxWaiting == 0 ==> more == event.arrivals)
      ensures cache == old(cache) || cache in old(Caches(pending)) || cache == null || fresh(cache)
      ensures forall c :: c in Caches(pending) ==> c in old(Caches(pending)) || fresh(c)
      ensures forall r :: r in gone && r.reason == Cancel ==> r in event.joins || r in event.steps
      ensures forall i :: 0 <= i < |done| ==> done[i].reason == old(done[i].reason)
    {
      hide *;
      more := SubmitAll(event.arrivals, accepted, done, rest);
      gone := [];
      if !Blocked() {
        var running;
        HeldMeans(accepted + more, done, rest);
        MoreArrived(accepted, more, event.arrivals);
        running, gone := Turn(event.joins, event.steps, accepted + more, done, rest);
      }
      assert done + [] == done;
    }

    /** Everything in hand is on the books. */
    lemma HeldMeans(accepted: seq<Request>, done: seq<Request>, rest: seq<Request>)
      requires Books(accepted, done, rest)
      ensures forall i :: 0 <= i < |reqs| ==> reqs[i] in accepted
      ensures forall i :: 0 <= i < |sched.waiting| ==> sched.waiting[i] in accepted
      ensures forall r :: r in Queued(pending) ==> r in accepted
    {
      hide *;
      BooksMean(accepted, done, rest);
      ServedMeans(m, s, done);
      Totals();
      QueuedFlat(pending);
      HeldApart(reqs, Flat(pending), sched.waiting, accepted, done, rest);
      forall r | r in Queued(pending)
        ensures r in accepted
      {
        InFlat(pending, r);
        var i :| 0 <= i < |Flat(pending)| && Flat(pending)[i] == r;
      }
    }

    /** After stop(), iterations until the loop exits. There is less work after each, so it does. */
    method Drain(late: nat -> set<Request>, ghost accepted: seq<Request>, ghost done0: seq<Request>, ghost events: seq<Event>)
      returns (ghost done: seq<Request>)
      requires Inv() && Books(accepted, done0, []) && sched.stopping && forall k :: Cancellable(late(k))
      requires CancelsAsked(done0, events, late)
      modifies this`reqs, this`produced, this`feed, this`finished, this`history, this`rngKeys, this`consumed, this`cache, this`pending,
               sched`waiting, cache, Caches(pending), accepted, Pools(), Tiers()
      ensures Inv() && Books(accepted, done, []) && Held() == multiset{} && CancelsAsked(done, events, late)
    {
      hide *;
      done := done0;
      var k, running := 0, true;
      while running
        invariant Inv() && Books(accepted, done, []) && CancelsAsked(done, events, late)
        invariant cache == old(cache) || cache in old(Caches(pending)) || cache == null || fresh(cache)
        invariant forall c :: c in Caches(pending) ==> c in old(Caches(pending)) || fresh(c)
        invariant !running ==> Held() == multiset{}
        decreases running, WorkLeft()
      {
        HeldMeans(accepted, done, []);
        StoppedRuns();
        ghost var gone;
        AskedMean(done, events, late);
        running, gone := Turn(late(k), late(k + 1), accepted, done, []);
        AskedLate(done, gone, events, late, k);
        done := done + gone;
        k := k + 2;
      }
    }

    lemma StoppedRuns()
      ensures sched.stopping ==> !Blocked()
    {
    }

    /** run: until stopped it serves requests as they arrive; stopped, it drains. However requests
        arrive, whatever is cancelled and whenever, every accepted request ends closed, once, having
        received exactly what it generates alone, or part of that if the worker saw it cancelled. */
    method Run(events: seq<Event>, late: nat -> set<Request>) returns (ghost accepted: seq<Request>, ghost done: seq<Request>)
      requires Inv() && reqs == [] && pending == [] && sched.waiting == [] && cache == null
      requires Once(multiset(Arrivals(events))) && forall i :: 0 <= i < |Arrivals(events)| ==> Arrivals(events)[i].Untouched()
      requires forall i :: 0 <= i < |events| ==> Cancellable(events[i].joins) && Cancellable(events[i].steps)
      requires forall k :: Cancellable(late(k))
      modifies this`reqs, this`produced, this`feed, this`finished, this`history, this`rngKeys, this`consumed, this`cache, this`pending,
               sched, Arrivals(events), Pools(), Tiers()
      ensures multiset(done) == multiset(accepted) && Served(m, s, done) && CancelsAsked(done, events, late)
      ensures multiset(accepted) <= multiset(Arrivals(events)) && (sched.maxWaiting == 0 ==> accepted == Arrivals(events))
      ensures Inv() && Held() == multiset{} && sched.stopping
    {
      hide *;
      Totals();
      NoUnits();
      NothingHeld(reqs, Flat(pending), sched.waiting);
      accepted, done := Serving(events, late);
      AcceptedArrived(accepted, Arrivals(events));
      Stop(accepted, done);
      done := Drain(late, accepted, done, events);
      BooksMean(accepted, done, []);
    }

    /** stop(): the queue's flag is set; nothing in hand changes. */
    method Stop(ghost accepted: seq<Request>, ghost done: seq<Request>)
      requires Inv() && Books(accepted, done, [])
      modifies sched`stopping
      ensures Inv() && Books(accepted, done, []) && sched.stopping
    {
      hide RowsOk;
      hide CacheMatches;
      hide UnitOk;
      UnitsMean(m, pending);
      sched.StopAccepting();
      forall i | 0 <= i < |pending|
        ensures UnitOk(m, pending[i])
      {
        assert unchanged(pending[i].cache) && unchanged(pending[i].reqs);
      }
    }

    /** The loop of run before stop(). */
    method Serving(events: seq<Event>, ghost late: nat -> set<Request>) returns (ghost accepted: seq<Request>, ghost done: seq<Request>)
      requires Inv() && Held() == multiset{} && cache == null && pending == []
      requires Once(multiset(Arrivals(events))) && forall i :: 0 <= i < |Arrivals(events)| ==> Arrivals(events)[i].Untouched()
      requires forall i :: 0 <= i < |events| ==> Cancellable(events[i].joins) && Cancellable(events[i].steps)
      modifies this`reqs, this`produced, this`feed, this`finished, this`history, this`rngKeys, this`consumed, this`cache, this`pending,
               sched`waiting, Arrivals(events), Pools(), Tiers()
      ensures Inv() && Books(accepted, done, []) && CancelsAsked(done, events, late)
      ensures multiset(accepted) <= multiset(Arrivals(events)) && (sched.maxWaiting == 0 ==> accepted == Arrivals(events))
      ensures (cache == null || fresh(cache)) && forall c :: c in Caches(pending) ==> fresh(c)
    {
      hide *;
      NoUnits();
      accepted, done := [], [];
      AskedNone(events, late);
      OpenBooks(Arrivals(events));
      ghost var all := Arrivals(events);
      assert events[0..] == events;
      for i := 0 to |events|
        invariant Inv() && Books(accepted, done, Arrivals(events[i..])) && CancelsAsked(done, events, late)
        invariant multiset(accepted) + multiset(Arrivals(events[i..])) <= multiset(all)
        invariant sched.maxWaiting == 0 ==> accepted + Arrivals(events[i..]) == all
        invariant (cache == null || fresh(cache)) && forall c :: c in Caches(pending) ==> fresh(c)
      {
        ArrivalsFrom(events, i);
        ghost var rest := Arrivals(events[i + 1..]);
        StillArrived(accepted, events[i].arrivals, rest, all);
        ghost var more, gone;
        AskedMean(done, events, late);
        more, gone := Arrive(events[i], accepted, done, rest);
        AskedNow(done, gone, events, late, i);
        ArrivedMore(accepted, more, events[i].arrivals, rest, all);
        accepted, done := accepted + more, done + gone;
      }
      NoArrivals(events);
    }

    lemma OpenBooks(rest: seq<Request>)
      requires Held() == multiset{} && Once(multiset(rest)) && forall i :: 0 <= i < |rest| ==> rest[i].Untouched()
      ensures Books([], [], rest)
    {
      assert multiset([]) + multiset(rest) == multiset(rest);
    }
  }
}
