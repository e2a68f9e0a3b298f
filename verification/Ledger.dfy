/** Bookkeeping over whole runs: which requests are held where, and how much work they still are. */
module Ledger {
  import opened KvQuant
  import opened BatchCache
  import opened Transformer
  import opened BlockPools
  import opened Requests
  import opened Rows

  // ---------------------------------------------------------------- queued prefills

  /** The requests of the queued prefills. */
  function Flat(ps: seq<Pending>): seq<Request> {
    if ps == [] then [] else ps[0].reqs + Flat(ps[1..])
  }

  ghost function Caches(ps: seq<Pending>): set<BatchKVCache> {
    set i | 0 <= i < |ps| :: ps[i].cache
  }

  ghost function Queued(ps: seq<Pending>): set<Request> {
    set i, k | 0 <= i < |ps| && 0 <= k < |ps[i].reqs| :: ps[i].reqs[k]
  }

  /** Every unit is in order, each with a cache of its own. */
  ghost predicate UnitsOk(m: Model, ps: seq<Pending>)
    reads Caches(ps), Queued(ps)
  {
    && (forall i :: 0 <= i < |ps| ==> UnitOk(m, ps[i]))
    && forall i, j :: 0 <= i < j < |ps| ==> ps[i].cache != ps[j].cache
  }

  lemma UnitsMean(m: Model, ps: seq<Pending>)
    requires UnitsOk(m, ps)
    ensures forall i :: 0 <= i < |ps| ==> UnitOk(m, ps[i])
    ensures forall i, j :: 0 <= i < j < |ps| ==> ps[i].cache != ps[j].cache
  {
  }

  lemma UnitsAre(m: Model, ps: seq<Pending>)
    requires forall i :: 0 <= i < |ps| ==> UnitOk(m, ps[i])
    requires forall i, j :: 0 <= i < j < |ps| ==> ps[i].cache != ps[j].cache
    ensures UnitsOk(m, ps)
  {
  }

  lemma {:induction false} FlatSnoc(ps: seq<Pending>, p: Pending)
    ensures Flat(ps + [p]) == Flat(ps) + p.reqs
    ensures PrefillWork(ps + [p]) == PrefillWork(ps) + UnitWork(p)
  {
    if ps == [] {
      assert Flat([p][1..]) == [];
      assert Flat(ps + [p]) == p.reqs;
    } else {
      FlatSnoc(ps[1..], p);
      assert (ps + [p])[1..] == ps[1..] + [p];
    }
  }

  lemma UnitsCons(m: Model, ps: seq<Pending>)
    requires ps != [] && UnitOk(m, ps[0]) && ps[0].cache !in Caches(ps[1..]) && UnitsOk(m, ps[1..])
    ensures UnitsOk(m, ps)
  {
    hide UnitOk;
    forall i | 1 <= i < |ps|
      ensures UnitOk(m, ps[i]) && ps[i].cache in Caches(ps[1..])
    {
      assert ps[i] == ps[1..][i - 1];
    }
    forall i, j | 1 <= i < j < |ps|
      ensures ps[i].cache != ps[j].cache
    {
      assert ps[i] == ps[1..][i - 1] && ps[j] == ps[1..][j - 1];
    }
  }

  lemma {:induction false} InFlat(ps: seq<Pending>, r: Request)
    ensures r in Flat(ps) <==> r in Queued(ps)
  {
    if ps != [] {
      InFlat(ps[1..], r);
      forall i | 1 <= i < |ps| && r in ps[i].reqs
        ensures r in Queued(ps[1..])
      {
        assert ps[1..][i - 1] == ps[i];
      }
      forall i | 0 <= i < |ps| - 1 && r in ps[1..][i].reqs
        ensures r in Queued(ps)
      {
        assert ps[i + 1] == ps[1..][i];
      }
    }
  }

  /** Requests held once each: the active ones, the front unit's and the other units' are apart. */
  lemma Apart(rs: seq<Request>, ps: seq<Pending>)
    requires Distinct(rs + Flat(ps))
    ensures Distinct(rs) && forall r :: r in Queued(ps) ==> r !in rs
    ensures ps != [] ==> Distinct(rs + ps[0].reqs) && forall r :: r in Queued(ps[1..]) ==> r !in ps[0].reqs
  {
    DistinctParts(rs, Flat(ps));
    forall r | r in Queued(ps)
      ensures r !in rs
    {
      InFlat(ps, r);
    }
    if ps != [] {
      assert rs + Flat(ps) == (rs + ps[0].reqs) + Flat(ps[1..]);
      DistinctParts(rs + ps[0].reqs, Flat(ps[1..]));
      DistinctParts(ps[0].reqs, Flat(ps[1..]));
      forall r | r in Queued(ps[1..])
        ensures r !in ps[0].reqs
      {
        InFlat(ps[1..], r);
      }
    }
  }

  // ---------------------------------------------------------------- work left

  /** Tokens row may still emit, and one for its eviction. */
  function RowWork(budget: nat, produced: nat): nat {
    (if produced < budget then budget - produced else 0) + 1
  }

  function RowsWork(rs: seq<Request>, produced: seq<nat>): nat
    requires |rs| == |produced|
  {
    if rs == [] then 0
    else RowsWork(rs[..|rs| - 1], produced[..|rs| - 1]) + RowWork(rs[|rs| - 1].maxTokens, produced[|rs| - 1])
  }

  /** Work of requests that have emitted nothing. */
  function Budget(rs: seq<Request>): nat {
    if rs == [] then 0 else Budget(rs[..|rs| - 1]) + rs[|rs| - 1].maxTokens + 1
  }

  /** Prompt columns. */
  function Columns(rs: seq<Request>): nat {
    if rs == [] then 0 else Columns(rs[..|rs| - 1]) + |rs[|rs| - 1].prompt|
  }

  function UnitWork(p: Pending): nat {
    (if p.pos < p.total then p.total - p.pos else 0) + Budget(p.reqs)
  }

  function PrefillWork(ps: seq<Pending>): nat {
    if ps == [] then 0 else UnitWork(ps[0]) + PrefillWork(ps[1..])
  }

  /** Waiting requests still need admission, their prompt's columns and their budget. */
  function WaitingWork(rs: seq<Request>): nat {
    |rs| + Columns(rs) + Budget(rs)
  }

  lemma {:induction false} WaitingSplit(a: seq<Request>, b: seq<Request>)
    ensures Budget(a + b) == Budget(a) + Budget(b) && Columns(a + b) == Columns(a) + Columns(b)
  {
    if b == [] {
      assert a + b == a;
    } else {
      var n := |b| - 1;
      assert (a + b)[..|a + b| - 1] == a + b[..n];
      WaitingSplit(a, b[..n]);
    }
  }

  lemma OneRequest(r: Request)
    ensures Budget([r]) == r.maxTokens + 1 && Columns([r]) == |r.prompt|
  {
    assert [r] == [] + [r];
    assert [r][..0] == [];
  }

  /** A cold unit is as wide as its longest prompt. */
  lemma {:induction false} ColumnsCover(rs: seq<Request>, i: nat)
    requires i < |rs|
    ensures |rs[i].prompt| <= Columns(rs)
  {
    if i < |rs| - 1 {
      ColumnsCover(rs[..|rs| - 1], i);
    }
  }

  /** Rows that join with nothing emitted owe at most their budget. */
  lemma {:induction false} JoinedWork(rs: seq<Request>, produced: seq<nat>, more: seq<Request>, now: seq<nat>)
    requires |rs| == |produced| && |now| == |rs| + |more| && now[..|rs|] == produced
    ensures RowsWork(rs + more, now) <= RowsWork(rs, produced) + Budget(more)
  {
    if more == [] {
      assert rs + more == rs && now == produced;
    } else {
      var n := |rs| + |more| - 1;
      assert (rs + more)[..n] == rs + more[..|more| - 1];
      assert now[..n][..|rs|] == now[..|rs|];
      JoinedWork(rs, produced, more[..|more| - 1], now[..n]);
    }
  }

  /** A decode step takes one off every row it leaves running. */
  lemma {:induction false} DecodedWork(rs: seq<Request>, produced: seq<nat>, now: seq<nat>, finished: seq<bool>)
    requires |rs| == |produced| == |now| == |finished|
    requires forall b :: 0 <= b < |rs| ==> produced[b] <= now[b] && produced[b] < rs[b].maxTokens
    requires forall b :: 0 <= b < |rs| && !finished[b] ==> now[b] == produced[b] + 1
    ensures RowsWork(rs, now) <= RowsWork(rs, produced)
    ensures (forall b :: 0 <= b < |rs| ==> !finished[b]) ==> RowsWork(rs, now) + |rs| == RowsWork(rs, produced)
  {
    if rs != [] {
      var n := |rs| - 1;
      DecodedWork(rs[..n], produced[..n], now[..n], finished[..n]);
    }
  }

  /** Every dropped row takes its work with it. */
  lemma {:induction false} DroppedWork(rs: seq<Request>, produced: seq<nat>, keep: seq<nat>)
    requires |rs| == |produced| && Ascending(keep, |rs|)
    ensures |keep| <= |rs|
    ensures RowsWork(Select(rs, keep), Select(produced, keep)) + (|rs| - |keep|) <= RowsWork(rs, produced)
    decreases |rs|
  {
    if rs == [] {
      assert keep == [];
    } else {
      var n := |rs| - 1;
      if n in keep {
        AscendingEnds(keep, n);
        var head := keep[..|keep| - 1];
        DroppedWork(rs[..n], produced[..n], head);
        assert keep == head + [n];
        SelectLast(rs, head);
        SelectLast(produced, head);
      } else {
        AscendingBelow(keep, n);
        DroppedWork(rs[..n], produced[..n], keep);
        SelectLast(rs, keep);
        SelectLast(produced, keep);
      }
    }
  }

  lemma SelectLast<T>(s: seq<T>, head: seq<nat>)
    requires s != [] && forall i :: 0 <= i < |head| ==> head[i] < |s| - 1
    ensures Select(s, head) == Select(s[..|s| - 1], head)
    ensures Select(s, head + [|s| - 1])[..|head|] == Select(s[..|s| - 1], head)
    ensures |Select(s, head + [|s| - 1])| == |head| + 1 && Select(s, head + [|s| - 1])[|head|] == s[|s| - 1]
  {
  }

  /** `cold` and the warm requests together are `rs`, and so is what they have ahead of them. */
  ghost predicate Split(cold: seq<Request>, warm: seq<Warm>, rs: seq<Request>) {
    && multiset(cold) + multiset(WarmReqs(warm)) == multiset(rs)
    && Budget(cold) + Budget(WarmReqs(warm)) == Budget(rs)
    && Columns(cold) + Columns(WarmReqs(warm)) == Columns(rs)
  }

  lemma SplitSnoc(cold: seq<Request>, warm: seq<Warm>, rs: seq<Request>, i: nat, blocks: seq<KVBlock>, tokens: nat)
    requires i < |rs| && Split(cold, warm, rs[..i])
    ensures Split(cold + [rs[i]], warm, rs[..i + 1])
    ensures Split(cold, warm + [Warm(rs[i], blocks, tokens)], rs[..i + 1])
  {
    hide Budget;
    hide Columns;
    assert rs[..i + 1] == rs[..i] + [rs[i]];
    WaitingSplit(rs[..i], [rs[i]]);
    WaitingSplit(cold, [rs[i]]);
    WaitingSplit(WarmReqs(warm), [rs[i]]);
    assert WarmReqs(warm + [Warm(rs[i], blocks, tokens)]) == WarmReqs(warm) + [rs[i]];
  }

  lemma SplitUntouched(cold: seq<Request>, warm: seq<Warm>, rs: seq<Request>)
    requires Split(cold, warm, rs) && forall r :: r in rs ==> r.Untouched()
    ensures forall r :: r in cold ==> r.Untouched()
    ensures forall i :: 0 <= i < |warm| ==> warm[i].req.Untouched()
    ensures forall r :: r in cold || r in WarmReqs(warm) ==> r in rs
    ensures |WarmReqs(warm)| == |warm| && forall i :: 0 <= i < |warm| ==> WarmReqs(warm)[i] == warm[i].req && warm[i].req in rs
  {
    forall r | r in cold || r in WarmReqs(warm)
      ensures r in rs
    {
      assert r in multiset(rs);
    }
    forall i | 0 <= i < |warm|
      ensures warm[i].req in rs
    {
      assert WarmReqs(warm)[i] in multiset(rs);
    }
  }

  lemma SplitMeans(cold: seq<Request>, warm: seq<Warm>, rs: seq<Request>, rows: seq<Request>)
    requires Split(cold, warm, rs)
    ensures multiset(rows + cold + WarmReqs(warm)) == multiset(rows) + multiset(rs) && Budget(cold) + Budget(WarmReqs(warm)) == Budget(rs)
    ensures cold == [] ==> rows + cold == rows && Budget(cold) == 0
  {
    assert multiset(rows + cold + WarmReqs(warm)) == multiset(rows) + (multiset(cold) + multiset(WarmReqs(warm)));
    hide Split;
    hide WarmReqs;
  }

  /** What queueing a split admission appends: a unit for each warm request, then one for the cold ones. */
  ghost predicate QueuedUnits(before: seq<Pending>, after: seq<Pending>, cold: seq<Request>, warm: seq<Warm>) {
    var mid := |before| + |warm|;
    && mid <= |after| && after[..|before|] == before && WarmUnits(after[|before|..mid], warm)
    && if cold == [] then |after| == mid else |after| == mid + 1 && after[mid].reqs == cold && after[mid].reused == 0
  }

  lemma QueuedIs(before: seq<Pending>, after: seq<Pending>, units: seq<Pending>, cold: seq<Request>, warm: seq<Warm>)
    requires WarmUnits(units, warm)
    requires if cold == [] then after == before + units
             else |after| == |before + units| + 1 && after[..|before + units|] == before + units
                  && after[|before + units|].reqs == cold && after[|before + units|].reused == 0
    ensures QueuedUnits(before, after, cold, warm)
  {
    assert |units| == |warm|;
    hide WarmUnits;
    assert after[|before|..|before| + |warm|] == units;
    assert after[..|before|] == before;
  }

  lemma CachesSnoc(ps: seq<Pending>, p: Pending)
    ensures Caches(ps + [p]) == Caches(ps) + {p.cache}
  {
    forall c | c in Caches(ps)
      ensures c in Caches(ps + [p])
    {
      var i :| 0 <= i < |ps| && ps[i].cache == c;
      assert (ps + [p])[i].cache == c;
    }
    assert (ps + [p])[|ps|].cache == p.cache;
  }

  /** The columns and budgets of a split admission, and who is in it. */
  lemma SplitWork(cold: seq<Request>, warm: seq<Warm>, rs: seq<Request>, flat: seq<Request>)
    requires Split(cold, warm, rs) && rs != []
    ensures multiset(flat + WarmReqs(warm) + cold) == multiset(flat) + multiset(rs) && (cold == [] ==> flat + WarmReqs(warm) + cold == flat + WarmReqs(warm))
    ensures Columns(WarmReqs(warm)) + Budget(WarmReqs(warm)) + Columns(cold) + Budget(cold) < WaitingWork(rs)
    ensures cold == [] ==> Columns(cold) == Budget(cold) == 0
  {
    assert multiset(flat + WarmReqs(warm) + cold) == multiset(flat) + (multiset(cold) + multiset(WarmReqs(warm)));
    hide WarmReqs;
  }

  lemma NoneWarm(warm: seq<Warm>)
    ensures WarmReqs(warm[..0]) == [] && Budget(WarmReqs(warm[..0])) == 0 && Columns(WarmReqs(warm[..0])) == 0
  {
  }

  lemma WarmSnoc(warm: seq<Warm>, i: nat)
    requires i < |warm|
    ensures WarmReqs(warm[..i + 1]) == WarmReqs(warm[..i]) + [warm[i].req]
    ensures Columns(WarmReqs(warm[..i + 1])) == Columns(WarmReqs(warm[..i])) + |warm[i].req.prompt|
    ensures Budget(WarmReqs(warm[..i + 1])) == Budget(WarmReqs(warm[..i])) + warm[i].req.maxTokens + 1
    ensures warm[i].req in WarmReqs(warm)
  {
    assert WarmReqs(warm)[i] == warm[i].req;
    WaitingSplit(WarmReqs(warm[..i]), [warm[i].req]);
    OneRequest(warm[i].req);
  }

  // ---------------------------------------------------------------- each request once

  ghost predicate Once(all: multiset<Request>) {
    forall r :: r in all ==> all[r] == 1
  }

  /** A part of a collection that holds each request once holds each request once. */
  lemma OnceDistinct(rs: seq<Request>, all: multiset<Request>)
    requires multiset(rs) <= all && Once(all)
    ensures Distinct(rs)
  {
    forall i, j | 0 <= i < j < |rs|
      ensures rs[i] != rs[j]
    {
      var head := rs[..j];
      assert rs == head + [rs[j]] + rs[j + 1..];
      assert rs[i] == head[i] && rs[i] in multiset(head);
      assert multiset(rs)[rs[j]] >= multiset(head)[rs[j]] + 1;
      assert multiset(rs)[rs[j]] <= all[rs[j]];
    }
  }

  lemma SplitDistinct(rs: seq<Request>, cold: seq<Request>, warm: seq<Warm>, incoming: seq<Request>)
    requires Split(cold, warm, incoming) && Once(multiset(rs) + multiset(incoming))
    ensures Distinct(rs + cold) && Distinct(rs + cold + WarmReqs(warm))
    ensures forall i :: 0 <= i < |warm| ==> warm[i].req !in rs && warm[i].req !in cold
  {
    var ws := WarmReqs(warm);
    OnceDistinct(rs + cold, multiset(rs) + multiset(incoming));
    OnceDistinct(rs + cold + ws, multiset(rs) + multiset(incoming));
    DistinctParts(rs + cold, ws);
    forall i | 0 <= i < |warm|
      ensures warm[i].req !in rs + cold
    {
      assert ws[i] == warm[i].req;
    }
  }

  lemma WarmApart(rs: seq<Request>, warm: seq<Warm>, i: nat)
    requires i < |warm| && Distinct(rs + WarmReqs(warm))
    ensures Distinct(rs + WarmReqs(warm[..i]) + [warm[i].req])
    ensures forall k :: i < k < |warm| ==> warm[k].req != warm[i].req
  {
    var ws := WarmReqs(warm);
    assert ws == WarmReqs(warm[..i]) + [warm[i].req] + ws[i + 1..];
    assert rs + ws == (rs + WarmReqs(warm[..i]) + [warm[i].req]) + ws[i + 1..];
    DistinctParts(rs + WarmReqs(warm[..i]) + [warm[i].req], ws[i + 1..]);
    DistinctParts(rs, ws);
    forall k | i < k < |warm|
      ensures warm[k].req != warm[i].req
    {
      assert ws[k] != ws[i];
    }
  }

  lemma DistinctOnce(rs: seq<Request>)
    requires Distinct(rs)
    ensures Once(multiset(rs))
  {
    forall r | r in multiset(rs)
      ensures multiset(rs)[r] == 1
    {
      var i :| 0 <= i < |rs| && rs[i] == r;
      assert rs == rs[..i] + [r] + rs[i + 1..];
      assert r !in rs[..i] && r !in rs[i + 1..];
    }
  }

  /** What left a batch of distinct requests is not in it any more. */
  lemma GoneApart(kept: seq<Request>, gone: seq<Request>, all: seq<Request>)
    requires Distinct(all) && multiset(kept) + multiset(gone) == multiset(all)
    ensures forall r :: r in gone ==> r !in kept
    ensures forall r :: r in kept || r in gone ==> r in all
    ensures forall r :: r in all ==> r in kept || r in gone
  {
    DistinctOnce(all);
    forall r | r in gone
      ensures r !in kept
    {
      assert r in multiset(gone) && multiset(kept)[r] + multiset(gone)[r] == multiset(all)[r];
      assert r in multiset(all);
    }
    forall r | r in kept || r in gone
      ensures r in all
    {
      assert r in multiset(all);
    }
    forall r | r in all
      ensures r in kept || r in gone
    {
      assert r in multiset(all) && r in multiset(kept) + multiset(gone);
    }
  }

  lemma DroppedGone(all: seq<Request>, keep: seq<nat>, gone: seq<Request>, b: nat)
    requires Distinct(all) && Ascending(keep, |all|) && multiset(Select(all, keep)) + multiset(gone) == multiset(all)
    requires b < |all| && b !in keep
    ensures all[b] in gone
  {
    GoneApart(Select(all, keep), gone, all);
    forall k | 0 <= k < |keep|
      ensures Select(all, keep)[k] != all[b]
    {
      assert keep[k] in keep;
    }
  }

  /** Rows `rs` were thinned to `kept`: the finished ones are `gone`, the others stay in order. */
  ghost predicate Evicted(rs: seq<Request>, produced: seq<nat>, finished: seq<bool>, kept: seq<Request>, counts: seq<nat>, gone: seq<Request>) {
    && |rs| == |produced| == |finished|
    && multiset(kept) + multiset(gone) == multiset(rs)
    && exists keep: seq<nat> ::
         && Ascending(keep, |rs|) && (forall b :: 0 <= b < |rs| ==> (b in keep <==> !finished[b]))
         && kept == Select(rs, keep) && counts == Select(produced, keep)
  }

  lemma EvictedIs(rs: seq<Request>, produced: seq<nat>, finished: seq<bool>, kept: seq<Request>, counts: seq<nat>, gone: seq<Request>, keep: seq<nat>)
    requires |rs| == |produced| == |finished| && multiset(kept) + multiset(gone) == multiset(rs)
    requires Ascending(keep, |rs|) && (forall b :: 0 <= b < |rs| ==> (b in keep <==> !finished[b]))
    requires kept == Select(rs, keep) && counts == Select(produced, keep)
    ensures Evicted(rs, produced, finished, kept, counts, gone)
  {
  }

  lemma KeptRows(rs: seq<Request>, produced: seq<nat>, finished: seq<bool>, kept: seq<Request>, counts: seq<nat>, gone: seq<Request>)
    returns (keep: seq<nat>)
    requires Evicted(rs, produced, finished, kept, counts, gone)
    ensures |rs| == |produced| == |finished|
    ensures Ascending(keep, |rs|) && (forall b :: 0 <= b < |rs| ==> (b in keep <==> !finished[b]))
    ensures kept == Select(rs, keep) && counts == Select(produced, keep) && |kept| == |counts| == |keep|
  {
    keep :|
      && Ascending(keep, |rs|) && (forall b :: 0 <= b < |rs| ==> (b in keep <==> !finished[b]))
      && kept == Select(rs, keep) && counts == Select(produced, keep);
  }

  lemma EvictedWork(rs: seq<Request>, produced: seq<nat>, finished: seq<bool>, kept: seq<Request>, counts: seq<nat>, gone: seq<Request>)
    requires Evicted(rs, produced, finished, kept, counts, gone)
    ensures |rs| == |produced| && |kept| == |counts| && RowsWork(kept, counts) <= RowsWork(rs, produced)
    ensures (exists b :: 0 <= b < |finished| && finished[b]) ==> RowsWork(kept, counts) < RowsWork(rs, produced)
    ensures (forall b :: 0 <= b < |finished| ==> !finished[b]) ==> kept == rs && counts == produced
  {
    hide *;
    var keep := KeptRows(rs, produced, finished, kept, counts, gone);
    DroppedWork(rs, produced, keep);
    if b :| 0 <= b < |rs| && finished[b] {
      KeptFewer(keep, |rs|, b);
    } else {
      AllKept(keep, |rs|);
      SelectAll(rs, keep);
      SelectAll(produced, keep);
    }
  }

  lemma SelectAll<T>(rows: seq<T>, keep: seq<nat>)
    requires |keep| == |rows| && forall i :: 0 <= i < |keep| ==> keep[i] == i
    ensures Select(rows, keep) == rows
  {
  }

  lemma EvictedGone(rs: seq<Request>, produced: seq<nat>, finished: seq<bool>, kept: seq<Request>, counts: seq<nat>, gone: seq<Request>)
    requires Distinct(rs) && Evicted(rs, produced, finished, kept, counts, gone)
    ensures |finished| == |rs| && forall b :: 0 <= b < |rs| ==> (finished[b] <==> rs[b] in gone)
    ensures multiset(kept) + multiset(gone) == multiset(rs)
    ensures forall i :: 0 <= i < |kept| ==> kept[i] in rs && kept[i] !in gone
  {
    var keep: seq<nat> :|
      && Ascending(keep, |rs|) && (forall b :: 0 <= b < |rs| ==> (b in keep <==> !finished[b]))
      && kept == Select(rs, keep) && counts == Select(produced, keep);
    GoneApart(kept, gone, rs);
    forall b | 0 <= b < |rs|
      ensures finished[b] <==> rs[b] in gone
    {
      if finished[b] {
        DroppedGone(rs, keep, gone, b);
      } else {
        assert b in keep;
        var k :| 0 <= k < |keep| && keep[k] == b;
        assert kept[k] == rs[b];
      }
    }
  }

  lemma KeptFewer(keep: seq<nat>, n: nat, b: nat)
    requires Ascending(keep, n) && b < n && b !in keep
    ensures |keep| < n
  {
    AscendingFits(keep, n);
    if b < |keep| {
      assert keep[b] in keep;
    }
  }

  /** An increasing list of every index is 0, 1, 2, ... */
  lemma {:induction false} AllKept(keep: seq<nat>, n: nat)
    requires Ascending(keep, n) && forall b :: 0 <= b < n ==> b in keep
    ensures |keep| == n && forall k :: 0 <= k < n ==> keep[k] == k
  {
    AscendingFits(keep, n);
    if n > 0 {
      assert n - 1 in keep;
      AscendingEnds(keep, n - 1);
      var head := keep[..|keep| - 1];
      forall b | 0 <= b < n - 1
        ensures b in head
      {
        assert b in keep;
      }
      AllKept(head, n - 1);
    }
  }

  // ---------------------------------------------------------------- what an iteration does to its rows

  /** Closed, with everything their consumers should have received. */
  ghost predicate Served(m: Model, s: Sampler, gone: seq<Request>)
    reads gone
  {
    forall i :: 0 <= i < |gone| ==> gone[i].closed && Settled(m, s, gone[i])
  }

  /** What each has received. */
  ghost function Given(rs: seq<Request>): seq<Mark>
    reads rs
  {
    seq(|rs|, i requires 0 <= i < |rs| reads rs => MarkOf(rs[i]))
  }

  /** What the second half of an iteration does to a row. One that had finished leaves as it was. One seen cancelled
      leaves, cancelled, with nothing more. Any other is not cancelled, and leaves or has exactly one more token. */
  ghost predicate Moved(q: Request, was: Mark, steps: set<Request>, gone: seq<Request>)
    reads q
  {
    if was.reason != Running then q in gone && MarkOf(q) == was
    else if q in steps then q in gone && MarkOf(q) == was.(reason := Cancel)
    else
      && q.reason != Cancel && was.tokens <= q.tokens && |q.tokens| <= |was.tokens| + 1
      && (q in gone || |q.tokens| == |was.tokens| + 1)
  }

  ghost predicate Progressed(rs: seq<Request>, before: seq<Mark>, steps: set<Request>, gone: seq<Request>)
    reads rs
  {
    |before| == |rs| && forall i :: 0 <= i < |rs| ==> Moved(rs[i], before[i], steps, gone)
  }

  /** The rows first evicted are gone as they were; the rest progressed. */
  lemma ProgressedAll(all: seq<Request>, before: seq<Mark>, kept: seq<Request>, mid: seq<Mark>, steps: set<Request>,
                      gone1: seq<Request>, at1: seq<Mark>, gone2: seq<Request>)
    requires Thinned(all, before, kept, mid, gone1, at1) && Progressed(kept, mid, steps, gone2) && Given(gone1) == at1
    ensures Progressed(all, before, steps, gone1 + gone2)
  {
    GoneApart(kept, gone1, all);
    GivenMeans(gone1);
    hide Given;
    forall j | 0 <= j < |all|
      ensures Moved(all[j], before[j], steps, gone1 + gone2)
    {
      assert all[j] in multiset(kept) + multiset(gone1);
      if all[j] in gone1 {
        var i :| 0 <= i < |gone1| && gone1[i] == all[j];
      } else {
        var i :| 0 <= i < |kept| && kept[i] == all[j];
        assert Moved(kept[i], mid[i], steps, gone2);
      }
    }
  }

  /** Rows, each with what it had received, split into the finished ones and the others. */
  ghost predicate Thinned(all: seq<Request>, before: seq<Mark>, kept: seq<Request>, mid: seq<Mark>, gone: seq<Request>, at: seq<Mark>) {
    && Distinct(all) && multiset(kept) + multiset(gone) == multiset(all)
    && |before| == |all| && |mid| == |kept| && |at| == |gone|
    && (forall i, j :: 0 <= i < |kept| && 0 <= j < |all| && kept[i] == all[j] ==> mid[i] == before[j])
    && (forall i, j :: 0 <= i < |gone| && 0 <= j < |all| && gone[i] == all[j] ==> at[i] == before[j])
    && forall j :: 0 <= j < |all| && all[j] in gone ==> before[j].reason != Running
  }

  lemma ThinnedIs(all: seq<Request>, before: seq<Mark>, done: seq<bool>, kept: seq<Request>, mid: seq<Mark>, gone: seq<Request>, at: seq<Mark>)
    requires Distinct(all) && multiset(kept) + multiset(gone) == multiset(all)
    requires |before| == |all| == |done| && |mid| == |kept| && |at| == |gone|
    requires forall i, j :: 0 <= i < |kept| && 0 <= j < |all| && kept[i] == all[j] ==> mid[i] == before[j]
    requires forall i, j :: 0 <= i < |gone| && 0 <= j < |all| && gone[i] == all[j] ==> at[i] == before[j]
    requires forall j :: 0 <= j < |all| ==> (done[j] <==> all[j] in gone) && (done[j] <==> before[j].reason != Running)
    ensures Thinned(all, before, kept, mid, gone, at)
  {
  }

  lemma ThinnedApart(all: seq<Request>, before: seq<Mark>, kept: seq<Request>, mid: seq<Mark>, gone: seq<Request>, at: seq<Mark>)
    requires Thinned(all, before, kept, mid, gone, at)
    ensures forall i :: 0 <= i < |gone| ==> gone[i] !in kept
  {
    GoneApart(kept, gone, all);
  }

  /** A batch all of whose rows left had a finished one. */
  lemma SomeFinished(done: seq<bool>, all: seq<Request>, kept: seq<Request>, gone: seq<Request>)
    requires |done| == |all| && multiset(kept) + multiset(gone) == multiset(all)
    requires forall j :: 0 <= j < |all| ==> (done[j] <==> all[j] in gone)
    ensures all != [] && kept == [] ==> done[0]
  {
    if all != [] && kept == [] {
      assert all[0] in multiset(all);
    }
  }

  /** A decode step over rows, each as `before`, then as `after`. */
  ghost predicate Stepped(rs: seq<Request>, before: seq<Mark>, after: seq<Mark>, finished: seq<bool>, steps: set<Request>) {
    && |rs| == |before| == |after| == |finished|
    && forall b :: 0 <= b < |rs| ==>
         && (rs[b] in steps ==> finished[b] && after[b] == before[b].(reason := Cancel))
         && (rs[b] !in steps ==>
               after[b].reason != Cancel && before[b].tokens <= after[b].tokens && |after[b].tokens| <= |before[b].tokens| + 1)
         && (!finished[b] ==> |after[b].tokens| == |before[b].tokens| + 1)
  }

  lemma SteppedIs(rs: seq<Request>, before: seq<Mark>, after: seq<Mark>, finished: seq<bool>, steps: set<Request>)
    requires |rs| == |before| == |after| == |finished|
    requires forall b :: 0 <= b < |rs| && rs[b] in steps ==>
               finished[b] && after[b].reason == Cancel && after[b].tokens == before[b].tokens && after[b].logprobs == before[b].logprobs
    requires forall b :: 0 <= b < |rs| && rs[b] !in steps ==>
               after[b].reason != Cancel && before[b].tokens <= after[b].tokens && |after[b].tokens| <= |before[b].tokens| + 1
    requires forall b :: 0 <= b < |rs| && !finished[b] ==> |after[b].tokens| == |before[b].tokens| + 1
    ensures Stepped(rs, before, after, finished, steps)
  {
  }

  lemma GivenMeans(rs: seq<Request>)
    ensures |Given(rs)| == |rs| && forall i :: 0 <= i < |rs| ==> Given(rs)[i] == MarkOf(rs[i]) == Mark(rs[i].tokens, rs[i].logprobs, rs[i].reason)
  {
  }

  lemma GivenIs(rs: seq<Request>, marks: seq<Mark>)
    requires |marks| == |rs| && forall i :: 0 <= i < |rs| ==> marks[i] == Mark(rs[i].tokens, rs[i].logprobs, rs[i].reason)
    ensures Given(rs) == marks
  {
  }

  lemma GivenAgree(kept: seq<Request>, all: seq<Request>)
    ensures |Given(kept)| == |kept| && |Given(all)| == |all|
    ensures forall i, j :: 0 <= i < |kept| && 0 <= j < |all| && kept[i] == all[j] ==> Given(kept)[i] == Given(all)[j]
  {
  }

  lemma NothingLeft(m: Model, s: Sampler, steps: set<Request>)
    ensures Served(m, s, []) && forall mid: seq<Mark> :: |mid| == 0 ==> Progressed([], mid, steps, [])
  {
  }

  lemma ProgressedOne(rs: seq<Request>, before: seq<Mark>, after: seq<Mark>, finished: seq<bool>, steps: set<Request>, gone: seq<Request>)
    requires Stepped(rs, before, after, finished, steps) && Given(rs) == after
    requires forall b :: 0 <= b < |rs| && finished[b] ==> rs[b] in gone
    requires forall b :: 0 <= b < |rs| ==> before[b].reason == Running
    ensures Progressed(rs, before, steps, gone)
  {
    GivenMeans(rs);
    hide Given;
  }

  lemma ServedMeans(m: Model, s: Sampler, gone: seq<Request>)
    requires Served(m, s, gone)
    ensures forall i :: 0 <= i < |gone| ==> gone[i].closed && Settled(m, s, gone[i])
  {
  }

  lemma ServedIs(m: Model, s: Sampler, gone: seq<Request>)
    requires forall i :: 0 <= i < |gone| ==> gone[i].closed && Settled(m, s, gone[i])
    ensures Served(m, s, gone)
  {
  }

  lemma ServedBoth(m: Model, s: Sampler, a: seq<Request>, b: seq<Request>)
    requires Served(m, s, a) && Served(m, s, b)
    ensures Served(m, s, a + b)
  {
    hide Settled;
  }

  lemma AdmittedWork(incoming: seq<Request>, was: seq<Request>, now: seq<Request>)
    requires incoming != [] && multiset(now) == multiset(was) + multiset(incoming)
    ensures Budget(incoming) < WaitingWork(incoming) && forall r :: r in was ==> r in now
  {
    forall r | r in was
      ensures r in now
    {
      assert r in multiset(now);
    }
  }

  lemma UnitParts(ps: seq<Pending>)
    ensures forall i :: 0 <= i < |ps| ==> ps[i].cache in Caches(ps)
    ensures forall i, k :: 0 <= i < |ps| && 0 <= k < |ps[i].reqs| ==> ps[i].reqs[k] in Queued(ps)
  {
  }

  lemma QueuedFlat(ps: seq<Pending>)
    ensures forall r :: r in Queued(ps) <==> r in Flat(ps)
    ensures ps != [] ==> forall i :: 0 <= i < |ps[0].reqs| ==> ps[0].reqs[i] in Queued(ps)
    ensures ps == [] ==> Flat(ps) == []
  {
    forall r: Request
      ensures r in Queued(ps) <==> r in Flat(ps)
    {
      InFlat(ps, r);
    }
  }

  lemma TakenUnits(ps: seq<Pending>, now: seq<Request>, was: seq<Request>, incoming: seq<Request>)
    requires multiset(now) + multiset(Flat(ps)) == multiset(was) + multiset(incoming)
    requires Once(multiset(was) + multiset(incoming)) && forall r :: r in was ==> r in now
    ensures forall r :: r in Flat(ps) ==> r in incoming
  {
    forall r | r in Flat(ps)
      ensures r in incoming
    {
      assert r in multiset(Flat(ps));
      assert r in multiset(was) + multiset(incoming);
      assert r in was ==> r in multiset(now);
    }
  }

  lemma OnceParts(a: multiset<Request>, b: multiset<Request>, c: multiset<Request>)
    requires Once(a + b + c)
    ensures Once(a + b) && Once(a + c)
    ensures c == multiset{} ==> a + b + c == a + b
    ensures b == multiset{} ==> a + b + c == a + c
  {
    assert forall r :: r in a + b ==> r in a + b + c;
    assert forall r :: r in a + c ==> r in a + b + c;
  }

  lemma ProgressedSub(rs: seq<Request>, before: seq<Mark>, all: seq<Request>, mid: seq<Mark>, steps: set<Request>, gone: seq<Request>)
    requires |before| == |rs| && |mid| == |all| && Progressed(all, mid, steps, gone) && forall r :: r in rs ==> r in all
    requires forall i, j :: 0 <= i < |rs| && 0 <= j < |all| && rs[i] == all[j] ==> before[i] == mid[j]
    ensures Progressed(rs, before, steps, gone)
  {
    hide Moved;
    forall i | 0 <= i < |rs|
      ensures Moved(rs[i], before[i], steps, gone)
    {
      assert rs[i] in all;
      var j :| 0 <= j < |all| && all[j] == rs[i];
    }
  }

  /** What an iteration does to a row that joins in it: seen cancelled, at its first token or in the decode step, it
      leaves, without that token; and it leaves cancelled only then. */
  ghost predicate Arrived(q: Request, joins: set<Request>, steps: set<Request>, gone: seq<Request>)
    reads q
  {
    && (q in joins ==> q in gone && q.reason == Cancel && q.tokens == [] && q.logprobs == [])
    && (q in steps ==> q in gone && |q.tokens| <= 1)
    && (q.reason == Cancel ==> q in joins || q in steps)
  }

  ghost predicate AllArrived(rs: seq<Request>, was: seq<Request>, joins: set<Request>, steps: set<Request>, gone: seq<Request>)
    reads rs
  {
    forall i :: 0 <= i < |rs| ==> rs[i] in was || Arrived(rs[i], joins, steps, gone)
  }

  /** Each mark of a row that has just joined. */
  ghost predicate Entered(now: seq<Request>, marks: seq<Mark>, was: seq<Request>, joins: set<Request>) {
    && |marks| == |now|
    && forall i :: 0 <= i < |now| && now[i] !in was ==>
         && (marks[i].reason == Cancel <==> now[i] in joins) && |marks[i].tokens| <= 1
         && (now[i] in joins ==> marks[i].tokens == [] && marks[i].logprobs == [])
  }

  lemma JoinedEntered(now: seq<Request>, was: seq<Request>, joins: set<Request>)
    requires Joined(now, was, joins)
    ensures Entered(now, Given(now), was, joins)
  {
    GivenMeans(now);
  }

  lemma EnteredJoined(now: seq<Request>, was: seq<Request>, joins: set<Request>)
    requires Entered(now, Given(now), was, joins)
    ensures Joined(now, was, joins)
  {
    GivenMeans(now);
    hide Given;
  }

  lemma ArrivedAll(rs: seq<Request>, marks: seq<Mark>, was: seq<Request>, joins: set<Request>, steps: set<Request>, gone: seq<Request>)
    requires Entered(rs, marks, was, joins) && Progressed(rs, marks, steps, gone)
    ensures AllArrived(rs, was, joins, steps, gone)
  {
    forall i | 0 <= i < |rs| && rs[i] !in was
      ensures Arrived(rs[i], joins, steps, gone)
    {
      assert Moved(rs[i], marks[i], steps, gone);
    }
  }

  lemma ArrivedParts(now: seq<Request>, gone: seq<Request>, batch: seq<Request>, was: seq<Request>, joins: set<Request>, steps: set<Request>)
    requires multiset(now) + multiset(gone) == multiset(batch) && AllArrived(batch, was, joins, steps, gone)
    ensures AllArrived(now + gone, was, joins, steps, gone)
  {
    hide Arrived;
    forall r | r in now + gone
      ensures r in was || Arrived(r, joins, steps, gone)
    {
      assert r in multiset(batch);
      var i :| 0 <= i < |batch| && batch[i] == r;
    }
  }

  lemma ArrivedMean(now: seq<Request>, gone: seq<Request>, was: seq<Request>, joins: set<Request>, steps: set<Request>)
    requires AllArrived(now + gone, was, joins, steps, gone)
    ensures forall r :: r in gone && r !in was && r.reason == Cancel ==> r in joins || r in steps
  {
    forall r | r in gone && r !in was
      ensures r.reason == Cancel ==> r in joins || r in steps
    {
      assert r in now + gone;
      var i :| 0 <= i < |now + gone| && (now + gone)[i] == r;
    }
  }

  lemma OnceNone()
    ensures Once(multiset{})
  {
  }

  lemma NoneArrived(joins: set<Request>, steps: set<Request>)
    ensures AllArrived([] + [], [], joins, steps, [])
  {
  }

  lemma ProgressedMeans(rs: seq<Request>, before: seq<Mark>, steps: set<Request>, gone: seq<Request>)
    requires Progressed(rs, before, steps, gone) && forall i :: 0 <= i < |before| ==> before[i].reason == Running
    ensures |before| == |rs|
    ensures forall i :: 0 <= i < |rs| && rs[i] in steps ==>
              rs[i] in gone && rs[i].reason == Cancel && rs[i].tokens == before[i].tokens && rs[i].logprobs == before[i].logprobs
    ensures forall i :: 0 <= i < |rs| && rs[i].reason == Cancel ==> rs[i] in steps
  {
    forall i | 0 <= i < |rs|
      ensures Moved(rs[i], before[i], steps, gone)
    {
    }
  }

  /** The queue splits into what was taken and what waits on. */
  lemma QueueSplits(rows: seq<Request>, flat: seq<Request>, queue: seq<Request>, incoming: seq<Request>, later: seq<Request>)
    requires Once(multiset(rows) + multiset(flat) + multiset(queue)) && queue == incoming + later
    ensures Once(multiset(rows) + multiset(flat) + multiset(incoming))
    ensures forall r :: r in later ==> r in queue && r !in rows && r !in flat && r !in incoming
    ensures forall r :: r in rows ==> r !in flat && r !in incoming
    ensures forall r :: r in incoming ==> r in queue
    ensures forall i :: 0 <= i < |incoming| ==> incoming[i] == queue[i]
    ensures WaitingWork(queue) == WaitingWork(incoming) + WaitingWork(later)
  {
    WaitingSplit(incoming, later);
    var all := multiset(rows) + multiset(flat) + multiset(queue);
    assert multiset(queue) == multiset(incoming) + multiset(later);
    forall r | r in multiset(rows) + multiset(flat) + multiset(incoming)
      ensures (multiset(rows) + multiset(flat) + multiset(incoming))[r] == 1
    {
      assert r in all;
    }
    forall r | r in later
      ensures r in queue && r !in rows && r !in flat && r !in incoming
    {
      assert r in multiset(later) && r in all;
    }
    forall r | r in rows
      ensures r !in flat && r !in incoming
    {
      assert r in multiset(rows) && r in all;
    }
  }

  /** After admission: still each once, and nothing that waits on is touched. */
  lemma BatchApart(rows: seq<Request>, flat: seq<Request>, incoming: seq<Request>, batch: seq<Request>, units: seq<Request>, later: seq<Request>)
    requires multiset(batch) + multiset(units) == multiset(rows) + multiset(flat) + multiset(incoming)
    requires Once(multiset(rows) + multiset(flat) + multiset(incoming))
    requires forall r :: r in later ==> r !in rows && r !in flat && r !in incoming
    ensures Once(multiset(batch) + multiset(units))
    ensures forall r :: r in later ==> r !in batch && r !in units
    ensures forall r :: r in batch ==> r in rows || r in flat || r in incoming
  {
    forall r | r in later
      ensures r !in batch && r !in units
    {
      assert r !in multiset(rows) + multiset(flat) + multiset(incoming);
      assert r !in multiset(batch) + multiset(units);
    }
    forall r | r in batch
      ensures r in rows || r in flat || r in incoming
    {
      assert r in multiset(batch) + multiset(units);
    }
  }

  /** What was taken, moved on or served, balances. */
  lemma LedgerStep(rows: seq<Request>, flat: seq<Request>, queue: seq<Request>, incoming: seq<Request>, later: seq<Request>,
                   now: seq<Request>, units: seq<Request>, gone: seq<Request>)
    requires queue == incoming + later && Once(multiset(rows) + multiset(flat) + multiset(queue))
    requires multiset(now) + multiset(units) + multiset(gone) == multiset(rows) + multiset(flat) + multiset(incoming)
    ensures multiset(now) + multiset(units) + multiset(later) + multiset(gone) == multiset(rows) + multiset(flat) + multiset(queue)
    ensures Once(multiset(now) + multiset(units) + multiset(later))
  {
    var n, u, l, g := multiset(now), multiset(units), multiset(later), multiset(gone);
    var a, b, i := multiset(rows), multiset(flat), multiset(incoming);
    assert multiset(queue) == i + l;
    assert n + u + l + g == (n + u + g) + l;
    assert a + b + (i + l) == (a + b + i) + l;
    forall r | r in n + u + l
      ensures (n + u + l)[r] == 1
    {
      assert (n + u + l + g)[r] == (n + u + l)[r] + g[r];
      assert r in a + b + multiset(queue);
    }
  }

  lemma NothingHeld(rows: seq<Request>, flat: seq<Request>, queue: seq<Request>)
    requires rows == flat == queue == []
    ensures multiset(rows) + multiset(flat) + multiset(queue) == multiset{}
    ensures forall all: multiset<Request> :: all + multiset([]) == all
  {
  }

  lemma MovedOn(now: seq<Request>, gone: seq<Request>, batch: seq<Request>, units: seq<Request>, total: multiset<Request>)
    requires multiset(now) + multiset(gone) == multiset(batch) && multiset(batch) + multiset(units) == total
    ensures multiset(now) + multiset(units) + multiset(gone) == total
  {
    assert multiset(now) + multiset(units) + multiset(gone) == (multiset(now) + multiset(gone)) + multiset(units);
  }

  /** What is in hand is neither served nor still to come. */
  lemma HeldApart(rows: seq<Request>, flat: seq<Request>, queue: seq<Request>, accepted: seq<Request>, done: seq<Request>, rest: seq<Request>)
    requires multiset(accepted) == multiset(rows) + multiset(flat) + multiset(queue) + multiset(done)
    requires Once(multiset(accepted) + multiset(rest))
    ensures forall r :: r in rows || r in flat || r in queue ==> r !in done && r !in rest && r in accepted
    ensures forall i :: 0 <= i < |flat| ==> flat[i] in accepted
    ensures forall i :: 0 <= i < |done| ==> done[i] !in rows && done[i] !in flat && done[i] !in queue
    ensures forall i :: 0 <= i < |rest| ==> rest[i] !in rows && rest[i] !in flat && rest[i] !in queue
  {
    var all := multiset(accepted) + multiset(rest);
    forall r | r in rows || r in flat || r in queue
      ensures r !in done && r !in rest && r in accepted
    {
      assert r in multiset(accepted) && r in all;
      assert multiset(accepted)[r] == multiset(rows)[r] + multiset(flat)[r] + multiset(queue)[r] + multiset(done)[r];
      assert all[r] == multiset(accepted)[r] + multiset(rest)[r];
    }
  }

  /** The worker saw `r` cancelled in some iteration. */
  ghost predicate Asked(events: seq<Event>, late: nat -> set<Request>, r: Request) {
    (exists i :: 0 <= i < |events| && (r in events[i].joins || r in events[i].steps)) || exists k: nat :: r in late(k)
  }

  /** Nothing was served as cancelled that was not seen cancelled. */
  ghost predicate CancelsAsked(done: seq<Request>, events: seq<Event>, late: nat -> set<Request>)
    reads done
  {
    forall i :: 0 <= i < |done| && done[i].reason == Cancel ==> Asked(events, late, done[i])
  }

  lemma AskedNone(events: seq<Event>, late: nat -> set<Request>)
    ensures CancelsAsked([], events, late)
  {
  }

  lemma AskedMean(done: seq<Request>, events: seq<Event>, late: nat -> set<Request>)
    requires CancelsAsked(done, events, late)
    ensures forall i :: 0 <= i < |done| && done[i].reason == Cancel ==> Asked(events, late, done[i])
  {
  }

  lemma AskedNow(done: seq<Request>, gone: seq<Request>, events: seq<Event>, late: nat -> set<Request>, i: nat)
    requires forall k :: 0 <= k < |done| && done[k].reason == Cancel ==> Asked(events, late, done[k])
    requires i < |events| && forall r :: r in gone && r.reason == Cancel ==> r in events[i].joins || r in events[i].steps
    ensures CancelsAsked(done + gone, events, late)
  {
    forall k | 0 <= k < |gone| && gone[k].reason == Cancel
      ensures Asked(events, late, gone[k])
    {
      assert gone[k] in gone;
    }
    hide Asked;
  }

  lemma AskedLate(done: seq<Request>, gone: seq<Request>, events: seq<Event>, late: nat -> set<Request>, k: nat)
    requires forall i :: 0 <= i < |done| && done[i].reason == Cancel ==> Asked(events, late, done[i])
    requires forall r :: r in gone && r.reason == Cancel ==> r in late(k) || r in late(k + 1)
    ensures CancelsAsked(done + gone, events, late)
  {
    forall i | 0 <= i < |gone| && gone[i].reason == Cancel
      ensures Asked(events, late, gone[i])
    {
      assert gone[i] in gone;
    }
    hide Asked;
  }

  /** Of `offered`, the queue took `taken`; all of it when it is unbounded. */
  ghost predicate TakenFrom(offered: seq<Request>, taken: seq<Request>, maxWaiting: nat) {
    multiset(taken) <= multiset(offered) && (maxWaiting == 0 ==> taken == offered)
  }

  lemma OfferedNext(arrivals: seq<Request>, i: nat, taken: seq<Request>, maxWaiting: nat, ok: bool)
    requires i < |arrivals| && TakenFrom(arrivals[..i], taken, maxWaiting) && (maxWaiting == 0 ==> ok)
    ensures TakenFrom(arrivals[..i + 1], if ok then taken + [arrivals[i]] else taken, maxWaiting)
  {
    assert arrivals[..i + 1] == arrivals[..i] + [arrivals[i]];
  }

  lemma OfferedNone(arrivals: seq<Request>, maxWaiting: nat)
    ensures TakenFrom(arrivals[..0], [], maxWaiting)
  {
  }

  lemma OfferedWhole(arrivals: seq<Request>, taken: seq<Request>, maxWaiting: nat)
    requires TakenFrom(arrivals[..|arrivals|], taken, maxWaiting)
    ensures multiset(taken) <= multiset(arrivals) && (maxWaiting == 0 ==> taken == arrivals)
  {
    assert arrivals[..|arrivals|] == arrivals;
  }

  /** What the queue accepted is new to the books. */
  lemma Offered(rows: seq<Request>, flat: seq<Request>, queue: seq<Request>, accepted: seq<Request>, done: seq<Request>,
                arrivals: seq<Request>, rest: seq<Request>, taken: seq<Request>)
    requires multiset(accepted) == multiset(rows) + multiset(flat) + multiset(queue) + multiset(done)
    requires Once(multiset(accepted) + multiset(arrivals + rest)) && multiset(taken) <= multiset(arrivals)
    ensures multiset(accepted + taken) == multiset(rows) + multiset(flat) + multiset(queue + taken) + multiset(done)
    ensures Once(multiset(accepted + taken) + multiset(rest))
    ensures Once(multiset(rows) + multiset(flat) + multiset(queue + taken))
    ensures forall r :: r in taken ==> exists i :: 0 <= i < |arrivals| && (arrivals + rest)[i] == r
  {
    var a, t, d := multiset(accepted), multiset(taken), multiset(done);
    var b, c, q := multiset(rows), multiset(flat), multiset(queue);
    assert a + t == b + c + (q + t) + d;
    var all := a + multiset(arrivals) + multiset(rest);
    assert a + multiset(arrivals + rest) == all;
    forall r | r in a + t + multiset(rest)
      ensures (a + t + multiset(rest))[r] == 1
    {
      assert (a + t + multiset(rest))[r] <= all[r];
    }
    forall r | r in b + c + (q + t)
      ensures (b + c + (q + t))[r] == 1
    {
      assert (b + c + (q + t))[r] <= (a + t)[r] <= all[r];
    }
    forall r | r in taken
      ensures exists i :: 0 <= i < |arrivals| && (arrivals + rest)[i] == r
    {
      assert r in multiset(arrivals);
      var i :| 0 <= i < |arrivals| && arrivals[i] == r;
      assert (arrivals + rest)[i] == r;
    }
  }

  lemma BooksBalance(held: multiset<Request>, now: multiset<Request>, accepted: seq<Request>, done: seq<Request>, gone: seq<Request>)
    requires multiset(accepted) == held + multiset(done) && now + multiset(gone) == held
    ensures multiset(accepted) == now + multiset(done + gone)
    ensures gone == [] ==> now == held
  {
    assert multiset(done + gone) == multiset(done) + multiset(gone);
    assert gone == [] ==> now + multiset(gone) == now;
  }

  lemma MoreArrived(accepted: seq<Request>, more: seq<Request>, arrivals: seq<Request>)
    requires multiset(more) <= multiset(arrivals)
    ensures forall r :: r in accepted + more ==> r in accepted || r in arrivals
  {
    forall r | r in more
      ensures r in arrivals
    {
      assert r in multiset(more);
      assert r in multiset(arrivals);
    }
  }

  // ---------------------------------------------------------------- runs

  /** What happens before and during one iteration: requests arrive, and the worker sees `joins` as
      cancelled when it registers rows and `steps` when it decodes. */
  datatype Event = Event(arrivals: seq<Request>, joins: set<Request>, steps: set<Request>)

  function Arrivals(events: seq<Event>): seq<Request> {
    if events == [] then [] else events[0].arrivals + Arrivals(events[1..])
  }

  lemma ArrivalsFrom(events: seq<Event>, i: nat)
    requires i < |events|
    ensures Arrivals(events[i..]) == events[i].arrivals + Arrivals(events[i + 1..])
  {
    assert events[i..][1..] == events[i + 1..];
  }

  lemma NoArrivals(events: seq<Event>)
    ensures Arrivals(events[|events|..]) == []
    ensures forall all: multiset<Request> :: all + multiset(Arrivals(events[|events|..])) == all
    ensures forall accepted: seq<Request> :: accepted + Arrivals(events[|events|..]) == accepted
  {
  }

  lemma AcceptedArrived(accepted: seq<Request>, all: seq<Request>)
    requires multiset(accepted) <= multiset(all)
    ensures forall i :: 0 <= i < |accepted| ==> accepted[i] in all
  {
    forall i | 0 <= i < |accepted|
      ensures accepted[i] in all
    {
      assert accepted[i] in multiset(accepted);
      assert accepted[i] in multiset(all);
    }
  }

  lemma StillArrived(accepted: seq<Request>, arrivals: seq<Request>, rest: seq<Request>, all: seq<Request>)
    requires multiset(accepted) + multiset(arrivals + rest) <= multiset(all)
    ensures forall i :: 0 <= i < |accepted| ==> accepted[i] in all
    ensures forall i :: 0 <= i < |arrivals| ==> arrivals[i] in all
  {
    var part := multiset(accepted) + multiset(arrivals + rest);
    forall r | r in part
      ensures r in all
    {
      assert r in multiset(all);
    }
    assert forall i :: 0 <= i < |accepted| ==> accepted[i] in part;
    assert forall i :: 0 <= i < |arrivals| ==> (arrivals + rest)[i] in part;
  }

  lemma ArrivedMore(accepted: seq<Request>, more: seq<Request>, arrivals: seq<Request>, rest: seq<Request>, all: seq<Request>)
    requires multiset(accepted) + multiset(arrivals + rest) <= multiset(all) && multiset(more) <= multiset(arrivals)
    ensures multiset(accepted + more) + multiset(rest) <= multiset(all)
    ensures more == arrivals ==> accepted + more + rest == accepted + (arrivals + rest)
  {
    var a, n, r := multiset(accepted), multiset(arrivals), multiset(rest);
    assert multiset(arrivals + rest) == n + r;
    forall x
      ensures (multiset(accepted + more) + r)[x] <= (a + (n + r))[x]
    {
    }
  }
}
