/** The Gated-DeltaNet layers of the hybrid model (src/model/qwen3_5.cpp), one row over exact arithmetic:
    the causal convolution and the delta-rule recurrence, under left padding and chunking. */
module GatedDelta {
  import opened Wrappers

  /** A position's hidden vector. */
  type Hidden(==, !new, 0)
  type Vec = seq<real>
  type Mat = seq<Vec>

  function ZeroVec(n: nat): (v: Vec)
    ensures |v| == n
  {
    seq(n, i requires 0 <= i < n => 0.0)
  }

  function ZeroMat(rows: nat, cols: nat): (m: Mat)
    ensures IsMat(m, rows, cols)
  {
    var m := seq(rows, i requires 0 <= i < rows => ZeroVec(cols));
    assert forall i :: 0 <= i < rows ==> m[i] == ZeroVec(cols);
    m
  }

  function Dot(a: Vec, b: Vec): real
    requires |a| == |b|
  {
    if a == [] then 0.0 else a[0] * b[0] + Dot(a[1..], b[1..])
  }

  function Scale(c: real, a: Vec): (r: Vec)
    ensures |r| == |a|
  {
    seq(|a|, i requires 0 <= i < |a| => c * a[i])
  }

  function Plus(a: Vec, b: Vec): (r: Vec)
    requires |a| == |b|
    ensures |r| == |a|
  {
    seq(|a|, i requires 0 <= i < |a| => a[i] + b[i])
  }

  predicate IsMat(m: Mat, rows: nat, cols: nat) {
    |m| == rows && forall i :: 0 <= i < rows ==> |m[i]| == cols
  }

  // ---------------------------------------------------------------- the delta rule, one head, one step

  /** delta: what the write puts along the key. */
  function Correction(v: real, read: real, beta: real): real { (v - read) * beta }

  /** One state row: decay it, read it with the key, and write the corrected value back along the key. */
  function RowStep(s: Vec, k: Vec, v: real, decay: real, beta: real): (r: Vec)
    requires |s| == |k|
    ensures |r| == |s|
  {
    var decayed := Scale(decay, s);
    Plus(decayed, Scale(Correction(v, Dot(decayed, k), beta), k))
  }

  function HeadStep(s: Mat, k: Vec, v: Vec, decay: real, beta: real): (r: Mat)
    requires IsMat(s, |v|, |k|)
    ensures IsMat(r, |v|, |k|)
  {
    seq(|v|, i requires 0 <= i < |v| => RowStep(s[i], k, v[i], decay, beta))
  }

  function HeadRead(s: Mat, q: Vec, rows: nat): (y: Vec)
    requires IsMat(s, rows, |q|)
    ensures |y| == rows
  {
    seq(rows, i requires 0 <= i < rows => Dot(s[i], q))
  }

  lemma {:induction false} DotScale(c: real, a: Vec, k: Vec)
    requires |a| == |k|
    ensures Dot(Scale(c, a), k) == c * Dot(a, k)
    decreases |a|
  {
    if a != [] {
      forall i | 0 <= i < |a| - 1
        ensures Scale(c, a)[1..][i] == Scale(c, a[1..])[i]
      {
        assert a[1..][i] == a[i + 1];
      }
      assert Scale(c, a)[1..] == Scale(c, a[1..]);
      DotScale(c, a[1..], k[1..]);
      Distribute(c, a[0], k[0], Dot(a[1..], k[1..]));
    }
  }

  lemma Distribute(c: real, a: real, k: real, d: real)
    ensures (c * a) * k + c * d == c * (a * k + d)
  {
  }

  lemma {:induction false} DotPlus(a: Vec, b: Vec, k: Vec)
    requires |a| == |b| == |k|
    ensures Dot(Plus(a, b), k) == Dot(a, k) + Dot(b, k)
    decreases |a|
  {
    if a != [] {
      assert Plus(a, b)[1..] == Plus(a[1..], b[1..]);
      DotPlus(a[1..], b[1..], k[1..]);
      assert (a[0] + b[0]) * k[0] == a[0] * k[0] + b[0] * k[0];
    }
  }

  /** What the write is for: reading the new state with the key just written gives the value, mixed
      with the decayed old reading by beta times the key's squared length. */
  lemma ReadsBack(s: Vec, k: Vec, v: real, decay: real, beta: real)
    requires |s| == |k|
    ensures
      var weight := beta * Dot(k, k);
      Dot(RowStep(s, k, v, decay, beta), k) == (1.0 - weight) * (decay * Dot(s, k)) + weight * v
  {
    hide Dot;
    hide Plus;
    hide Scale;
    hide Correction;
    var decayed := Scale(decay, s);
    var c := Correction(v, Dot(decayed, k), beta);
    assert RowStep(s, k, v, decay, beta) == Plus(decayed, Scale(c, k));
    DotPlus(decayed, Scale(c, k), k);
    DotScale(c, k, k);
    DotScale(decay, s, k);
    Mix(Dot(RowStep(s, k, v, decay, beta), k), Dot(decayed, k), Dot(Scale(c, k), k), decay * Dot(s, k), v, beta, Dot(k, k));
  }

  lemma Mix(total: real, prior: real, part: real, was: real, v: real, beta: real, kk: real)
    requires total == prior + part && prior == was && part == Correction(v, prior, beta) * kk
    ensures
      var weight := beta * kk;
      total == (1.0 - weight) * was + weight * v
  {
  }

  // ---------------------------------------------------------------- one linear layer

  /** A layer's sizes and weights; what acts on one position at a time is a function of it. */
  datatype Linear = Linear(
    kernel: nat, keyHeads: nat, rep: nat, keyDim: nat, valueDim: nat,
    weight: seq<Vec>,
    project: Hidden -> Vec,
    silu: real -> real,
    normQ: Vec -> Vec,
    normK: Vec -> Vec,
    decay: Hidden -> Vec,
    beta: Hidden -> Vec,
    emit: (Mat, Hidden) -> Hidden)

  function Heads(l: Linear): nat { l.keyHeads * l.rep }
  function KeySize(l: Linear): nat { l.keyHeads * l.keyDim }
  function ConvDim(l: Linear): nat { 2 * KeySize(l) + Heads(l) * l.valueDim }

  ghost predicate LinearOk(l: Linear) {
    && 0 < l.kernel && 0 < l.rep && IsMat(l.weight, ConvDim(l), l.kernel)
    && (forall x :: |l.project(x)| == ConvDim(l) && |l.decay(x)| == |l.beta(x)| == Heads(l))
    && forall v :: |l.normQ(v)| == |v| && |l.normK(v)| == |v|
  }

  /** The last kernel - 1 convolution inputs, and one matrix a head. */
  datatype LinState = LinState(conv: seq<Vec>, recur: seq<Mat>)

  ghost predicate StateOk(l: Linear, st: LinState)
    requires 0 < l.kernel
  {
    && IsMat(st.conv, l.kernel - 1, ConvDim(l))
    && |st.recur| == Heads(l) && forall h :: 0 <= h < |st.recur| ==> IsMat(st.recur[h], l.valueDim, l.keyDim)
  }

  function ZeroRecur(l: Linear): (r: seq<Mat>)
    ensures |r| == Heads(l) && forall h :: 0 <= h < |r| ==> IsMat(r[h], l.valueDim, l.keyDim)
  {
    var r := seq(Heads(l), h requires 0 <= h < Heads(l) => ZeroMat(l.valueDim, l.keyDim));
    assert forall h :: 0 <= h < Heads(l) ==> r[h] == ZeroMat(l.valueDim, l.keyDim);
    r
  }

  function Fresh(l: Linear): (st: LinState)
    requires 0 < l.kernel
    ensures StateOk(l, st)
  {
    LinState(ZeroMat(l.kernel - 1, ConvDim(l)), ZeroRecur(l))
  }

  /** A padded position enters the convolution as zeros. */
  function ConvInput(l: Linear, x: Hidden, valid: bool): Vec {
    if valid then l.project(x) else ZeroVec(ConvDim(l))
  }

  function Channel(window: seq<Vec>, c: nat): (v: Vec)
    requires forall j :: 0 <= j < |window| ==> c < |window[j]|
    ensures |v| == |window|
  {
    seq(|window|, j requires 0 <= j < |window| => window[j][c])
  }

  /** The depthwise convolution at one position, then SiLU. */
  function ConvOut(l: Linear, window: seq<Vec>): (v: Vec)
    requires LinearOk(l) && IsMat(window, l.kernel, ConvDim(l))
    ensures |v| == ConvDim(l)
  {
    seq(ConvDim(l), c requires 0 <= c < ConvDim(l) => l.silu(Dot(l.weight[c], Channel(window, c))))
  }

  lemma HeadFits(l: Linear, h: nat)
    requires h < Heads(l) && 0 < l.rep
    ensures 0 <= h / l.rep < l.keyHeads
    ensures (h / l.rep) * l.keyDim + l.keyDim <= KeySize(l) && h * l.valueDim + l.valueDim <= Heads(l) * l.valueDim
  {
    var g := h / l.rep;
    assert g * l.rep <= h < l.keyHeads * l.rep;
    if g >= l.keyHeads {
      Monotone(l.keyHeads, g, l.rep);
    }
    Monotone(g + 1, l.keyHeads, l.keyDim);
    Monotone(h + 1, Heads(l), l.valueDim);
    assert (g + 1) * l.keyDim == g * l.keyDim + l.keyDim && (h + 1) * l.valueDim == h * l.valueDim + l.valueDim;
  }

  lemma Monotone(a: nat, b: nat, c: nat)
    ensures a <= b ==> a * c <= b * c
  {
  }

  /** Head h's query, key and value; every key head serves `rep` value heads. */
  function Query(l: Linear, c: Vec, h: nat): (v: Vec)
    requires LinearOk(l) && |c| == ConvDim(l) && h < Heads(l)
    ensures |v| == l.keyDim
  {
    HeadFits(l, h);
    var at := (h / l.rep) * l.keyDim;
    l.normQ(c[at..at + l.keyDim])
  }

  function Key(l: Linear, c: Vec, h: nat): (v: Vec)
    requires LinearOk(l) && |c| == ConvDim(l) && h < Heads(l)
    ensures |v| == l.keyDim
  {
    HeadFits(l, h);
    var at := KeySize(l) + (h / l.rep) * l.keyDim;
    l.normK(c[at..at + l.keyDim])
  }

  function Value(l: Linear, c: Vec, h: nat): (v: Vec)
    requires LinearOk(l) && |c| == ConvDim(l) && h < Heads(l)
    ensures |v| == l.valueDim
  {
    HeadFits(l, h);
    var at := 2 * KeySize(l) + h * l.valueDim;
    c[at..at + l.valueDim]
  }

  /** The recurrent state after a position. */
  function Advanced(l: Linear, recur: seq<Mat>, c: Vec, x: Hidden): (r: seq<Mat>)
    requires LinearOk(l) && |c| == ConvDim(l)
    requires |recur| == Heads(l) && forall h :: 0 <= h < |recur| ==> IsMat(recur[h], l.valueDim, l.keyDim)
    ensures |r| == Heads(l) && forall h :: 0 <= h < |r| ==> IsMat(r[h], l.valueDim, l.keyDim)
  {
    seq(Heads(l), h requires 0 <= h < Heads(l) => HeadStep(recur[h], Key(l, c, h), Value(l, c, h), l.decay(x)[h], l.beta(x)[h]))
  }

  function ReadAll(l: Linear, recur: seq<Mat>, c: Vec): (y: Mat)
    requires LinearOk(l) && |c| == ConvDim(l)
    requires |recur| == Heads(l) && forall h :: 0 <= h < |recur| ==> IsMat(recur[h], l.valueDim, l.keyDim)
    ensures |y| == Heads(l)
  {
    seq(|recur|, h requires 0 <= h < |recur| => HeadRead(recur[h], Query(l, c, h), l.valueDim))
  }

  function Readings(l: Linear, recur: seq<Mat>, c: Vec, valid: bool): Mat
    requires LinearOk(l) && |c| == ConvDim(l)
    requires |recur| == Heads(l) && forall h :: 0 <= h < |recur| ==> IsMat(recur[h], l.valueDim, l.keyDim)
  {
    if valid then ReadAll(l, recur, c) else ZeroMat(Heads(l), l.valueDim)
  }

  /** One position, on its own: the convolution window slides by one and the state takes one step; a
      padded position leaves the recurrence alone and reads zeros. */
  function LinearStep(l: Linear, st: LinState, x: Hidden, valid: bool): (r: (LinState, Hidden))
    requires LinearOk(l) && StateOk(l, st)
    ensures StateOk(l, r.0)
  {
    var window := st.conv + [ConvInput(l, x, valid)];
    var c := ConvOut(l, window);
    var next := if valid then Advanced(l, st.recur, c, x) else st.recur;
    (LinState(window[1..], next), l.emit(Readings(l, next, c, valid), x))
  }

  // ---------------------------------------------------------------- what one position does, written out

  /** The first `n` taps of channel `ch`: the carried inputs, oldest first, then this position's. */
  function Taps(l: Linear, before: seq<Vec>, now: Vec, ch: nat, n: nat): real
    requires LinearOk(l) && IsMat(before, l.kernel - 1, ConvDim(l)) && |now| == ConvDim(l) && ch < ConvDim(l) && n <= l.kernel
  {
    if n == 0 then 0.0
    else Taps(l, before, now, ch, n - 1) + l.weight[ch][n - 1] * if n == l.kernel then now[ch] else before[n - 1][ch]
  }

  lemma {:induction false} DotSnoc(a: Vec, b: Vec, x: real, y: real)
    requires |a| == |b|
    ensures Dot(a + [x], b + [y]) == Dot(a, b) + x * y
    decreases |a|
  {
    if a == [] {
      assert [x][1..] == [] && [y][1..] == [] && a + [x] == [x] && b + [y] == [y];
    } else {
      assert (a + [x])[1..] == a[1..] + [x] && (b + [y])[1..] == b[1..] + [y];
      DotSnoc(a[1..], b[1..], x, y);
    }
  }

  lemma {:induction false} TapsAreDot(l: Linear, before: seq<Vec>, now: Vec, ch: nat, n: nat)
    requires LinearOk(l) && IsMat(before, l.kernel - 1, ConvDim(l)) && |now| == ConvDim(l) && ch < ConvDim(l) && n <= l.kernel
    ensures Dot(l.weight[ch][..n], Channel(before + [now], ch)[..n]) == Taps(l, before, now, ch, n)
    decreases n
  {
    if n > 0 {
      var w, x := l.weight[ch], Channel(before + [now], ch);
      TapsAreDot(l, before, now, ch, n - 1);
      DotSnoc(w[..n - 1], x[..n - 1], w[n - 1], x[n - 1]);
      assert w[..n] == w[..n - 1] + [w[n - 1]] && x[..n] == x[..n - 1] + [x[n - 1]];
    }
  }

  lemma ConvIsTaps(l: Linear, before: seq<Vec>, now: Vec)
    requires LinearOk(l) && IsMat(before, l.kernel - 1, ConvDim(l)) && |now| == ConvDim(l)
    ensures IsMat(before + [now], l.kernel, ConvDim(l))
    ensures forall ch :: 0 <= ch < ConvDim(l) ==> ConvOut(l, before + [now])[ch] == l.silu(Taps(l, before, now, ch, l.kernel))
  {
    forall ch | 0 <= ch < ConvDim(l)
      ensures ConvOut(l, before + [now])[ch] == l.silu(Taps(l, before, now, ch, l.kernel))
    {
      var x := Channel(before + [now], ch);
      TapsAreDot(l, before, now, ch, l.kernel);
      assert l.weight[ch][..l.kernel] == l.weight[ch] && x[..l.kernel] == x;
    }
  }

  /** The delta rule on one state row: against the key, the new row reads the decayed old reading mixed with the value
      by beta; across the key, the old reading decayed; and the query reads the new row. */
  ghost predicate RowRule(was: Vec, now: Vec, q: Vec, k: Vec, v: real, decay: real, beta: real, y: real) {
    && |was| == |now| == |q| == |k|
    && Dot(now, k) == (1.0 - beta * Dot(k, k)) * (decay * Dot(was, k)) + beta * Dot(k, k) * v
    && (forall u: Vec :: |u| == |k| && Dot(k, u) == 0.0 ==> Dot(now, u) == decay * Dot(was, u))
    && y == Dot(now, q)
  }

  /** `n` entries of `c` from `at`. */
  function Cut(c: Vec, at: int, n: nat): Vec {
    if 0 <= at && at + n <= |c| then c[at..at + n] else []
  }

  /** The delta rule of head `h`. The convolution's output `c` holds every key head's query, then every key head's key,
      then every head's value; head `h` uses key head h / rep. */
  ghost predicate DeltaRule(l: Linear, c: Vec, h: nat, decay: real, beta: real, was: Mat, now: Mat, y: Vec)
    requires 0 < l.rep
  {
    var keys, at := l.keyHeads * l.keyDim, h / l.rep * l.keyDim;
    var q, k, v := l.normQ(Cut(c, at, l.keyDim)), l.normK(Cut(c, keys + at, l.keyDim)), Cut(c, 2 * keys + h * l.valueDim, l.valueDim);
    && |was| == |now| == |y| == |v| == l.valueDim && |q| == |k| == l.keyDim
    && forall i :: 0 <= i < l.valueDim ==> RowRule(was[i], now[i], q, k, v[i], decay, beta, y[i])
  }

  /** Across the key, a row is only decayed. */
  lemma DecaysAcross(s: Vec, k: Vec, v: real, decay: real, beta: real, u: Vec)
    requires |s| == |k| == |u| && Dot(k, u) == 0.0
    ensures Dot(RowStep(s, k, v, decay, beta), u) == decay * Dot(s, u)
  {
    hide Dot;
    hide Plus;
    hide Scale;
    hide Correction;
    var decayed := Scale(decay, s);
    var w := Correction(v, Dot(decayed, k), beta);
    assert RowStep(s, k, v, decay, beta) == Plus(decayed, Scale(w, k));
    DotPlus(decayed, Scale(w, k), u);
    DotScale(w, k, u);
    DotScale(decay, s, u);
  }

  lemma RowFollows(s: Vec, q: Vec, k: Vec, v: real, decay: real, beta: real)
    requires |s| == |q| == |k|
    ensures
      var now := RowStep(s, k, v, decay, beta);
      RowRule(s, now, q, k, v, decay, beta, Dot(now, q))
  {
    hide Dot;
    hide RowStep;
    ReadsBack(s, k, v, decay, beta);
    forall u: Vec | |u| == |k| && Dot(k, u) == 0.0
      ensures Dot(RowStep(s, k, v, decay, beta), u) == decay * Dot(s, u)
    {
      DecaysAcross(s, k, v, decay, beta, u);
    }
  }

  lemma HeadRule(l: Linear, c: Vec, x: Hidden, recur: seq<Mat>, h: nat)
    requires LinearOk(l) && |c| == ConvDim(l) && h < Heads(l)
    requires |recur| == Heads(l) && forall h :: 0 <= h < |recur| ==> IsMat(recur[h], l.valueDim, l.keyDim)
    ensures
      var next := Advanced(l, recur, c, x);
      DeltaRule(l, c, h, l.decay(x)[h], l.beta(x)[h], recur[h], next[h], ReadAll(l, next, c)[h])
  {
    var next := Advanced(l, recur, c, x);
    var q, k, v := Query(l, c, h), Key(l, c, h), Value(l, c, h);
    HeadStepRule(recur[h], q, k, v, l.decay(x)[h], l.beta(x)[h]);
    HeadCuts(l, c, h);
    hide Cut;
    hide Query;
    hide Key;
    hide Value;
    hide RowRule;
    hide HeadStep;
    hide HeadRead;
    hide LinearOk;
  }

  lemma HeadStepRule(s: Mat, q: Vec, k: Vec, v: Vec, decay: real, beta: real)
    requires IsMat(s, |v|, |k|) && |q| == |k|
    ensures
      var now := HeadStep(s, k, v, decay, beta);
      forall i :: 0 <= i < |v| ==> RowRule(s[i], now[i], q, k, v[i], decay, beta, HeadRead(now, q, |v|)[i])
  {
    hide RowRule;
    hide RowStep;
    hide Dot;
    forall i | 0 <= i < |v|
      ensures RowRule(s[i], RowStep(s[i], k, v[i], decay, beta), q, k, v[i], decay, beta, Dot(RowStep(s[i], k, v[i], decay, beta), q))
    {
      RowFollows(s[i], q, k, v[i], decay, beta);
    }
  }

  /** Where a head's query, key and value sit in the convolution's output. */
  lemma HeadCuts(l: Linear, c: Vec, h: nat)
    requires LinearOk(l) && |c| == ConvDim(l) && h < Heads(l)
    ensures
      var keys, at := l.keyHeads * l.keyDim, h / l.rep * l.keyDim;
      && Query(l, c, h) == l.normQ(Cut(c, at, l.keyDim)) && Key(l, c, h) == l.normK(Cut(c, keys + at, l.keyDim))
      && Value(l, c, h) == Cut(c, 2 * keys + h * l.valueDim, l.valueDim)
  {
    HeadFits(l, h);
    QueryCut(l, c, h);
    KeyCut(l, c, h);
    ValueCut(l, c, h);
    hide *;
  }

  lemma QueryCut(l: Linear, c: Vec, h: nat)
    requires LinearOk(l) && |c| == ConvDim(l) && h < Heads(l)
    ensures Query(l, c, h) == l.normQ(Cut(c, h / l.rep * l.keyDim, l.keyDim))
  {
    HeadFits(l, h);
    hide LinearOk;
  }

  lemma KeyCut(l: Linear, c: Vec, h: nat)
    requires LinearOk(l) && |c| == ConvDim(l) && h < Heads(l)
    ensures Key(l, c, h) == l.normK(Cut(c, l.keyHeads * l.keyDim + h / l.rep * l.keyDim, l.keyDim))
  {
    HeadFits(l, h);
    hide LinearOk;
    hide Heads;
    hide ConvDim;
    KeyAtIs(l, c, h);
  }

  lemma KeyAtIs(l: Linear, c: Vec, h: nat)
    requires LinearOk(l) && |c| == ConvDim(l) && h < Heads(l)
    ensures Key(l, c, h) == l.normK(Cut(c, KeySize(l) + (h / l.rep) * l.keyDim, l.keyDim))
  {
    HeadFits(l, h);
    TwoKeys(l);
    hide LinearOk;
    hide Heads;
    hide KeySize;
    hide ConvDim;
    hide Cut;
    CutIs(c, KeySize(l) + (h / l.rep) * l.keyDim, l.keyDim);
  }

  lemma CutIs(c: Vec, at: nat, n: nat)
    requires at + n <= |c|
    ensures Cut(c, at, n) == c[at..at + n]
  {
  }

  lemma TwoKeys(l: Linear)
    ensures 0 <= KeySize(l) && 2 * KeySize(l) <= ConvDim(l)
  {
  }

  lemma ValueCut(l: Linear, c: Vec, h: nat)
    requires LinearOk(l) && |c| == ConvDim(l) && h < Heads(l)
    ensures Value(l, c, h) == Cut(c, 2 * (l.keyHeads * l.keyDim) + h * l.valueDim, l.valueDim)
  {
    HeadFits(l, h);
    hide LinearOk;
  }

  /** One real position of a linear layer: the convolution over the carried inputs and this one, then every head's
      delta rule with that head's own gates, key, value and query; what it emits is read from the new state. */
  lemma RealPosition(l: Linear, st: LinState, x: Hidden) returns (c: Vec, y: Mat)
    requires LinearOk(l) && StateOk(l, st)
    ensures |c| == ConvDim(l) == 2 * (l.keyHeads * l.keyDim) + l.keyHeads * l.rep * l.valueDim
    ensures forall ch :: 0 <= ch < |c| ==> c[ch] == l.silu(Taps(l, st.conv, l.project(x), ch, l.kernel))
    ensures
      var r := LinearStep(l, st, x, true);
      && r.0.conv == (st.conv + [l.project(x)])[1..] && r.1 == l.emit(y, x) && |y| == l.keyHeads * l.rep
      && forall h :: 0 <= h < l.keyHeads * l.rep ==>
           DeltaRule(l, c, h, l.decay(x)[h], l.beta(x)[h], st.recur[h], r.0.recur[h], y[h])
  {
    ConvIsTaps(l, st.conv, l.project(x));
    c := ConvOut(l, st.conv + [l.project(x)]);
    var next := Advanced(l, st.recur, c, x);
    y := ReadAll(l, next, c);
    forall h | 0 <= h < Heads(l)
      ensures DeltaRule(l, c, h, l.decay(x)[h], l.beta(x)[h], st.recur[h], next[h], y[h])
    {
      HeadRule(l, c, x, st.recur, h);
    }
    hide DeltaRule;
    hide Advanced;
    hide ReadAll;
    hide ConvOut;
    hide Taps;
  }

  /** A padded position: the convolution takes in zeros, the recurrence is frozen, and zeros are read. */
  lemma PaddedPosition(l: Linear, st: LinState, x: Hidden) returns (y: Mat)
    requires LinearOk(l) && StateOk(l, st)
    ensures |y| == l.keyHeads * l.rep
    ensures forall h, i :: 0 <= h < |y| && 0 <= i < l.valueDim ==> |y[h]| == l.valueDim && y[h][i] == 0.0
    ensures
      var r := LinearStep(l, st, x, false);
      && r.0.recur == st.recur && r.1 == l.emit(y, x) && |r.0.conv| == l.kernel - 1
      && (forall j :: 0 <= j < l.kernel - 2 ==> r.0.conv[j] == st.conv[j + 1])
      && (1 < l.kernel ==> r.0.conv[l.kernel - 2] == seq(ConvDim(l), ch requires 0 <= ch < ConvDim(l) => 0.0))
  {
    y := ZeroMat(Heads(l), l.valueDim);
    ZerosOnly(Heads(l), l.valueDim);
    hide ConvOut;
    hide ZeroMat;
    assert (st.conv + [ZeroVec(ConvDim(l))])[1..] == LinearStep(l, st, x, false).0.conv;
  }

  lemma ZerosOnly(rows: nat, cols: nat)
    ensures forall i, j :: 0 <= i < rows && 0 <= j < cols ==> ZeroMat(rows, cols)[i][j] == 0.0
  {
    assert forall i :: 0 <= i < rows ==> ZeroMat(rows, cols)[i] == ZeroVec(cols);
  }

  /** A row with no history starts from zeros. */
  lemma FreshIsZero(l: Linear)
    requires LinearOk(l)
    ensures forall j, ch :: 0 <= j < l.kernel - 1 && 0 <= ch < ConvDim(l) ==> Fresh(l).conv[j][ch] == 0.0
    ensures forall h, i, d :: 0 <= h < Heads(l) && 0 <= i < l.valueDim && 0 <= d < l.keyDim ==> Fresh(l).recur[h][i][d] == 0.0
  {
    ZerosOnly(l.kernel - 1, ConvDim(l));
    ZerosOnly(l.valueDim, l.keyDim);
    hide ZeroMat;
  }

  // ---------------------------------------------------------------- layers

  /** A full-attention layer is a causal function of the row's own real positions; at a padded position
      its attention is zeroed. */
  datatype Layer = Lin(linear: Linear) | Attn(attend: seq<Hidden> -> Hidden, skip: Hidden -> Hidden)

  /** A linear layer carries its state, an attention layer the row's real inputs so far (its K/V). */
  datatype LayerState = LinS(lin: LinState) | AttnS(seen: seq<Hidden>)

  ghost predicate LayerOk(layer: Layer) { layer.Lin? ==> LinearOk(layer.linear) }

  ghost predicate Fits(layer: Layer, st: LayerState)
    requires LayerOk(layer)
  {
    match layer
    case Lin(l) => st.LinS? && StateOk(l, st.lin)
    case Attn(_, _) => st.AttnS?
  }

  function Empty(layer: Layer): (st: LayerState)
    requires LayerOk(layer)
    ensures Fits(layer, st)
  {
    match layer
    case Lin(l) => LinS(Fresh(l))
    case Attn(_, _) => AttnS([])
  }

  function Step(layer: Layer, st: LayerState, x: Hidden, valid: bool): (r: (LayerState, Hidden))
    requires LayerOk(layer) && Fits(layer, st)
    ensures Fits(layer, r.0)
  {
    match layer
    case Lin(l) =>
      var r := LinearStep(l, st.lin, x, valid);
      (LinS(r.0), r.1)
    case Attn(attend, skip) =>
      if valid then (AttnS(st.seen + [x]), attend(st.seen + [x])) else (st, skip(x))
  }

  /** Position by position. */
  function Run(layer: Layer, st: LayerState, xs: seq<Hidden>, mask: seq<bool>): (r: (LayerState, seq<Hidden>))
    requires LayerOk(layer) && Fits(layer, st) && |mask| == |xs|
    ensures Fits(layer, r.0) && |r.1| == |xs|
    decreases |xs|
  {
    if xs == [] then (st, [])
    else
      var (now, y) := Step(layer, st, xs[0], mask[0]);
      var (end, ys) := Run(layer, now, xs[1..], mask[1..]);
      (end, [y] + ys)
  }

  /** A chunk boundary changes nothing. */
  lemma {:induction false} RunSplit(layer: Layer, st: LayerState, a: seq<Hidden>, b: seq<Hidden>, ma: seq<bool>, mb: seq<bool>)
    requires LayerOk(layer) && Fits(layer, st) && |ma| == |a| && |mb| == |b|
    ensures
      var (mid, ys) := Run(layer, st, a, ma);
      var (end, zs) := Run(layer, mid, b, mb);
      Run(layer, st, a + b, ma + mb) == (end, ys + zs)
    decreases |a|
  {
    hide LayerOk;
    hide Fits;
    hide Step;
    if a == [] {
      assert a + b == b && ma + mb == mb;
      assert [] + Run(layer, st, b, mb).1 == Run(layer, st, b, mb).1;
    } else {
      var r := Step(layer, st, a[0], ma[0]);
      assert (a + b)[1..] == a[1..] + b && (ma + mb)[1..] == ma[1..] + mb;
      RunSplit(layer, r.0, a[1..], b, ma[1..], mb);
      var (mid, ys) := Run(layer, r.0, a[1..], ma[1..]);
      var (end, zs) := Run(layer, mid, b, mb);
      assert [r.1] + (ys + zs) == ([r.1] + ys) + zs;
    }
  }

  // ---------------------------------------------------------------- left padding

  function Kept<T>(xs: seq<T>, mask: seq<bool>): seq<T>
    requires |mask| == |xs|
  {
    if xs == [] then [] else (if mask[0] then [xs[0]] else []) + Kept(xs[1..], mask[1..])
  }

  function AllTrue(n: nat): (m: seq<bool>)
    ensures |m| == n
  {
    seq(n, i requires 0 <= i < n => true)
  }

  /** Padding first, then real positions. */
  predicate LeftPadded(mask: seq<bool>) {
    forall i, j :: 0 <= i < j < |mask| && mask[i] ==> mask[j]
  }

  lemma {:induction false} KeptAll<T>(xs: seq<T>, mask: seq<bool>)
    requires |mask| == |xs| && forall i :: 0 <= i < |mask| ==> mask[i]
    ensures Kept(xs, mask) == xs
    decreases |xs|
  {
    if xs != [] {
      KeptAll(xs[1..], mask[1..]);
    }
  }

  /** A padded position leaves an empty row empty. */
  lemma PadStep(layer: Layer, x: Hidden)
    requires LayerOk(layer)
    ensures Step(layer, Empty(layer), x, false).0 == Empty(layer)
  {
    if layer.Lin? {
      var l := layer.linear;
      var window := Fresh(l).conv + [ZeroVec(ConvDim(l))];
      assert window[1..] == Fresh(l).conv;
      hide Readings;
      hide ConvOut;
      hide ZeroMat;
    }
  }

  /** A left-padded row from empty states: the padding leaves no trace. */
  lemma {:induction false} RunPadded(layer: Layer, xs: seq<Hidden>, mask: seq<bool>)
    requires LayerOk(layer) && |mask| == |xs| && LeftPadded(mask)
    ensures
      var kept := Kept(xs, mask);
      var (end, ys) := Run(layer, Empty(layer), xs, mask);
      (end, Kept(ys, mask)) == Run(layer, Empty(layer), kept, AllTrue(|kept|))
    decreases |xs|
  {
    hide LayerOk;
    hide Step;
    hide Empty;
    hide Fits;
    if xs != [] {
      if mask[0] {
        assert forall j :: 0 <= j < |mask| ==> mask[j];
        var ys := Run(layer, Empty(layer), xs, mask).1;
        KeptAll(xs, mask);
        KeptAll(ys, mask);
        assert mask == AllTrue(|xs|);
      } else {
        PadStep(layer, xs[0]);
        RunPadded(layer, xs[1..], mask[1..]);
        var (end, ys) := Run(layer, Empty(layer), xs, mask);
        assert ys[1..] == Run(layer, Empty(layer), xs[1..], mask[1..]).1;
        assert Kept(ys, mask) == [] + Kept(ys[1..], mask[1..]) == Kept(ys[1..], mask[1..]);
        assert Kept(xs, mask) == [] + Kept(xs[1..], mask[1..]) == Kept(xs[1..], mask[1..]);
      }
    }
  }

  // ---------------------------------------------------------------- the stack of layers

  ghost predicate LayersOk(layers: seq<Layer>) { forall i :: 0 <= i < |layers| ==> LayerOk(layers[i]) }

  ghost predicate AllFit(layers: seq<Layer>, sts: seq<LayerState>)
    requires LayersOk(layers)
  {
    |sts| == |layers| && forall i :: 0 <= i < |layers| ==> Fits(layers[i], sts[i])
  }

  function AllEmpty(layers: seq<Layer>): (sts: seq<LayerState>)
    requires LayersOk(layers)
    ensures AllFit(layers, sts)
  {
    seq(|layers|, i requires 0 <= i < |layers| => Empty(layers[i]))
  }

  /** One call: every layer over the whole chunk, bottom to top. */
  function Stack(layers: seq<Layer>, sts: seq<LayerState>, xs: seq<Hidden>, mask: seq<bool>): (r: (seq<LayerState>, seq<Hidden>))
    requires LayersOk(layers) && AllFit(layers, sts) && |mask| == |xs|
    ensures AllFit(layers, r.0) && |r.1| == |xs|
    decreases |layers|
  {
    if layers == [] then ([], xs)
    else
      var (st, ys) := Run(layers[0], sts[0], xs, mask);
      var (rest, zs) := Stack(layers[1..], sts[1..], ys, mask);
      ([st] + rest, zs)
  }

  lemma {:induction false} StackSplit(layers: seq<Layer>, sts: seq<LayerState>, a: seq<Hidden>, b: seq<Hidden>, ma: seq<bool>, mb: seq<bool>)
    requires LayersOk(layers) && AllFit(layers, sts) && |ma| == |a| && |mb| == |b|
    ensures
      var (mid, ys) := Stack(layers, sts, a, ma);
      var (end, zs) := Stack(layers, mid, b, mb);
      Stack(layers, sts, a + b, ma + mb) == (end, ys + zs)
    decreases |layers|
  {
    hide LayerOk;
    hide Fits;
    hide Run;
    if layers != [] {
      RunSplit(layers[0], sts[0], a, b, ma, mb);
      var (s1, ys) := Run(layers[0], sts[0], a, ma);
      var (s2, zs) := Run(layers[0], s1, b, mb);
      StackSplit(layers[1..], sts[1..], ys, zs, ma, mb);
      var mid := Stack(layers, sts, a, ma).0;
      assert mid[0] == s1 && mid[1..] == Stack(layers[1..], sts[1..], ys, ma).0;
    }
  }

  lemma {:induction false} StackPadded(layers: seq<Layer>, xs: seq<Hidden>, mask: seq<bool>)
    requires LayersOk(layers) && |mask| == |xs| && LeftPadded(mask)
    ensures
      var kept := Kept(xs, mask);
      var (end, ys) := Stack(layers, AllEmpty(layers), xs, mask);
      (end, Kept(ys, mask)) == Stack(layers, AllEmpty(layers), kept, AllTrue(|kept|))
    decreases |layers|
  {
    hide LayerOk;
    hide Fits;
    hide Run;
    hide Empty;
    hide Kept;
    if layers != [] {
      RunPadded(layers[0], xs, mask);
      var ys := Run(layers[0], Empty(layers[0]), xs, mask).1;
      StackPadded(layers[1..], ys, mask);
      assert AllEmpty(layers)[1..] == AllEmpty(layers[1..]);
    }
  }

  // ---------------------------------------------------------------- chunks

  /** real_pos: a position is real when its absolute index is past the row's padding. */
  function RealPos(prev: nat, n: nat, padding: nat): (m: seq<bool>)
    ensures |m| == n
  {
    seq(n, s requires 0 <= s < n => prev + s >= padding)
  }

  function Joined(chunks: seq<seq<Hidden>>): seq<Hidden> {
    if chunks == [] then [] else chunks[0] + Joined(chunks[1..])
  }

  /** Chunk after chunk, the states and the write index carried along. */
  function Chunked(layers: seq<Layer>, sts: seq<LayerState>, chunks: seq<seq<Hidden>>, prev: nat, padding: nat): (r: (seq<LayerState>, seq<Hidden>))
    requires LayersOk(layers) && AllFit(layers, sts)
    ensures AllFit(layers, r.0) && |r.1| == |Joined(chunks)|
    decreases |chunks|
  {
    if chunks == [] then (sts, [])
    else
      var (mid, ys) := Stack(layers, sts, chunks[0], RealPos(prev, |chunks[0]|, padding));
      var (end, zs) := Chunked(layers, mid, chunks[1..], prev + |chunks[0]|, padding);
      (end, ys + zs)
  }

  lemma {:induction false} StackNothing(layers: seq<Layer>, sts: seq<LayerState>)
    requires LayersOk(layers) && AllFit(layers, sts)
    ensures Stack(layers, sts, [], []) == (sts, [])
    decreases |layers|
  {
    if layers != [] {
      StackNothing(layers[1..], sts[1..]);
      assert [sts[0]] + sts[1..] == sts;
    } else {
      assert sts == [];
    }
  }

  lemma {:induction false} ChunkedIsWhole(layers: seq<Layer>, sts: seq<LayerState>, chunks: seq<seq<Hidden>>, prev: nat, padding: nat)
    requires LayersOk(layers) && AllFit(layers, sts)
    ensures Chunked(layers, sts, chunks, prev, padding) == Stack(layers, sts, Joined(chunks), RealPos(prev, |Joined(chunks)|, padding))
    decreases |chunks|
  {
    hide LayersOk;
    hide AllFit;
    hide Stack;
    if chunks == [] {
      StackNothing(layers, sts);
      assert RealPos(prev, 0, padding) == [];
    } else {
      var n, rest := |chunks[0]|, Joined(chunks[1..]);
      var first, later := RealPos(prev, n, padding), RealPos(prev + n, |rest|, padding);
      var mid := Stack(layers, sts, chunks[0], first).0;
      ChunkedIsWhole(layers, mid, chunks[1..], prev + n, padding);
      StackSplit(layers, sts, chunks[0], rest, first, later);
      assert RealPos(prev, |Joined(chunks)|, padding) == first + later;
    }
  }

  lemma {:induction false} KeptTail<T>(xs: seq<T>, prev: nat, padding: nat)
    requires prev <= padding <= prev + |xs|
    ensures Kept(xs, RealPos(prev, |xs|, padding)) == xs[padding - prev..]
    decreases |xs|
  {
    var mask := RealPos(prev, |xs|, padding);
    if prev == padding {
      KeptAll(xs, mask);
    } else {
      assert mask[1..] == RealPos(prev + 1, |xs[1..]|, padding);
      KeptTail(xs[1..], prev + 1, padding);
      assert !mask[0] && Kept(xs, mask) == [] + Kept(xs[1..], mask[1..]) == Kept(xs[1..], mask[1..]);
    }
  }

  lemma PaddedOnLeft(prev: nat, n: nat, padding: nat)
    ensures LeftPadded(RealPos(prev, n, padding))
  {
  }

  /** A left-padded row cut into any chunks gives, at its real positions, what the unpadded sequence
      gives in one call, and ends in the same state; whatever the padding positions hold. */
  lemma PaddingAndChunksDoNotShow(layers: seq<Layer>, chunks: seq<seq<Hidden>>, padding: nat)
    requires LayersOk(layers) && padding <= |Joined(chunks)|
    ensures
      var xs := Joined(chunks)[padding..];
      var (end, ys) := Chunked(layers, AllEmpty(layers), chunks, 0, padding);
      (end, ys[padding..]) == Stack(layers, AllEmpty(layers), xs, AllTrue(|xs|))
  {
    hide *;
    var all := Joined(chunks);
    var mask := RealPos(0, |all|, padding);
    PaddedOnLeft(0, |all|, padding);
    ChunkedIsWhole(layers, AllEmpty(layers), chunks, 0, padding);
    StackPadded(layers, all, mask);
    KeptTail(all, 0, padding);
    KeptTail(Chunked(layers, AllEmpty(layers), chunks, 0, padding).1, 0, padding);
  }

  // ---------------------------------------------------------------- the code

  /** Where the row stands after its first `t` positions. */
  function Upto(l: Linear, st: LinState, xs: seq<Hidden>, mask: seq<bool>, t: nat): (r: (LayerState, seq<Hidden>))
    requires LinearOk(l) && StateOk(l, st) && |mask| == |xs| && t <= |xs|
    ensures r.0.LinS? && StateOk(l, r.0.lin) && |r.1| == t
  {
    Run(Lin(l), LinS(st), xs[..t], mask[..t])
  }

  lemma UptoNext(l: Linear, st: LinState, xs: seq<Hidden>, mask: seq<bool>, t: nat)
    requires LinearOk(l) && StateOk(l, st) && |mask| == |xs| && t < |xs|
    ensures
      var (now, ys) := Upto(l, st, xs, mask, t);
      var (next, y) := LinearStep(l, now.lin, xs[t], mask[t]);
      Upto(l, st, xs, mask, t + 1) == (LinS(next), ys + [y])
  {
    var layer := Lin(l);
    assert xs[..t + 1] == xs[..t] + [xs[t]] && mask[..t + 1] == mask[..t] + [mask[t]];
    RunSplit(layer, LinS(st), xs[..t], [xs[t]], mask[..t], [mask[t]]);
    OneStep(layer, Upto(l, st, xs, mask, t).0, xs[t], mask[t]);
    hide LinearOk;
    hide StateOk;
    hide LinearStep;
    hide Run;
  }

  lemma OneStep(layer: Layer, st: LayerState, x: Hidden, valid: bool)
    requires LayerOk(layer) && Fits(layer, st)
    ensures Run(layer, st, [x], [valid]) == (Step(layer, st, x, valid).0, [Step(layer, st, x, valid).1])
  {
    hide LayerOk;
    hide Fits;
    hide Step;
    var next := Step(layer, st, x, valid);
    assert [x][1..] == [] && [valid][1..] == [];
    assert Run(layer, next.0, [], []) == (next.0, []);
    assert [next.1] + [] == [next.1];
  }

  /** The inputs of the convolution: what was carried, then this call's positions. */
  ghost predicate Inputs(l: Linear, st: LinState, xs: seq<Hidden>, mask: seq<bool>, convIn: seq<Vec>)
    requires LinearOk(l) && StateOk(l, st) && |mask| == |xs|
  {
    && |convIn| == l.kernel - 1 + |xs|
    && convIn[..l.kernel - 1] == st.conv
    && (forall t :: 0 <= t < |xs| ==> convIn[l.kernel - 1 + t] == ConvInput(l, xs[t], mask[t]))
  }

  /** The window carried step by step is the slice of the whole call's inputs. */
  lemma {:induction false} WindowAt(l: Linear, st: LinState, xs: seq<Hidden>, mask: seq<bool>, convIn: seq<Vec>, t: nat)
    requires LinearOk(l) && StateOk(l, st) && |mask| == |xs| && Inputs(l, st, xs, mask, convIn) && t <= |xs|
    ensures Upto(l, st, xs, mask, t).0.lin.conv == convIn[t..t + (l.kernel - 1)]
    ensures t < |xs| ==> convIn[t..t + l.kernel] == convIn[t..t + (l.kernel - 1)] + [ConvInput(l, xs[t], mask[t])]
    decreases t
  {
    hide ConvOut;
    hide Advanced;
    hide Readings;
    hide ConvInput;
    hide LinearOk;
    if t == 0 {
      assert xs[..0] == [] && mask[..0] == [];
      assert convIn[0..l.kernel - 1] == convIn[..l.kernel - 1];
    } else {
      WindowAt(l, st, xs, mask, convIn, t - 1);
      UptoNext(l, st, xs, mask, t - 1);
      hide Upto;
      assert convIn[t - 1..t - 1 + l.kernel][1..] == convIn[t..t + (l.kernel - 1)];
    }
  }

  /** `c` is the convolution's output at position `t`. */
  ghost predicate Convolved(l: Linear, convIn: seq<Vec>, t: nat, c: Vec)
    requires LinearOk(l) && t + l.kernel <= |convIn|
  {
    var window := convIn[t..t + l.kernel];
    IsMat(window, l.kernel, ConvDim(l)) && c == ConvOut(l, window)
  }

  /** One head-by-head step of the recurrence over a whole call, in order; a padded step freezes it. */
  method Recur(l: Linear, ghost st: LinState, xs: seq<Hidden>, mask: seq<bool>, convIn: seq<Vec>, convOut: seq<Vec>, init: seq<Mat>)
    returns (ys: seq<Mat>, recur: seq<Mat>)
    requires LinearOk(l) && StateOk(l, st) && |mask| == |xs| == |convOut| && Inputs(l, st, xs, mask, convIn) && init == st.recur
    requires forall t :: 0 <= t < |xs| ==> t + l.kernel <= |convIn| && Convolved(l, convIn, t, convOut[t])
    ensures |ys| == |xs| && recur == Upto(l, st, xs, mask, |xs|).0.lin.recur
    ensures forall t :: 0 <= t < |xs| ==> l.emit(ys[t], xs[t]) == Upto(l, st, xs, mask, |xs|).1[t]
  {
    hide *;
    UptoNone(l, st, xs, mask);
    InputsLength(l, st, xs, mask, convIn);
    ys, recur := [], init;
    for t := 0 to |xs|
      invariant |ys| == t && recur == Upto(l, st, xs, mask, t).0.lin.recur
      invariant forall k :: 0 <= k < t ==> l.emit(ys[k], xs[k]) == Upto(l, st, xs, mask, t).1[k]
    {
      ConvolvedMeans(l, convIn, t, convOut[t]);
      StepIs(l, st, xs, mask, convIn, t);
      var prev := recur;
      recur := Advanced(l, recur, convOut[t], xs[t]);
      var y := ReadAll(l, recur, convOut[t]);
      if !mask[t] {
        recur := prev;
        y := ZeroMat(Heads(l), l.valueDim);
      }
      ys := ys + [y];
    }
  }

  lemma InputsLength(l: Linear, st: LinState, xs: seq<Hidden>, mask: seq<bool>, convIn: seq<Vec>)
    requires LinearOk(l) && StateOk(l, st) && |mask| == |xs| && Inputs(l, st, xs, mask, convIn)
    ensures 0 < l.kernel && |convIn| == l.kernel - 1 + |xs|
  {
  }

  lemma ConvolvedMeans(l: Linear, convIn: seq<Vec>, t: nat, c: Vec)
    requires LinearOk(l) && t + l.kernel <= |convIn| && Convolved(l, convIn, t, c)
    ensures 0 < l.kernel && IsMat(convIn[t..t + l.kernel], l.kernel, ConvDim(l)) && c == ConvOut(l, convIn[t..t + l.kernel])
  {
  }

  lemma UptoNone(l: Linear, st: LinState, xs: seq<Hidden>, mask: seq<bool>)
    requires LinearOk(l) && StateOk(l, st) && |mask| == |xs|
    ensures Upto(l, st, xs, mask, 0) == (LinS(st), [])
    ensures |st.recur| == Heads(l) && forall h :: 0 <= h < |st.recur| ==> IsMat(st.recur[h], l.valueDim, l.keyDim)
  {
  }

  lemma StepIs(l: Linear, st: LinState, xs: seq<Hidden>, mask: seq<bool>, convIn: seq<Vec>, t: nat)
    requires LinearOk(l) && StateOk(l, st) && |mask| == |xs| && Inputs(l, st, xs, mask, convIn) && t < |xs|
    requires IsMat(convIn[t..t + l.kernel], l.kernel, ConvDim(l))
    ensures
      var (now, ys) := Upto(l, st, xs, mask, t);
      var recur := now.lin.recur;
      && |recur| == Heads(l) && (forall h :: 0 <= h < |recur| ==> IsMat(recur[h], l.valueDim, l.keyDim))
      && var c := ConvOut(l, convIn[t..t + l.kernel]);
         var next := Upto(l, st, xs, mask, t + 1);
         if mask[t] then
           next.0.lin.recur == Advanced(l, recur, c, xs[t])
           && next.1 == ys + [l.emit(ReadAll(l, Advanced(l, recur, c, xs[t]), c), xs[t])]
         else next.0.lin.recur == recur && next.1 == ys + [l.emit(ZeroMat(Heads(l), l.valueDim), xs[t])]
  {
    UptoNext(l, st, xs, mask, t);
    WindowAt(l, st, xs, mask, convIn, t);
    hide Upto;
    hide ConvOut;
    hide Advanced;
    hide ReadAll;
    hide ConvInput;
    hide LinearOk;
    hide Inputs;
    hide ZeroMat;
    hide IsMat;
  }

  /** linear_attention_impl: project every position, convolve over [carried ; this call], recur, emit. */
  method LinearAttention(l: Linear, xs: seq<Hidden>, initConv: Option<seq<Vec>>, initRecur: Option<seq<Mat>>, mask: seq<bool>)
    returns (out: seq<Hidden>, outConv: seq<Vec>, outRecur: seq<Mat>)
    requires LinearOk(l) && |mask| == |xs| && StateOk(l, Initial(l, initConv, initRecur))
    ensures (LinS(LinState(outConv, outRecur)), out) == Run(Lin(l), LinS(Initial(l, initConv, initRecur)), xs, mask)
  {
    hide *;
    SizesOk(l, initConv, initRecur);
    ghost var st := Initial(l, initConv, initRecur);
    var qkv := [];
    for t := 0 to |xs|
      invariant |qkv| == t && forall k :: 0 <= k < t ==> qkv[k] == ConvInput(l, xs[k], mask[k])
    {
      ConvInputIs(l, xs[t], mask[t]);
      qkv := qkv + [if mask[t] then l.project(xs[t]) else ZeroVec(ConvDim(l))];
    }
    var convState := if initConv.Some? then initConv.value else ZeroMat(l.kernel - 1, ConvDim(l));
    var convIn := convState + qkv;
    InputsAre(l, st, xs, mask, qkv);
    outConv := convIn[|xs|..|xs| + l.kernel - 1];
    var convOut := [];
    for t := 0 to |xs|
      invariant |convOut| == t && forall k :: 0 <= k < t ==> k + l.kernel <= |convIn| && Convolved(l, convIn, k, convOut[k])
    {
      WindowOk(l, st, xs, mask, convIn, t);
      convOut := convOut + [ConvOut(l, convIn[t..t + l.kernel])];
    }
    var recur0 := if initRecur.Some? then initRecur.value else ZeroRecur(l);
    var ys, recur := Recur(l, st, xs, mask, convIn, convOut, recur0);
    outRecur := recur;
    out := [];
    for t := 0 to |xs|
      invariant |out| == t && forall k :: 0 <= k < t ==> out[k] == Upto(l, st, xs, mask, |xs|).1[k]
    {
      out := out + [l.emit(ys[t], xs[t])];
    }
    WindowAt(l, st, xs, mask, convIn, |xs|);
    UptoAll(l, st, xs, mask);
    assert Upto(l, st, xs, mask, |xs|).0.lin == LinState(outConv, outRecur) && Upto(l, st, xs, mask, |xs|).1 == out;
  }

  function Initial(l: Linear, conv: Option<seq<Vec>>, recur: Option<seq<Mat>>): LinState
    requires 0 < l.kernel
  {
    LinState(if conv.Some? then conv.value else ZeroMat(l.kernel - 1, ConvDim(l)), if recur.Some? then recur.value else ZeroRecur(l))
  }

  lemma SizesOk(l: Linear, conv: Option<seq<Vec>>, recur: Option<seq<Mat>>)
    requires LinearOk(l)
    ensures 0 < l.kernel
    ensures
      var st := Initial(l, conv, recur);
      && st.conv == (if conv.Some? then conv.value else ZeroMat(l.kernel - 1, ConvDim(l)))
      && st.recur == (if recur.Some? then recur.value else ZeroRecur(l))
      && (StateOk(l, st) ==> |st.conv| == l.kernel - 1)
  {
    hide ZeroMat;
    hide ZeroRecur;
  }

  lemma ConvInputIs(l: Linear, x: Hidden, valid: bool)
    ensures ConvInput(l, x, valid) == if valid then l.project(x) else ZeroVec(ConvDim(l))
  {
  }

  lemma InputsAre(l: Linear, st: LinState, xs: seq<Hidden>, mask: seq<bool>, qkv: seq<Vec>)
    requires LinearOk(l) && StateOk(l, st) && |mask| == |xs| == |qkv|
    requires forall k :: 0 <= k < |qkv| ==> qkv[k] == ConvInput(l, xs[k], mask[k])
    ensures Inputs(l, st, xs, mask, st.conv + qkv) && |st.conv + qkv| == l.kernel - 1 + |xs|
  {
    hide ConvInput;
  }

  lemma WindowOk(l: Linear, st: LinState, xs: seq<Hidden>, mask: seq<bool>, convIn: seq<Vec>, t: nat)
    requires LinearOk(l) && StateOk(l, st) && |mask| == |xs| && Inputs(l, st, xs, mask, convIn) && t < |xs|
    ensures t + l.kernel <= |convIn| && IsMat(convIn[t..t + l.kernel], l.kernel, ConvDim(l))
    ensures Convolved(l, convIn, t, ConvOut(l, convIn[t..t + l.kernel]))
  {
    var window := convIn[t..t + l.kernel];
    forall j | 0 <= j < |window|
      ensures |window[j]| == ConvDim(l)
    {
      var at := t + j;
      if at < l.kernel - 1 {
        assert convIn[at] == convIn[..l.kernel - 1][at] == st.conv[at];
      } else {
        assert convIn[l.kernel - 1 + (at - (l.kernel - 1))] == ConvInput(l, xs[at - (l.kernel - 1)], mask[at - (l.kernel - 1)]);
      }
    }
    hide ConvOut;
  }

  lemma UptoAll(l: Linear, st: LinState, xs: seq<Hidden>, mask: seq<bool>)
    requires LinearOk(l) && StateOk(l, st) && |mask| == |xs|
    ensures Upto(l, st, xs, mask, |xs|) == Run(Lin(l), LinS(st), xs, mask)
  {
    assert xs[..|xs|] == xs && mask[..|xs|] == mask;
    hide Run;
  }

  /** A full-attention layer over one chunk. */
  method Attention(attend: seq<Hidden> -> Hidden, skip: Hidden -> Hidden, before: seq<Hidden>, xs: seq<Hidden>, mask: seq<bool>)
    returns (out: seq<Hidden>, seen: seq<Hidden>)
    requires |mask| == |xs|
    ensures (AttnS(seen), out) == Run(Attn(attend, skip), AttnS(before), xs, mask)
  {
    var layer := Attn(attend, skip);
    hide Run;
    out, seen := [], before;
    RunNone(layer, AttnS(before));
    for t := 0 to |xs|
      invariant (AttnS(seen), out) == Run(layer, AttnS(before), xs[..t], mask[..t])
    {
      assert xs[..t + 1] == xs[..t] + [xs[t]] && mask[..t + 1] == mask[..t] + [mask[t]];
      RunSplit(layer, AttnS(before), xs[..t], [xs[t]], mask[..t], [mask[t]]);
      OneStep(layer, AttnS(seen), xs[t], mask[t]);
      if mask[t] {
        seen := seen + [xs[t]];
        out := out + [attend(seen)];
      } else {
        out := out + [skip(xs[t])];
      }
    }
    assert xs[..|xs|] == xs && mask[..|xs|] == mask;
  }

  lemma RunNone(layer: Layer, st: LayerState)
    requires LayerOk(layer) && Fits(layer, st)
    ensures Run(layer, st, [], []) == (st, [])
  {
  }

  /** One row of the hybrid batched cache: linear states once written, attention rows, write index. */
  class HybridRow {
    const layers: seq<Layer>
    const padding: nat
    var linear: map<nat, LinState>
    var seen: map<nat, seq<Hidden>>
    var idx: nat

    ghost predicate Valid()
      reads this
    {
      LayersOk(layers) && AllFit(layers, StatesOf(layers, linear, seen))
    }

    ghost function States(): (sts: seq<LayerState>)
      reads this
      requires Valid()
      ensures |sts| == |layers| && AllFit(layers, sts)
    {
      StatesOf(layers, linear, seen)
    }

    constructor (stack: seq<Layer>, pad: nat)
      requires LayersOk(stack)
      ensures Valid() && layers == stack && padding == pad && idx == 0 && States() == AllEmpty(stack)
    {
      layers, padding, linear, seen, idx := stack, pad, map[], map[], 0;
      new;
      NoneWritten(stack);
      hide AllFit;
    }

    /** One layer over the chunk. */
    method ForwardLayer(n: nat, x: seq<Hidden>, mask: seq<bool>) returns (h: seq<Hidden>)
      requires Valid() && n < |layers| && |mask| == |x|
      modifies this`linear, this`seen
      ensures Valid() && |h| == |x|
      ensures LayerOk(layers[n]) && Fits(layers[n], old(States())[n])
      ensures States() == old(States())[n := Run(layers[n], old(States())[n], x, mask).0]
      ensures h == Run(layers[n], old(States())[n], x, mask).1
    {
      hide *;
      ValidIs();
      ghost var sts := States();
      FitAt(layers, sts, n);
      FitUpdate(layers, sts, n, Run(layers[n], sts[n], x, mask).0);
      match layers[n] {
        case Lin(l) =>
          var conv, recur := None, None;
          if n in linear {
            conv, recur := Some(linear[n].conv), Some(linear[n].recur);
          }
          Written(layers, linear, seen, n, LinState([], []), []);
          CarriedIs(l, sts[n], conv, recur, linear, n);
          var outConv, outRecur;
          h, outConv, outRecur := LinearAttention(l, x, conv, recur, mask);
          Written(layers, linear, seen, n, LinState(outConv, outRecur), []);
          linear := linear[n := LinState(outConv, outRecur)];
        case Attn(attend, skip) =>
          Written(layers, linear, seen, n, LinState([], []), []);
          var rows;
          h, rows := Attention(attend, skip, if n in seen then seen[n] else [], x, mask);
          Written(layers, linear, seen, n, LinState([], []), rows);
          seen := seen[n := rows];
      }
      ValidIf();
    }

    lemma ValidIs()
      requires Valid()
      ensures LayersOk(layers) && AllFit(layers, StatesOf(layers, linear, seen)) && States() == StatesOf(layers, linear, seen)
    {
    }

    lemma ValidIf()
      ensures LayersOk(layers) && AllFit(layers, StatesOf(layers, linear, seen)) ==> Valid() && States() == StatesOf(layers, linear, seen)
    {
    }

    /** forward, for this row. */
    method Forward(xs: seq<Hidden>) returns (h: seq<Hidden>)
      requires Valid()
      modifies this
      ensures Valid() && idx == old(idx) + |xs|
      ensures (States(), h) == Stack(layers, old(States()), xs, RealPos(old(idx), |xs|, padding))
    {
      hide *;
      ValidIs();
      var mask := RealPos(idx, |xs|, padding);
      ghost var sts := States();
      h := xs;
      StackStart(layers, sts, h, mask);
      for n := 0 to |layers|
        invariant Valid() && idx == old(idx) && |h| == |xs|
        invariant States()[n..] == sts[n..] && LayersOk(layers[n..]) && AllFit(layers[n..], sts[n..])
        invariant Under(States()[..n], Stack(layers[n..], sts[n..], h, mask)) == Stack(layers, sts, xs, mask)
      {
        ghost var now := States();
        StackNext(layers, sts, n, now, h, mask);
        h := ForwardLayer(n, h, mask);
      }
      StackEnd(layers, sts, States(), h, mask);
      ValidIs();
      idx := idx + |xs|;
      ValidIf();
    }
  }

  lemma FitAt(layers: seq<Layer>, sts: seq<LayerState>, n: nat)
    requires LayersOk(layers) && AllFit(layers, sts) && n < |layers|
    ensures |sts| == |layers| && LayerOk(layers[n]) && Fits(layers[n], sts[n])
    ensures layers[n].Lin? ==> LinearOk(layers[n].linear) && sts[n].LinS? && StateOk(layers[n].linear, sts[n].lin)
  {
    hide LinearOk;
    hide StateOk;
  }

  lemma FitUpdate(layers: seq<Layer>, sts: seq<LayerState>, n: nat, st: LayerState)
    requires LayersOk(layers) && AllFit(layers, sts) && n < |layers| == |sts| && LayerOk(layers[n]) && Fits(layers[n], st)
    ensures AllFit(layers, sts[n := st])
  {
    hide Fits;
    hide LayerOk;
  }

  /** What the layer is handed is its carried state. */
  lemma CarriedIs(l: Linear, st: LayerState, conv: Option<seq<Vec>>, recur: Option<seq<Mat>>, linear: map<nat, LinState>, n: nat)
    requires LinearOk(l) && st == LinS(if n in linear then linear[n] else Fresh(l))
    requires conv == (if n in linear then Some(linear[n].conv) else None) && recur == (if n in linear then Some(linear[n].recur) else None)
    ensures Initial(l, conv, recur) == st.lin
  {
    hide ZeroMat;
    hide ZeroRecur;
  }

  lemma StackStart(layers: seq<Layer>, sts: seq<LayerState>, h: seq<Hidden>, mask: seq<bool>)
    requires LayersOk(layers) && AllFit(layers, sts) && |mask| == |h|
    ensures |sts| == |layers| && layers[0..] == layers && sts[0..] == sts
    ensures Under(sts[..0], Stack(layers[0..], sts[0..], h, mask)) == Stack(layers, sts, h, mask)
  {
    assert layers[0..] == layers && sts[0..] == sts && sts[..0] == [];
    hide Stack;
    var r := Stack(layers, sts, h, mask);
    assert [] + r.0 == r.0;
  }

  lemma StackNext(layers: seq<Layer>, sts: seq<LayerState>, n: nat, now: seq<LayerState>, h: seq<Hidden>, mask: seq<bool>)
    requires LayersOk(layers) && AllFit(layers, sts) && n < |layers| == |sts| == |now| && now[n..] == sts[n..] && |mask| == |h|
    requires LayersOk(layers[n..]) && AllFit(layers[n..], sts[n..])
    ensures LayersOk(layers[n + 1..]) && AllFit(layers[n + 1..], sts[n + 1..]) && now[n] == sts[n] && LayerOk(layers[n]) && Fits(layers[n], sts[n])
    ensures
      var (st, ys) := Run(layers[n], sts[n], h, mask);
      && now[n := st][n + 1..] == sts[n + 1..]
      && Under(now[..n], Stack(layers[n..], sts[n..], h, mask)) == Under(now[n := st][..n + 1], Stack(layers[n + 1..], sts[n + 1..], ys, mask))
  {
    hide LayerOk;
    hide Fits;
    hide Run;
    assert now[n] == now[n..][0] == sts[n..][0] == sts[n];
    assert layers[n..][1..] == layers[n + 1..] && sts[n..][1..] == sts[n + 1..] && layers[n..][0] == layers[n];
    StackHead(layers[n..], sts[n..], h, mask, now[..n]);
    var st := Run(layers[n], sts[n], h, mask).0;
    assert now[n := st][..n + 1] == now[..n] + [st];
    assert now[n := st][n + 1..] == now[n + 1..] == now[n..][1..];
    hide Stack;
  }

  lemma StackEnd(layers: seq<Layer>, sts: seq<LayerState>, now: seq<LayerState>, h: seq<Hidden>, mask: seq<bool>)
    requires LayersOk(layers[|layers|..]) && |sts| == |layers| == |now| && AllFit(layers[|layers|..], sts[|layers|..]) && |mask| == |h|
    ensures Under(now[..|layers|], Stack(layers[|layers|..], sts[|layers|..], h, mask)) == (now, h)
  {
    assert now[..|layers|] == now && layers[|layers|..] == [] && now + [] == now;
  }

  /** A layer's state: absent until first written. */
  function StateOf(layer: Layer, linear: map<nat, LinState>, seen: map<nat, seq<Hidden>>, i: nat): LayerState
    requires LayerOk(layer)
  {
    if layer.Lin? then LinS(if i in linear then linear[i] else Fresh(layer.linear)) else AttnS(if i in seen then seen[i] else [])
  }

  function StatesOf(layers: seq<Layer>, linear: map<nat, LinState>, seen: map<nat, seq<Hidden>>): (sts: seq<LayerState>)
    requires LayersOk(layers)
    ensures |sts| == |layers|
  {
    seq(|layers|, i requires 0 <= i < |layers| => StateOf(layers[i], linear, seen, i))
  }

  lemma NoneWritten(layers: seq<Layer>)
    requires LayersOk(layers)
    ensures StatesOf(layers, map[], map[]) == AllEmpty(layers)
  {
    hide LayerOk;
    forall i | 0 <= i < |layers|
      ensures StateOf(layers[i], map[], map[], i) == Empty(layers[i])
    {
    }
  }

  /** Writing one layer's state changes that layer's state only. */
  lemma Written(layers: seq<Layer>, linear: map<nat, LinState>, seen: map<nat, seq<Hidden>>, n: nat, lin: LinState, rows: seq<Hidden>)
    requires LayersOk(layers) && n < |layers|
    ensures layers[n].Lin? ==> StatesOf(layers, linear[n := lin], seen) == StatesOf(layers, linear, seen)[n := LinS(lin)]
    ensures layers[n].Attn? ==> StatesOf(layers, linear, seen[n := rows]) == StatesOf(layers, linear, seen)[n := AttnS(rows)]
    ensures layers[n].Lin? ==> StatesOf(layers, linear, seen)[n] == LinS(if n in linear then linear[n] else Fresh(layers[n].linear))
    ensures layers[n].Attn? ==> StatesOf(layers, linear, seen)[n] == AttnS(if n in seen then seen[n] else [])
  {
    hide LayerOk;
    hide Fresh;
  }

  function Under(done: seq<LayerState>, r: (seq<LayerState>, seq<Hidden>)): (seq<LayerState>, seq<Hidden>) {
    (done + r.0, r.1)
  }

  lemma StackHead(layers: seq<Layer>, sts: seq<LayerState>, h: seq<Hidden>, mask: seq<bool>, done: seq<LayerState>)
    requires layers != [] && LayersOk(layers) && AllFit(layers, sts) && |mask| == |h|
    ensures
      var (st, ys) := Run(layers[0], sts[0], h, mask);
      Under(done, Stack(layers, sts, h, mask)) == Under(done + [st], Stack(layers[1..], sts[1..], ys, mask))
  {
    hide Run;
    hide LayerOk;
    hide Fits;
    var (st, ys) := Run(layers[0], sts[0], h, mask);
    var rest := Stack(layers[1..], sts[1..], ys, mask).0;
    assert done + ([st] + rest) == (done + [st]) + rest;
  }
}
