/** The few-row matmul kernels (src/model/skinny_matmul.cpp) over exact arithmetic: each computes
    x times w-transpose, whatever order its simdgroups run in. */
module SkinnyMatmul {
  const LANES: nat := 32
  const ONE_COL_MAX: nat := 4
  const TWO_COL_MAX: nat := 16
  const MMA_MAX: nat := 32
  const GROUPS: nat := 8
  const UNROLL: nat := 4
  const BIG_WEIGHT: nat := 32 * 1024 * 1024

  /** x is M by D, w is O by D, y is M by O, all row-major. */
  datatype Size = Size(M: nat, O: nat, D: nat)

  ghost predicate Sized(s: Size, x: seq<real>, w: seq<real>) {
    |x| == s.M * s.D && |w| == s.O * s.D
  }

  lemma Flat(rows: nat, cols: nat, r: nat, c: nat)
    requires r < rows && c < cols
    ensures 0 <= r * cols + c < rows * cols
  {
    assert (r + 1) * cols <= rows * cols;
    assert (r + 1) * cols == r * cols + cols;
  }

  /** Different cells have different addresses. */
  lemma FlatApart(cols: nat, r: nat, c: nat, r2: nat, c2: nat)
    requires c < cols && c2 < cols && r * cols + c == r2 * cols + c2
    ensures r == r2 && c == c2
  {
    Below(cols, r, r2);
    Below(cols, r2, r);
  }

  lemma Below(cols: nat, r: nat, r2: nat)
    ensures r < r2 ==> r * cols + cols <= r2 * cols
  {
    if r < r2 {
      assert (r + 1) * cols <= r2 * cols;
      assert (r + 1) * cols == r * cols + cols;
    }
  }

  function At(a: seq<real>, rows: nat, cols: nat, r: nat, c: nat): real
    requires |a| == rows * cols && r < rows && c < cols
  {
    Flat(rows, cols, r, c);
    a[r * cols + c]
  }

  // ---------------------------------------------------------------- the product

  /** One term; rows past M count as zeros. */
  function Term(s: Size, x: seq<real>, w: seq<real>, m: nat, o: nat, d: nat): real
    requires Sized(s, x, w) && o < s.O && d < s.D
  {
    if m < s.M then At(w, s.O, s.D, o, d) * At(x, s.M, s.D, m, d) else 0.0
  }

  /** The first `n` terms of cell (m, o). */
  function Prefix(s: Size, x: seq<real>, w: seq<real>, m: nat, o: nat, n: nat): real
    requires Sized(s, x, w) && o < s.O && n <= s.D
  {
    if n == 0 then 0.0 else Prefix(s, x, w, m, o, n - 1) + Term(s, x, w, m, o, n - 1)
  }

  function Product(s: Size, x: seq<real>, w: seq<real>, m: nat, o: nat): real
    requires Sized(s, x, w) && o < s.O
  {
    Prefix(s, x, w, m, o, s.D)
  }

  // ---------------------------------------------------------------- lane-strided sums

  /** Four terms, as one half4 product adds them. */
  function Quad(s: Size, x: seq<real>, w: seq<real>, m: nat, o: nat, k: nat): real
    requires Sized(s, x, w) && o < s.O && 4 * k + 4 <= s.D
  {
    Term(s, x, w, m, o, 4 * k) + Term(s, x, w, m, o, 4 * k + 1) + Term(s, x, w, m, o, 4 * k + 2) + Term(s, x, w, m, o, 4 * k + 3)
  }

  /** What lane `lane` has added when all quads below `n` are done. */
  function LaneSum(s: Size, x: seq<real>, w: seq<real>, m: nat, o: nat, lane: nat, n: nat): real
    requires Sized(s, x, w) && o < s.O && 4 * n <= s.D
  {
    if n == 0 then 0.0
    else LaneSum(s, x, w, m, o, lane, n - 1) + if (n - 1) % LANES == lane then Quad(s, x, w, m, o, n - 1) else 0.0
  }

  function Lanes(s: Size, x: seq<real>, w: seq<real>, m: nat, o: nat, lanes: nat, n: nat): real
    requires Sized(s, x, w) && o < s.O && 4 * n <= s.D
  {
    if lanes == 0 then 0.0 else Lanes(s, x, w, m, o, lanes - 1, n) + LaneSum(s, x, w, m, o, lanes - 1, n)
  }

  lemma {:induction false} LanesNext(s: Size, x: seq<real>, w: seq<real>, m: nat, o: nat, lanes: nat, n: nat)
    requires Sized(s, x, w) && o < s.O && 4 * n + 4 <= s.D
    ensures Lanes(s, x, w, m, o, lanes, n + 1) == Lanes(s, x, w, m, o, lanes, n) + if n % LANES < lanes then Quad(s, x, w, m, o, n) else 0.0
    decreases lanes
  {
    hide Sized;
    hide Quad;
    if lanes > 0 {
      LanesNext(s, x, w, m, o, lanes - 1, n);
    }
  }

  lemma {:induction false} LanesZero(s: Size, x: seq<real>, w: seq<real>, m: nat, o: nat, lanes: nat)
    requires Sized(s, x, w) && o < s.O
    ensures Lanes(s, x, w, m, o, lanes, 0) == 0.0
    decreases lanes
  {
    if lanes > 0 {
      LanesZero(s, x, w, m, o, lanes - 1);
    }
  }

  /** The lanes together cover every term once. */
  lemma {:induction false} LanesCover(s: Size, x: seq<real>, w: seq<real>, m: nat, o: nat, n: nat)
    requires Sized(s, x, w) && o < s.O && 4 * n <= s.D
    ensures Lanes(s, x, w, m, o, LANES, n) == Prefix(s, x, w, m, o, 4 * n)
    decreases n
  {
    if n == 0 {
      LanesZero(s, x, w, m, o, LANES);
    } else {
      LanesCover(s, x, w, m, o, n - 1);
      LanesNext(s, x, w, m, o, LANES, n - 1);
      QuadPrefix(s, x, w, m, o, n - 1);
    }
  }

  lemma QuadPrefix(s: Size, x: seq<real>, w: seq<real>, m: nat, o: nat, k: nat)
    requires Sized(s, x, w) && o < s.O && 4 * k + 4 <= s.D
    ensures Prefix(s, x, w, m, o, 4 * k + 4) == Prefix(s, x, w, m, o, 4 * k) + Quad(s, x, w, m, o, k)
  {
    hide Term;
    hide Sized;
    assert Prefix(s, x, w, m, o, 4 * k + 1) == Prefix(s, x, w, m, o, 4 * k) + Term(s, x, w, m, o, 4 * k);
    assert Prefix(s, x, w, m, o, 4 * k + 2) == Prefix(s, x, w, m, o, 4 * k + 1) + Term(s, x, w, m, o, 4 * k + 1);
    assert Prefix(s, x, w, m, o, 4 * k + 3) == Prefix(s, x, w, m, o, 4 * k + 2) + Term(s, x, w, m, o, 4 * k + 2);
  }

  /** Stepping by 32 skips only other lanes' quads. */
  lemma {:induction false} LaneSkip(s: Size, x: seq<real>, w: seq<real>, m: nat, o: nat, lane: nat, lo: nat, hi: nat)
    requires Sized(s, x, w) && o < s.O && 4 * hi <= s.D && lo <= hi && lane < LANES
    requires forall k :: lo <= k < hi ==> k % LANES != lane
    ensures LaneSum(s, x, w, m, o, lane, hi) == LaneSum(s, x, w, m, o, lane, lo)
    decreases hi
  {
    hide Sized;
    hide Quad;
    if lo < hi {
      LaneSkip(s, x, w, m, o, lane, lo, hi - 1);
    }
  }

  lemma LaneStep(s: Size, x: seq<real>, w: seq<real>, m: nat, o: nat, lane: nat, k: nat)
    requires Sized(s, x, w) && o < s.O && k < s.D / 4 && k % LANES == lane < LANES
    ensures
      var next := if k + LANES <= s.D / 4 then k + LANES else s.D / 4;
      LaneSum(s, x, w, m, o, lane, next) == LaneSum(s, x, w, m, o, lane, k) + Quad(s, x, w, m, o, k)
  {
    var next := if k + LANES <= s.D / 4 then k + LANES else s.D / 4;
    LaneSkip(s, x, w, m, o, lane, k + 1, next);
  }

  lemma LaneStart(s: Size, x: seq<real>, w: seq<real>, m: nat, o: nat, lane: nat)
    requires Sized(s, x, w) && o < s.O && lane < LANES
    ensures LaneSum(s, x, w, m, o, lane, if lane <= s.D / 4 then lane else s.D / 4) == 0.0
  {
    LaneSkip(s, x, w, m, o, lane, 0, if lane <= s.D / 4 then lane else s.D / 4);
  }

  // ---------------------------------------------------------------- what a simdgroup leaves in y

  /** Columns lo .. hi - 1 hold the product, the others what they held. */
  ghost predicate Wrote(s: Size, x: seq<real>, w: seq<real>, before: seq<real>, after: seq<real>, lo: nat, hi: nat)
    requires Sized(s, x, w)
  {
    && |before| == |after| == s.M * s.O
    && forall m: nat, o: nat :: m < s.M && o < s.O ==>
         At(after, s.M, s.O, m, o) == if lo <= o < hi then Product(s, x, w, m, o) else At(before, s.M, s.O, m, o)
  }

  /** Rows below `rows` of columns lo .. hi - 1 are done. */
  ghost predicate WroteRows(s: Size, x: seq<real>, w: seq<real>, before: seq<real>, after: seq<real>, lo: nat, hi: nat, rows: nat)
    requires Sized(s, x, w)
  {
    && |before| == |after| == s.M * s.O
    && forall m: nat, o: nat :: m < s.M && o < s.O ==>
         At(after, s.M, s.O, m, o) == if m < rows && lo <= o < hi then Product(s, x, w, m, o) else At(before, s.M, s.O, m, o)
  }

  function Addr(s: Size, m: nat, o: nat): (i: nat)
    requires m < s.M && o < s.O
    ensures i == m * s.O + o < s.M * s.O
  {
    Flat(s.M, s.O, m, o);
    m * s.O + o
  }

  lemma RowWritten(s: Size, x: seq<real>, w: seq<real>, before: seq<real>, mid: seq<real>, after: seq<real>, o: nat, m: nat)
    requires Sized(s, x, w) && WroteRows(s, x, w, before, mid, o, o + 1, m) && m < s.M && o < s.O
    requires after == mid[Addr(s, m, o) := Product(s, x, w, m, o)]
    ensures WroteRows(s, x, w, before, after, o, o + 1, m + 1)
  {
    forall m2: nat, o2: nat | m2 < s.M && o2 < s.O
      ensures At(after, s.M, s.O, m2, o2) == if m2 == m && o2 == o then Product(s, x, w, m, o) else At(mid, s.M, s.O, m2, o2)
    {
      Flat(s.M, s.O, m2, o2);
      if m2 * s.O + o2 == m * s.O + o {
        FlatApart(s.O, m, o, m2, o2);
      }
    }
  }

  /** simd_sum of one accumulator over the lanes. */
  method SimdSum(accs: seq<seq<real>>, m: nat, ghost s: Size, ghost x: seq<real>, ghost w: seq<real>, ghost o: nat) returns (r: real)
    requires Sized(s, x, w) && o < s.O && m < s.M && s.D % 4 == 0 && |accs| == LANES
    requires forall lane :: 0 <= lane < LANES ==> LaneHolds(s, x, w, o, lane, s.D / 4, accs[lane])
    ensures r == Product(s, x, w, m, o)
  {
    r := 0.0;
    for lane := 0 to LANES
      invariant r == Lanes(s, x, w, m, o, lane, s.D / 4)
    {
      r := r + accs[lane][m];
    }
    LanesCover(s, x, w, m, o, s.D / 4);
  }

  /** A lane's accumulators, one a row, before its quad `k`. */
  ghost predicate LaneHolds(s: Size, x: seq<real>, w: seq<real>, o: nat, lane: nat, k: nat, acc: seq<real>)
    requires Sized(s, x, w) && o < s.O && 4 * k <= s.D
  {
    |acc| == s.M && forall m :: 0 <= m < s.M ==> acc[m] == LaneSum(s, x, w, m, o, lane, k)
  }

  function Clip(k: nat, n: nat): nat { if k <= n then k else n }

  /** One lane's pass over its quads of column `o`. */
  method Accumulate(s: Size, x: seq<real>, w: seq<real>, o: nat, lane: nat) returns (acc: seq<real>)
    requires Sized(s, x, w) && o < s.O && lane < LANES && s.D % 4 == 0
    ensures LaneHolds(s, x, w, o, lane, s.D / 4, acc)
  {
    hide LaneSum;
    hide Quad;
    hide Sized;
    acc := Zeros(s.M);
    forall m | 0 <= m < s.M
      ensures LaneSum(s, x, w, m, o, lane, Clip(lane, s.D / 4)) == 0.0
    {
      LaneStart(s, x, w, m, o, lane);
    }
    var k := lane;
    while k < s.D / 4
      invariant k % LANES == lane && LaneHolds(s, x, w, o, lane, Clip(k, s.D / 4), acc)
    {
      var was := acc;
      for m := 0 to s.M
        invariant |acc| == s.M
        invariant forall i :: 0 <= i < m ==> acc[i] == was[i] + Quad(s, x, w, i, o, k)
        invariant forall i :: m <= i < s.M ==> acc[i] == was[i]
      {
        var q := QuadProduct(s, x, w, m, o, k);
        acc := acc[m := acc[m] + q];
      }
      forall m | 0 <= m < s.M
        ensures acc[m] == LaneSum(s, x, w, m, o, lane, Clip(k + LANES, s.D / 4))
      {
        LaneStep(s, x, w, m, o, lane, k);
      }
      k := k + LANES;
    }
  }

  function Zeros(n: nat): (z: seq<real>)
    ensures |z| == n && forall i :: 0 <= i < n ==> z[i] == 0.0
  {
    seq(n, i requires 0 <= i < n => 0.0)
  }

  /** Four weights against four activations, as loaded. */
  method QuadProduct(s: Size, x: seq<real>, w: seq<real>, m: nat, o: nat, k: nat) returns (q: real)
    requires Sized(s, x, w) && m < s.M && o < s.O && 4 * k + 4 <= s.D
    ensures q == Quad(s, x, w, m, o, k)
  {
    Flat(s.O, s.D, o, 4 * k);
    Flat(s.O, s.D, o, 4 * k + 3);
    Flat(s.M, s.D, m, 4 * k);
    Flat(s.M, s.D, m, 4 * k + 3);
    var wv := w[o * s.D + 4 * k..o * s.D + 4 * k + 4];
    var xv := x[m * s.D + 4 * k..m * s.D + 4 * k + 4];
    q := wv[0] * xv[0] + wv[1] * xv[1] + wv[2] * xv[2] + wv[3] * xv[3];
  }

  /** The one-column kernel's simdgroup `o`. */
  method OneColumn(s: Size, x: seq<real>, w: seq<real>, y: array<real>, o: nat)
    requires Sized(s, x, w) && o < s.O && s.D % 4 == 0 && y.Length == s.M * s.O
    modifies y
    ensures Wrote(s, x, w, old(y[..]), y[..], o, o + 1)
  {
    ghost var before := y[..];
    var accs := [];
    for lane := 0 to LANES
      invariant y[..] == before
      invariant |accs| == lane && forall i :: 0 <= i < lane ==> LaneHolds(s, x, w, o, i, s.D / 4, accs[i])
    {
      var acc := Accumulate(s, x, w, o, lane);
      accs := accs + [acc];
    }
    hide *;
    RowsNone(s, x, w, before, o, o + 1);
    for m := 0 to s.M
      invariant WroteRows(s, x, w, before, y[..], o, o + 1, m)
    {
      var r := SimdSum(accs, m, s, x, w, o);
      ghost var mid := y[..];
      Store(s, y, m, o, r);
      RowWritten(s, x, w, before, mid, y[..], o, m);
    }
    RowsAll(s, x, w, before, y[..], o, o + 1);
  }

  method Store(s: Size, y: array<real>, m: nat, o: nat, r: real)
    requires y.Length == s.M * s.O && m < s.M && o < s.O
    modifies y
    ensures y[..] == old(y[..])[Addr(s, m, o) := r]
  {
    y[Addr(s, m, o)] := r;
  }

  lemma RowsNone(s: Size, x: seq<real>, w: seq<real>, y: seq<real>, lo: nat, hi: nat)
    requires Sized(s, x, w) && |y| == s.M * s.O
    ensures WroteRows(s, x, w, y, y, lo, hi, 0)
  {
    hide Product;
    hide At;
  }

  lemma RowsAll(s: Size, x: seq<real>, w: seq<real>, before: seq<real>, after: seq<real>, lo: nat, hi: nat)
    requires Sized(s, x, w) && WroteRows(s, x, w, before, after, lo, hi, s.M)
    ensures Wrote(s, x, w, before, after, lo, hi)
  {
    hide Product;
    hide At;
  }

  // ---------------------------------------------------------------- two columns

  /** The two-column kernel's simdgroup `pair`; an odd last column is done alone. */
  method TwoColumns(s: Size, x: seq<real>, w: seq<real>, y: array<real>, pair: nat)
    requires Sized(s, x, w) && 2 * pair < s.O && s.D % 4 == 0 && y.Length == s.M * s.O
    modifies y
    ensures Wrote(s, x, w, old(y[..]), y[..], 2 * pair, if 2 * pair + 1 < s.O then 2 * pair + 2 else 2 * pair + 1)
  {
    var o0 := pair * 2;
    var o1 := o0 + 1;
    var has1 := o1 < s.O;
    var w1 := if has1 then o1 else o0;
    var accs0, accs1 := [], [];
    ghost var before := y[..];
    for lane := 0 to LANES
      invariant y[..] == before
      invariant |accs0| == |accs1| == lane
      invariant forall i :: 0 <= i < lane ==> LaneHolds(s, x, w, o0, i, s.D / 4, accs0[i])
      invariant forall i :: 0 <= i < lane ==> LaneHolds(s, x, w, w1, i, s.D / 4, accs1[i])
    {
      var acc0, acc1 := AccumulateBoth(s, x, w, o0, w1, lane);
      accs0, accs1 := accs0 + [acc0], accs1 + [acc1];
    }
    hide *;
    RowsNone(s, x, w, before, o0, w1 + 1);
    for m := 0 to s.M
      invariant WroteRows(s, x, w, before, y[..], o0, w1 + 1, m)
    {
      var r0 := SimdSum(accs0, m, s, x, w, o0);
      var r1 := SimdSum(accs1, m, s, x, w, w1);
      ghost var mid := y[..];
      Store(s, y, m, o0, r0);
      if has1 {
        Store(s, y, m, o1, r1);
      }
      PairWritten(s, x, w, before, mid, y[..], o0, w1, m);
    }
    RowsAll(s, x, w, before, y[..], o0, w1 + 1);
  }

  lemma PairWritten(s: Size, x: seq<real>, w: seq<real>, before: seq<real>, mid: seq<real>, after: seq<real>, o0: nat, o1: nat, m: nat)
    requires Sized(s, x, w) && WroteRows(s, x, w, before, mid, o0, o1 + 1, m) && m < s.M && o0 <= o1 < s.O && o1 <= o0 + 1
    requires
      var first := mid[Addr(s, m, o0) := Product(s, x, w, m, o0)];
      after == if o1 == o0 then first else first[Addr(s, m, o1) := Product(s, x, w, m, o1)]
    ensures WroteRows(s, x, w, before, after, o0, o1 + 1, m + 1)
  {
    hide Product;
    hide Sized;
    forall m2: nat, o2: nat | m2 < s.M && o2 < s.O
      ensures At(after, s.M, s.O, m2, o2) == if m2 == m && o0 <= o2 <= o1 then Product(s, x, w, m, o2) else At(mid, s.M, s.O, m2, o2)
    {
      Flat(s.M, s.O, m2, o2);
      if m2 * s.O + o2 == m * s.O + o0 {
        FlatApart(s.O, m, o0, m2, o2);
      }
      if m2 * s.O + o2 == m * s.O + o1 {
        FlatApart(s.O, m, o1, m2, o2);
      }
    }
  }

  /** One lane's pass over both columns, each activation loaded once. */
  method AccumulateBoth(s: Size, x: seq<real>, w: seq<real>, o0: nat, o1: nat, lane: nat) returns (acc0: seq<real>, acc1: seq<real>)
    requires Sized(s, x, w) && o0 < s.O && o1 < s.O && lane < LANES && s.D % 4 == 0
    ensures LaneHolds(s, x, w, o0, lane, s.D / 4, acc0) && LaneHolds(s, x, w, o1, lane, s.D / 4, acc1)
  {
    hide LaneSum;
    hide Quad;
    hide Sized;
    acc0, acc1 := Zeros(s.M), Zeros(s.M);
    forall m, o: nat | 0 <= m < s.M && o < s.O
      ensures LaneSum(s, x, w, m, o, lane, Clip(lane, s.D / 4)) == 0.0
    {
      LaneStart(s, x, w, m, o, lane);
    }
    var k := lane;
    while k < s.D / 4
      invariant k % LANES == lane
      invariant LaneHolds(s, x, w, o0, lane, Clip(k, s.D / 4), acc0) && LaneHolds(s, x, w, o1, lane, Clip(k, s.D / 4), acc1)
    {
      var was0, was1 := acc0, acc1;
      for m := 0 to s.M
        invariant |acc0| == |acc1| == s.M
        invariant forall i :: 0 <= i < m ==> acc0[i] == was0[i] + Quad(s, x, w, i, o0, k) && acc1[i] == was1[i] + Quad(s, x, w, i, o1, k)
        invariant forall i :: m <= i < s.M ==> acc0[i] == was0[i] && acc1[i] == was1[i]
      {
        var q0 := QuadProduct(s, x, w, m, o0, k);
        var q1 := QuadProduct(s, x, w, m, o1, k);
        acc0, acc1 := acc0[m := acc0[m] + q0], acc1[m := acc1[m] + q1];
      }
      forall m | 0 <= m < s.M
        ensures acc0[m] == LaneSum(s, x, w, m, o0, lane, Clip(k + LANES, s.D / 4))
        ensures acc1[m] == LaneSum(s, x, w, m, o1, lane, Clip(k + LANES, s.D / 4))
      {
        LaneStep(s, x, w, m, o0, lane, k);
        LaneStep(s, x, w, m, o1, lane, k);
      }
      k := k + LANES;
    }
  }

  // ---------------------------------------------------------------- 8 x 8 tiles

  type Tile = seq<seq<real>>

  predicate IsTile(t: Tile) { |t| == 8 && forall r :: 0 <= r < 8 ==> |t[r]| == 8 }

  function TileDot(a: Tile, b: Tile, r: nat, c: nat, n: nat): real
    requires IsTile(a) && IsTile(b) && r < 8 && c < 8 && n <= 8
  {
    if n == 0 then 0.0 else TileDot(a, b, r, c, n - 1) + a[r][n - 1] * b[n - 1][c]
  }

  /** simdgroup_multiply_accumulate */
  function MultiplyAdd(a: Tile, b: Tile, acc: Tile): (t: Tile)
    requires IsTile(a) && IsTile(b) && IsTile(acc)
    ensures IsTile(t) && forall r, c :: 0 <= r < 8 && 0 <= c < 8 ==> t[r][c] == acc[r][c] + TileDot(a, b, r, c, 8)
  {
    var t := seq(8, r requires 0 <= r < 8 => seq(8, c requires 0 <= c < 8 => acc[r][c] + TileDot(a, b, r, c, 8)));
    t
  }

  /** The columns of weight `o0 + r`, activations `8 t + c`, summed below `n`. */
  ghost predicate TileHolds(s: Size, x: seq<real>, w: seq<real>, o0: nat, t: nat, n: nat, acc: Tile)
    requires Sized(s, x, w) && o0 + 8 <= s.O && n <= s.D
  {
    IsTile(acc) && forall r: nat, c: nat :: r < 8 && c < 8 ==> acc[r][c] == Prefix(s, x, w, 8 * t + c, o0 + r, n)
  }

  /** The staged chunk: rows of activations from column `kc`, zeros past M. */
  ghost predicate Staged(s: Size, x: seq<real>, rows: nat, chunk: nat, kc: nat, xs: seq<real>)
    requires |x| == s.M * s.D && kc + chunk <= s.D
  {
    && |xs| == rows * chunk
    && forall m: nat, j: nat :: m < rows && j < chunk ==> At(xs, rows, chunk, m, j) == if m < s.M then At(x, s.M, s.D, m, kc + j) else 0.0
  }

  /** A weight tile, as loaded. */
  function WeightTile(s: Size, w: seq<real>, o0: nat, d: nat): (t: Tile)
    requires |w| == s.O * s.D && o0 + 8 <= s.O && d + 8 <= s.D
    ensures IsTile(t) && forall r: nat, c: nat :: r < 8 && c < 8 ==> t[r][c] == At(w, s.O, s.D, o0 + r, d + c)
  {
    seq(8, r requires 0 <= r < 8 => seq(8, c requires 0 <= c < 8 => At(w, s.O, s.D, o0 + r, d + c)))
  }

  /** A staged activation tile, loaded transposed. */
  function ActivationTile(xs: seq<real>, rows: nat, chunk: nat, m0: nat, k: nat): (t: Tile)
    requires |xs| == rows * chunk && m0 + 8 <= rows && k + 8 <= chunk
    ensures IsTile(t) && forall r: nat, c: nat :: r < 8 && c < 8 ==> t[r][c] == At(xs, rows, chunk, m0 + c, k + r)
  {
    seq(8, r requires 0 <= r < 8 => seq(8, c requires 0 <= c < 8 => At(xs, rows, chunk, m0 + c, k + r)))
  }

  /** One multiply-accumulate adds the next eight terms of every cell of the tile. */
  lemma TileNext(s: Size, x: seq<real>, w: seq<real>, xs: seq<real>, rows: nat, chunk: nat, kc: nat, k: nat, o0: nat, t: nat, acc: Tile)
    requires Sized(s, x, w) && o0 + 8 <= s.O && kc + chunk <= s.D && k + 8 <= chunk && 8 * t + 8 <= rows
    requires Staged(s, x, rows, chunk, kc, xs) && TileHolds(s, x, w, o0, t, kc + k, acc)
    ensures TileHolds(s, x, w, o0, t, kc + k + 8,
                      MultiplyAdd(WeightTile(s, w, o0, kc + k), ActivationTile(xs, rows, chunk, 8 * t, k), acc))
  {
    hide Sized;
    hide Staged;
    hide WeightTile;
    hide ActivationTile;
    hide MultiplyAdd;
    hide TileDot;
    hide Prefix;
    SizedMeans(s, x, w);
    StagedSize(s, x, rows, chunk, kc, xs);
    var a, b := WeightTile(s, w, o0, kc + k), ActivationTile(xs, rows, chunk, 8 * t, k);
    forall r: nat, c: nat | r < 8 && c < 8
      ensures TileDot(a, b, r, c, 8) + Prefix(s, x, w, 8 * t + c, o0 + r, kc + k) == Prefix(s, x, w, 8 * t + c, o0 + r, kc + k + 8)
    {
      CellNext(s, x, w, xs, rows, chunk, kc, k, o0, t, r, c);
    }
  }

  lemma CellNext(s: Size, x: seq<real>, w: seq<real>, xs: seq<real>, rows: nat, chunk: nat, kc: nat, k: nat, o0: nat, t: nat, r: nat, c: nat)
    requires Sized(s, x, w) && o0 + 8 <= s.O && kc + chunk <= s.D && k + 8 <= chunk && 8 * t + 8 <= rows && r < 8 && c < 8
    requires |w| == s.O * s.D && |xs| == rows * chunk && |x| == s.M * s.D && Staged(s, x, rows, chunk, kc, xs)
    ensures TileDot(WeightTile(s, w, o0, kc + k), ActivationTile(xs, rows, chunk, 8 * t, k), r, c, 8) + Prefix(s, x, w, 8 * t + c, o0 + r, kc + k)
         == Prefix(s, x, w, 8 * t + c, o0 + r, kc + k + 8)
  {
    hide At;
    hide Term;
    hide Sized;
    hide Staged;
    hide WeightTile;
    hide ActivationTile;
    hide TileDot;
    hide Prefix;
    var a, b := WeightTile(s, w, o0, kc + k), ActivationTile(xs, rows, chunk, 8 * t, k);
    forall j: nat | j < 8
      ensures a[r][j] * b[j][c] == Term(s, x, w, 8 * t + c, o0 + r, kc + k + j)
    {
      assert a[r][j] == At(w, s.O, s.D, o0 + r, kc + k + j) && b[j][c] == At(xs, rows, chunk, 8 * t + c, k + j);
      StagedTerm(s, x, w, xs, rows, chunk, kc, 8 * t + c, o0 + r, k + j);
    }
    DotPrefix(s, x, w, a, b, r, c, 8 * t + c, o0 + r, kc + k, 8);
  }

  lemma StagedTerm(s: Size, x: seq<real>, w: seq<real>, xs: seq<real>, rows: nat, chunk: nat, kc: nat, m: nat, o: nat, j: nat)
    requires Sized(s, x, w) && o < s.O && kc + chunk <= s.D && m < rows && j < chunk
    requires |w| == s.O * s.D && |xs| == rows * chunk && |x| == s.M * s.D && Staged(s, x, rows, chunk, kc, xs)
    ensures At(w, s.O, s.D, o, kc + j) * At(xs, rows, chunk, m, j) == Term(s, x, w, m, o, kc + j)
  {
    hide At;
  }

  lemma {:induction false} DotPrefix(s: Size, x: seq<real>, w: seq<real>, a: Tile, b: Tile, r: nat, c: nat, m: nat, o: nat, d: nat, n: nat)
    requires Sized(s, x, w) && IsTile(a) && IsTile(b) && r < 8 && c < 8 && o < s.O && d + 8 <= s.D && n <= 8
    requires forall j: nat :: j < 8 ==> a[r][j] * b[j][c] == Term(s, x, w, m, o, d + j)
    ensures TileDot(a, b, r, c, n) + Prefix(s, x, w, m, o, d) == Prefix(s, x, w, m, o, d + n)
    decreases n
  {
    hide Sized;
    hide Term;
    if n > 0 {
      DotPrefix(s, x, w, a, b, r, c, m, o, d, n - 1);
      assert a[r][n - 1] * b[n - 1][c] == Term(s, x, w, m, o, d + (n - 1));
    }
  }

  // ---------------------------------------------------------------- the tile kernel

  predicate Chunks(s: Size, chunk: nat) { (chunk == 128 || chunk == 256) && s.D % chunk == 0 }

  /** The threadgroup's threads stage one chunk of activations, four at a time. */
  method Stage(s: Size, x: seq<real>, rows: nat, chunk: nat, kc: nat) returns (xs: seq<real>)
    requires |x| == s.M * s.D && Chunks(s, chunk) && kc + chunk <= s.D
    ensures Staged(s, x, rows, chunk, kc, xs)
  {
    var quads := rows * (chunk / 4);
    QuadCount(rows, chunk);
    xs := Zeros(rows * chunk);
    var threads := LANES * GROUPS;
    for tid := 0 to threads
      invariant |xs| == rows * chunk
      invariant forall i: nat :: i < quads && i % threads < tid ==> QuadStaged(s, x, rows, chunk, kc, xs, i)
    {
      var i := tid;
      while i < quads
        invariant i % threads == tid && |xs| == rows * chunk
        invariant forall q: nat :: q < quads && (q % threads < tid || (q % threads == tid && q < i)) ==> QuadStaged(s, x, rows, chunk, kc, xs, q)
      {
        ghost var was := xs;
        xs := StageQuad(s, x, rows, chunk, kc, xs, i);
        forall q: nat | q < quads && q != i && QuadStaged(s, x, rows, chunk, kc, was, q)
          ensures QuadStaged(s, x, rows, chunk, kc, xs, q)
        {
          QuadKept(s, x, rows, chunk, kc, was, xs, i, q);
        }
        SameLane(i, threads);
        i := i + threads;
      }
    }
    AllStaged(s, x, rows, chunk, kc, xs);
  }

  lemma QuadCount(rows: nat, chunk: nat)
    requires chunk == 128 || chunk == 256
    ensures 4 * (rows * (chunk / 4)) == rows * chunk
  {
  }

  lemma SameLane(i: nat, threads: nat)
    requires threads == 256
    ensures (i + threads) % threads == i % threads
    ensures forall q: nat :: i < q < i + threads ==> q % threads != i % threads
  {
  }

  function QuadRow(chunk: nat, i: nat): nat
    requires chunk == 128 || chunk == 256
  {
    i / (chunk / 4)
  }

  /** First column of a quad. */
  function QuadCol(chunk: nat, i: nat): (c: nat)
    requires chunk == 128 || chunk == 256
    ensures c + 4 <= chunk
  {
    4 * (i % (chunk / 4))
  }

  /** Entry `at` of quad `i`. */
  function Source(s: Size, x: seq<real>, chunk: nat, kc: nat, i: nat, at: nat): real
    requires |x| == s.M * s.D && (chunk == 128 || chunk == 256) && kc + chunk <= s.D && at < 4
  {
    var m := QuadRow(chunk, i);
    if m < s.M then At(x, s.M, s.D, m, kc + QuadCol(chunk, i) + at) else 0.0
  }

  ghost predicate QuadStaged(s: Size, x: seq<real>, rows: nat, chunk: nat, kc: nat, xs: seq<real>, i: nat)
    requires |x| == s.M * s.D && (chunk == 128 || chunk == 256) && kc + chunk <= s.D
  {
    4 * i + 4 <= |xs| && forall at: nat :: at < 4 ==> xs[4 * i + at] == Source(s, x, chunk, kc, i, at)
  }

  method StageQuad(s: Size, x: seq<real>, rows: nat, chunk: nat, kc: nat, xs: seq<real>, i: nat) returns (r: seq<real>)
    requires |x| == s.M * s.D && (chunk == 128 || chunk == 256) && kc + chunk <= s.D && 4 * i + 4 <= |xs|
    ensures |r| == |xs| && QuadStaged(s, x, rows, chunk, kc, r, i)
    ensures forall p: nat :: p < |xs| && !(4 * i <= p < 4 * i + 4) ==> r[p] == xs[p]
  {
    hide *;
    var m := QuadRow(chunk, i);
    var v := [0.0, 0.0, 0.0, 0.0];
    SourceIs(s, x, chunk, kc, i);
    if m < s.M {
      v := LoadQuad(s, x, m, kc + QuadCol(chunk, i));
    }
    r := xs[..4 * i] + v + xs[4 * i + 4..];
    Spliced(xs, 4 * i, v);
    QuadIs(s, x, rows, chunk, kc, r, i, v);
  }

  lemma SourceIs(s: Size, x: seq<real>, chunk: nat, kc: nat, i: nat)
    requires |x| == s.M * s.D && (chunk == 128 || chunk == 256) && kc + chunk <= s.D
    ensures
      var m, d := QuadRow(chunk, i), kc + QuadCol(chunk, i);
      forall at: nat :: at < 4 ==> Source(s, x, chunk, kc, i, at) == if m < s.M then At(x, s.M, s.D, m, d + at) else 0.0
  {
    hide At;
    hide QuadRow;
    hide QuadCol;
  }

  lemma QuadIs(s: Size, x: seq<real>, rows: nat, chunk: nat, kc: nat, xs: seq<real>, i: nat, v: seq<real>)
    requires |x| == s.M * s.D && (chunk == 128 || chunk == 256) && kc + chunk <= s.D && 4 * i + 4 <= |xs| && |v| == 4
    requires forall p: nat :: p < 4 ==> xs[4 * i + p] == v[p]
    requires forall p: nat :: p < 4 ==> v[p] == Source(s, x, chunk, kc, i, p)
    ensures QuadStaged(s, x, rows, chunk, kc, xs, i)
  {
    hide Source;
  }

  lemma Spliced(xs: seq<real>, at: nat, v: seq<real>)
    requires at + |v| <= |xs|
    ensures
      var r := xs[..at] + v + xs[at + |v|..];
      && |r| == |xs| && (forall p: nat :: p < |v| ==> r[at + p] == v[p])
      && forall p: nat :: p < |xs| && !(at <= p < at + |v|) ==> r[p] == xs[p]
  {
  }

  /** Four activations of row `m` from column `d`. */
  method LoadQuad(s: Size, x: seq<real>, m: nat, d: nat) returns (v: seq<real>)
    requires |x| == s.M * s.D && m < s.M && d + 4 <= s.D
    ensures |v| == 4 && forall p: nat :: p < 4 ==> v[p] == At(x, s.M, s.D, m, d + p)
  {
    Flat(s.M, s.D, m, d);
    Flat(s.M, s.D, m, d + 3);
    v := x[m * s.D + d..m * s.D + d + 4];
  }

  lemma QuadKept(s: Size, x: seq<real>, rows: nat, chunk: nat, kc: nat, was: seq<real>, xs: seq<real>, i: nat, q: nat)
    requires |x| == s.M * s.D && (chunk == 128 || chunk == 256) && kc + chunk <= s.D && |xs| == |was| && q != i
    requires QuadStaged(s, x, rows, chunk, kc, was, q)
    requires forall p: nat :: p < |xs| && !(4 * i <= p < 4 * i + 4) ==> xs[p] == was[p]
    ensures QuadStaged(s, x, rows, chunk, kc, xs, q)
  {
    hide Source;
  }

  lemma AllStaged(s: Size, x: seq<real>, rows: nat, chunk: nat, kc: nat, xs: seq<real>)
    requires |x| == s.M * s.D && Chunks(s, chunk) && kc + chunk <= s.D && |xs| == rows * chunk
    requires forall i: nat :: i < rows * (chunk / 4) ==> QuadStaged(s, x, rows, chunk, kc, xs, i)
    ensures Staged(s, x, rows, chunk, kc, xs)
  {
    forall m: nat, j: nat | m < rows && j < chunk
      ensures At(xs, rows, chunk, m, j) == if m < s.M then At(x, s.M, s.D, m, kc + j) else 0.0
    {
      var i := m * (chunk / 4) + j / 4;
      Flat(rows, chunk / 4, m, j / 4);
      Divides(chunk / 4, m, j / 4);
      assert QuadStaged(s, x, rows, chunk, kc, xs, i);
      assert 4 * i + j % 4 == m * chunk + j by {
        QuadCount(m, chunk);
      }
      assert xs[4 * i + j % 4] == Source(s, x, chunk, kc, i, j % 4);
    }
  }

  lemma Divides(n: nat, m: nat, r: nat)
    requires r < n
    ensures (m * n + r) / n == m && (m * n + r) % n == r
  {
    var v := m * n + r;
    assert v == v / n * n + v % n;
    FlatApart(n, v / n, v % n, m, r);
  }

  /** The weight tiles in flight against one row of staged activation tiles. */
  method MultiplyTiles(s: Size, ghost x: seq<real>, ghost w: seq<real>, xs: seq<real>, rows: nat, chunk: nat, kc: nat, k: nat, ghost o0: nat,
                       t: nat, wt: seq<Tile>, accIn: Tile)
    returns (acc: Tile)
    requires Sized(s, x, w) && kc + chunk <= s.D && k + 32 <= chunk && o0 + 8 <= s.O && 8 * t + 8 <= rows
    requires |x| == s.M * s.D && |w| == s.O * s.D && |xs| == rows * chunk && Staged(s, x, rows, chunk, kc, xs)
    requires |wt| == UNROLL && forall v :: 0 <= v < UNROLL ==> kc + k + 8 * v + 8 <= s.D && wt[v] == WeightTile(s, w, o0, kc + k + 8 * v)
    requires TileHolds(s, x, w, o0, t, kc + k, accIn)
    ensures TileHolds(s, x, w, o0, t, kc + k + 32, acc)
  {
    hide *;
    UnrollIs();
    acc := accIn;
    for u := 0 to UNROLL
      invariant TileHolds(s, x, w, o0, t, kc + k + 8 * u, acc)
    {
      TileNext(s, x, w, xs, rows, chunk, kc, k + 8 * u, o0, t, acc);
      HeldTile(s, x, w, o0, t, kc + k + 8 * u, acc);
      acc := MultiplyAdd(wt[u], ActivationTile(xs, rows, chunk, 8 * t, k + 8 * u), acc);
    }
  }

  /** The next UNROLL weight tiles of eight output rows. */
  method LoadWeights(s: Size, w: seq<real>, o0: nat, d: nat) returns (wt: seq<Tile>)
    requires |w| == s.O * s.D && o0 + 8 <= s.O && d + 32 <= s.D
    ensures |wt| == UNROLL && forall v :: 0 <= v < UNROLL ==> d + 8 * v + 8 <= s.D && wt[v] == WeightTile(s, w, o0, d + 8 * v)
  {
    hide *;
    UnrollIs();
    wt := [];
    for u := 0 to UNROLL
      invariant |wt| == u && forall v :: 0 <= v < u ==> d + 8 * v + 8 <= s.D && wt[v] == WeightTile(s, w, o0, d + 8 * v)
    {
      assert d + 8 * u + 8 <= s.D;
      wt := wt + [WeightTile(s, w, o0, d + 8 * u)];
    }
  }

  /** One simdgroup's multiply-accumulates over a staged chunk, UNROLL weight tiles in flight. */
  method MultiplyChunk(s: Size, ghost x: seq<real>, w: seq<real>, xs: seq<real>, tiles: nat, chunk: nat, kc: nat, o0: nat, accIn: seq<Tile>)
    returns (acc: seq<Tile>)
    requires Sized(s, x, w) && Chunks(s, chunk) && kc + chunk <= s.D && o0 + 8 <= s.O && |accIn| == tiles
    requires Staged(s, x, 8 * tiles, chunk, kc, xs)
    requires forall t :: 0 <= t < tiles ==> TileHolds(s, x, w, o0, t, kc, accIn[t])
    ensures |acc| == tiles && forall t :: 0 <= t < tiles ==> TileHolds(s, x, w, o0, t, kc + chunk, acc[t])
  {
    hide TileHolds;
    hide Staged;
    hide MultiplyAdd;
    StagedSize(s, x, 8 * tiles, chunk, kc, xs);
    SizedMeans(s, x, w);
    ChunkBlocks(s, chunk);
    hide *;
    UnrollIs();
    acc := accIn;
    var k := 0;
    while k < chunk
      invariant k <= chunk && k % 32 == 0 && |acc| == tiles
      invariant forall t :: 0 <= t < tiles ==> TileHolds(s, x, w, o0, t, kc + k, acc[t])
    {
      var wt := LoadWeights(s, w, o0, kc + k);
      for t := 0 to tiles
        invariant |acc| == tiles
        invariant forall i :: 0 <= i < t ==> TileHolds(s, x, w, o0, i, kc + k + 32, acc[i])
        invariant forall i :: t <= i < tiles ==> TileHolds(s, x, w, o0, i, kc + k, acc[i])
      {
        var tile := MultiplyTiles(s, x, w, xs, 8 * tiles, chunk, kc, k, o0, t, wt, acc[t]);
        acc := acc[t := tile];
      }
      k := k + 8 * UNROLL;
    }
  }

  lemma ChunkBlocks(s: Size, chunk: nat)
    requires Chunks(s, chunk)
    ensures chunk % 32 == 0
  {
  }

  lemma UnrollIs()
    ensures UNROLL == 4
  {
  }

  lemma StagedSize(s: Size, x: seq<real>, rows: nat, chunk: nat, kc: nat, xs: seq<real>)
    requires |x| == s.M * s.D && kc + chunk <= s.D && Staged(s, x, rows, chunk, kc, xs)
    ensures |xs| == rows * chunk
  {
  }

  lemma SizedMeans(s: Size, x: seq<real>, w: seq<real>)
    requires Sized(s, x, w)
    ensures |x| == s.M * s.D && |w| == s.O * s.D
  {
  }

  lemma HeldTile(s: Size, x: seq<real>, w: seq<real>, o0: nat, t: nat, n: nat, acc: Tile)
    requires Sized(s, x, w) && o0 + 8 <= s.O && n <= s.D && TileHolds(s, x, w, o0, t, n, acc)
    ensures IsTile(acc)
  {
  }

  // ---------------------------------------------------------------- storing a tile

  /** Exactly the cells in `done` hold the product. */
  ghost predicate Marked(s: Size, x: seq<real>, w: seq<real>, before: seq<real>, after: seq<real>, done: set<(nat, nat)>)
    requires Sized(s, x, w)
  {
    && |before| == |after| == s.M * s.O
    && forall m: nat, o: nat :: m < s.M && o < s.O ==>
         At(after, s.M, s.O, m, o) == if (m, o) in done then Product(s, x, w, m, o) else At(before, s.M, s.O, m, o)
  }

  lemma MarkMore(s: Size, x: seq<real>, w: seq<real>, before: seq<real>, mid: seq<real>, after: seq<real>, done: set<(nat, nat)>, m: nat, o: nat)
    requires Sized(s, x, w) && Marked(s, x, w, before, mid, done) && m < s.M && o < s.O
    requires after == mid[Addr(s, m, o) := Product(s, x, w, m, o)]
    ensures Marked(s, x, w, before, after, done + {(m, o)})
  {
    hide Product;
    hide Sized;
    forall m2: nat, o2: nat | m2 < s.M && o2 < s.O
      ensures At(after, s.M, s.O, m2, o2) == if m2 == m && o2 == o then Product(s, x, w, m, o) else At(mid, s.M, s.O, m2, o2)
    {
      Flat(s.M, s.O, m2, o2);
      if m2 * s.O + o2 == m * s.O + o {
        FlatApart(s.O, m, o, m2, o2);
      }
    }
  }

  /** The cells of tile `t` that lanes below `lane`, and `lane` itself below entry `i`, have stored. */
  ghost predicate TileStored(s: Size, o0: nat, t: nat, lane: nat, i: nat, done: set<(nat, nat)>) {
    forall e: nat :: e < 64 && (e % LANES < lane || (e % LANES == lane && e < i)) && 8 * t + e % 8 < s.M ==> (8 * t + e % 8, o0 + e / 8) in done
  }

  ghost predicate InTile(s: Size, o0: nat, done: set<(nat, nat)>) {
    forall c :: c in done ==> c.0 < s.M && o0 <= c.1 < o0 + 8
  }

  /** Every tile of a finished simdgroup goes to y, a lane taking entries 32 apart. */
  method StoreTiles(s: Size, ghost x: seq<real>, ghost w: seq<real>, y: array<real>, tiles: nat, o0: nat, acc: seq<Tile>)
    requires Sized(s, x, w) && y.Length == s.M * s.O && o0 + 8 <= s.O && |acc| == tiles == (s.M + 7) / 8
    requires forall t :: 0 <= t < tiles ==> TileHolds(s, x, w, o0, t, s.D, acc[t])
    modifies y
    ensures Wrote(s, x, w, old(y[..]), y[..], o0, o0 + 8)
  {
    hide *;
    ghost var before := y[..];
    ghost var done: set<(nat, nat)> := {};
    LanesAre();
    NothingMarked(s, x, w, before, o0);
    for t := 0 to tiles
      invariant Marked(s, x, w, before, y[..], done) && InTile(s, o0, done)
      invariant forall k: nat :: k < t ==> TileStored(s, o0, k, LANES, 0, done)
    {
      NoneStored(s, o0, t, done);
      for lane := 0 to LANES
        invariant Marked(s, x, w, before, y[..], done) && InTile(s, o0, done)
        invariant forall k: nat :: k < t ==> TileStored(s, o0, k, LANES, 0, done)
        invariant TileStored(s, o0, t, lane, 0, done)
      {
        ghost var was := done;
        done := StoreLane(s, x, w, y, t, lane, o0, acc[t], before, done);
        StillStored(s, o0, t, was, done);
      }
    }
    AllMarked(s, x, w, before, y[..], tiles, o0, done);
  }

  /** One lane's entries of one tile. */
  method StoreLane(s: Size, ghost x: seq<real>, ghost w: seq<real>, y: array<real>, t: nat, lane: nat, o0: nat, acc: Tile,
                   ghost before: seq<real>, ghost was: set<(nat, nat)>)
    returns (ghost done: set<(nat, nat)>)
    requires Sized(s, x, w) && y.Length == s.M * s.O && o0 + 8 <= s.O && lane < LANES
    requires TileHolds(s, x, w, o0, t, s.D, acc)
    requires Marked(s, x, w, before, y[..], was) && InTile(s, o0, was) && TileStored(s, o0, t, lane, 0, was)
    modifies y
    ensures Marked(s, x, w, before, y[..], done) && InTile(s, o0, done) && TileStored(s, o0, t, lane + 1, 0, done)
    ensures was <= done
  {
    hide *;
    LanesAre();
    done := was;
    var i := lane;
    LaneBegins(s, o0, t, lane, done);
    while i < 64
      invariant InLane(i, lane) && was <= done && Marked(s, x, w, before, y[..], done) && InTile(s, o0, done)
      invariant TileStored(s, o0, t, lane, i, done)
    {
      done := StoreEntry(s, x, w, y, t, lane, i, o0, acc, before, done);
      LaneOn(i, lane);
      i := i + 32;
    }
    LaneEnds(s, o0, t, lane, i, done);
  }

  method StoreEntry(s: Size, ghost x: seq<real>, ghost w: seq<real>, y: array<real>, t: nat, ghost lane: nat, i: nat, o0: nat, acc: Tile,
                    ghost before: seq<real>, ghost was: set<(nat, nat)>)
    returns (ghost done: set<(nat, nat)>)
    requires Sized(s, x, w) && y.Length == s.M * s.O && o0 + 8 <= s.O && i < 64 && InLane(i, lane)
    requires TileHolds(s, x, w, o0, t, s.D, acc)
    requires Marked(s, x, w, before, y[..], was) && InTile(s, o0, was) && TileStored(s, o0, t, lane, i, was)
    modifies y
    ensures Marked(s, x, w, before, y[..], done) && InTile(s, o0, done) && TileStored(s, o0, t, lane, i + 32, done)
    ensures was <= done
  {
    hide *;
    done := was;
    var r, c := i / 8, i % 8;
    var m, o := 8 * t + c, o0 + r;
    Entry(s, x, w, o0, t, i, acc);
    TileShape(acc, r);
    if m < s.M {
      ghost var mid := y[..];
      Store(s, y, m, o, acc[r][c]);
      MarkMore(s, x, w, before, mid, y[..], done, m, o);
      InTileMore(s, o0, done, m, o);
      done := done + {(m, o)};
    }
    StoredMore(s, o0, t, lane, i, was, done);
  }

  lemma InTileMore(s: Size, o0: nat, done: set<(nat, nat)>, m: nat, o: nat)
    requires InTile(s, o0, done) && m < s.M && o0 <= o < o0 + 8
    ensures InTile(s, o0, done + {(m, o)})
  {
  }

  lemma StillStored(s: Size, o0: nat, t: nat, was: set<(nat, nat)>, done: set<(nat, nat)>)
    requires was <= done
    ensures forall k: nat :: k < t && TileStored(s, o0, k, LANES, 0, was) ==> TileStored(s, o0, k, LANES, 0, done)
  {
  }

  lemma LanesAre()
    ensures LANES == 32
  {
  }

  lemma NothingMarked(s: Size, x: seq<real>, w: seq<real>, y: seq<real>, o0: nat)
    requires Sized(s, x, w) && |y| == s.M * s.O
    ensures Marked(s, x, w, y, y, {}) && InTile(s, o0, {})
  {
    hide Product;
    hide At;
  }

  lemma TileShape(t: Tile, r: nat)
    requires IsTile(t) && r < 8
    ensures |t| == 8 && |t[r]| == 8
  {
  }

  lemma NoneStored(s: Size, o0: nat, t: nat, done: set<(nat, nat)>)
    ensures TileStored(s, o0, t, 0, 0, done)
  {
  }

  predicate InLane(i: nat, lane: nat) { i % LANES == lane }

  lemma LaneOn(i: nat, lane: nat)
    requires InLane(i, lane)
    ensures InLane(i + 32, lane)
  {
  }

  lemma LaneBegins(s: Size, o0: nat, t: nat, lane: nat, done: set<(nat, nat)>)
    requires lane < LANES && TileStored(s, o0, t, lane, 0, done)
    ensures TileStored(s, o0, t, lane, lane, done) && InLane(lane, lane)
  {
    assert forall e: nat :: e < 64 && e % LANES == lane ==> lane <= e;
  }

  lemma LaneEnds(s: Size, o0: nat, t: nat, lane: nat, i: nat, done: set<(nat, nat)>)
    requires lane < LANES && 64 <= i && TileStored(s, o0, t, lane, i, done)
    ensures TileStored(s, o0, t, lane + 1, 0, done)
  {
  }

  lemma Entry(s: Size, x: seq<real>, w: seq<real>, o0: nat, t: nat, i: nat, acc: Tile)
    requires Sized(s, x, w) && o0 + 8 <= s.O && TileHolds(s, x, w, o0, t, s.D, acc) && i < 64
    ensures IsTile(acc) && acc[i / 8][i % 8] == Product(s, x, w, 8 * t + i % 8, o0 + i / 8)
  {
    hide Prefix;
  }

  lemma StoredMore(s: Size, o0: nat, t: nat, lane: nat, i: nat, was: set<(nat, nat)>, done: set<(nat, nat)>)
    requires i < 64 && InLane(i, lane) && TileStored(s, o0, t, lane, i, was) && was <= done
    requires 8 * t + i % 8 < s.M ==> (8 * t + i % 8, o0 + i / 8) in done
    ensures TileStored(s, o0, t, lane, i + 32, done)
  {
    forall e: nat | e < 64 && (e % LANES < lane || (e % LANES == lane && e < i + 32)) && 8 * t + e % 8 < s.M
      ensures (8 * t + e % 8, o0 + e / 8) in done
    {
      assert e % LANES == lane && i <= e < i + 32 ==> e == i;
    }
  }

  lemma AllMarked(s: Size, x: seq<real>, w: seq<real>, before: seq<real>, after: seq<real>, tiles: nat, o0: nat, done: set<(nat, nat)>)
    requires Sized(s, x, w) && Marked(s, x, w, before, after, done) && InTile(s, o0, done) && tiles == (s.M + 7) / 8
    requires forall k: nat :: k < tiles ==> TileStored(s, o0, k, LANES, 0, done)
    ensures Wrote(s, x, w, before, after, o0, o0 + 8)
  {
    hide Product;
    hide At;
    forall m: nat, o: nat | m < s.M && o0 <= o < o0 + 8
      ensures (m, o) in done
    {
      var e := 8 * (o - o0) + m % 8;
      assert TileStored(s, o0, m / 8, LANES, 0, done);
      assert e < 64 && e % 8 == m % 8 && e / 8 == o - o0 && e % LANES < LANES;
      assert 8 * (m / 8) + e % 8 == m;
    }
  }

  // ---------------------------------------------------------------- a threadgroup of eight simdgroups

  /** First output column of tile `tile`; the tail tile is moved back to fit. */
  function Start(s: Size, tile: nat): (o0: nat)
    requires 8 <= s.O
    ensures o0 + 8 <= s.O
  {
    if tile * 8 <= s.O - 8 then tile * 8 else s.O - 8
  }

  /** The columns of the threadgroup's first `n` tiles. */
  ghost function Columns(s: Size, tg: nat, n: nat): set<nat>
    requires 8 <= s.O
  {
    if n == 0 then {} else Columns(s, tg, n - 1) + Range(Start(s, tg * GROUPS + n - 1), Start(s, tg * GROUPS + n - 1) + 8)
  }

  predicate Between(lo: nat, o: nat, hi: nat) { lo <= o < hi }

  ghost function Range(lo: nat, hi: nat): set<nat> { set o: nat | lo <= o < hi && Between(lo, o, hi) }

  /** Exactly the columns in `done` hold the product. */
  ghost predicate Spread(s: Size, x: seq<real>, w: seq<real>, before: seq<real>, after: seq<real>, done: set<nat>)
    requires Sized(s, x, w)
  {
    && |before| == |after| == s.M * s.O
    && forall m: nat, o: nat :: m < s.M && o < s.O ==>
         At(after, s.M, s.O, m, o) == if o in done then Product(s, x, w, m, o) else At(before, s.M, s.O, m, o)
  }

  lemma SpreadMore(s: Size, x: seq<real>, w: seq<real>, before: seq<real>, mid: seq<real>, after: seq<real>, done: set<nat>, lo: nat, hi: nat)
    requires Sized(s, x, w) && Spread(s, x, w, before, mid, done) && Wrote(s, x, w, mid, after, lo, hi)
    ensures Spread(s, x, w, before, after, done + Range(lo, hi))
  {
    hide Product;
    hide At;
  }

  lemma SpreadNone(s: Size, x: seq<real>, w: seq<real>, y: seq<real>)
    requires Sized(s, x, w) && |y| == s.M * s.O
    ensures Spread(s, x, w, y, y, {})
  {
    hide Product;
    hide At;
  }

  lemma SpreadBoth(s: Size, x: seq<real>, w: seq<real>, before: seq<real>, mid: seq<real>, after: seq<real>, done: set<nat>, more: set<nat>)
    requires Sized(s, x, w) && Spread(s, x, w, before, mid, done) && Spread(s, x, w, mid, after, more)
    ensures Spread(s, x, w, before, after, done + more)
  {
    hide Product;
    hide At;
  }

  /** Every simdgroup's accumulators hold its tile's sums below `n`. */
  ghost predicate GroupHolds(s: Size, x: seq<real>, w: seq<real>, tg: nat, tiles: nat, n: nat, accs: seq<seq<Tile>>)
    requires Sized(s, x, w) && 8 <= s.O && n <= s.D
  {
    |accs| == GROUPS
    && forall sg: nat :: sg < GROUPS ==> HoldsAll(s, x, w, Start(s, tg * GROUPS + sg), tiles, n, accs[sg])
  }

  ghost predicate HoldsAll(s: Size, x: seq<real>, w: seq<real>, o0: nat, tiles: nat, n: nat, acc: seq<Tile>)
    requires Sized(s, x, w) && o0 + 8 <= s.O && n <= s.D
  {
    |acc| == tiles && forall t :: 0 <= t < tiles ==> TileHolds(s, x, w, o0, t, n, acc[t])
  }

  function ZeroTile(): (t: Tile)
    ensures IsTile(t) && forall r, c :: 0 <= r < 8 && 0 <= c < 8 ==> t[r][c] == 0.0
  {
    var t := seq(8, r requires 0 <= r < 8 => Zeros(8));
    assert forall r :: 0 <= r < 8 ==> t[r] == Zeros(8);
    t
  }

  /** The tile kernel's threadgroup `tg`: chunk by chunk, stage, wait, multiply, wait; then store. */
  method Threadgroup(s: Size, x: seq<real>, w: seq<real>, y: array<real>, chunk: nat, tg: nat)
    requires Sized(s, x, w) && y.Length == s.M * s.O && 8 <= s.O && Chunks(s, chunk)
    modifies y
    ensures Spread(s, x, w, old(y[..]), y[..], Columns(s, tg, GROUPS))
  {
    hide *;
    var tiles := (s.M + 7) / 8;
    ghost var before := y[..];
    SizedMeans(s, x, w);
    ChunksMeans(s, chunk);
    var accs := seq(GROUPS, sg requires 0 <= sg < GROUPS => seq(tiles, t requires 0 <= t < tiles => ZeroTile()));
    GroupStarts(s, x, w, tg, tiles, accs);
    var kc := 0;
    while kc < s.D
      invariant kc <= s.D && kc % chunk == 0 && y[..] == before
      invariant GroupHolds(s, x, w, tg, tiles, kc, accs)
    {
      NextChunk(s, chunk, kc);
      var xs := Stage(s, x, 8 * tiles, chunk, kc);
      accs := MultiplyGroup(s, x, w, xs, tiles, chunk, kc, tg, accs);
      kc := kc + chunk;
    }
    SpreadNone(s, x, w, before);
    ColumnsNone(s, tg);
    for sg := 0 to GROUPS
      invariant Spread(s, x, w, before, y[..], Columns(s, tg, sg))
    {
      HoldsMeans(s, x, w, tg, tiles, s.D, accs, sg);
      ghost var mid := y[..];
      StoreTiles(s, x, w, y, tiles, Start(s, tg * GROUPS + sg), accs[sg]);
      SpreadMore(s, x, w, before, mid, y[..], Columns(s, tg, sg), Start(s, tg * GROUPS + sg), Start(s, tg * GROUPS + sg) + 8);
      ColumnsNext(s, tg, sg);
    }
  }

  method MultiplyGroup(s: Size, ghost x: seq<real>, w: seq<real>, xs: seq<real>, tiles: nat, chunk: nat, kc: nat, tg: nat, accsIn: seq<seq<Tile>>)
    returns (accs: seq<seq<Tile>>)
    requires Sized(s, x, w) && 8 <= s.O && Chunks(s, chunk) && kc + chunk <= s.D && |x| == s.M * s.D
    requires Staged(s, x, 8 * tiles, chunk, kc, xs) && GroupHolds(s, x, w, tg, tiles, kc, accsIn)
    ensures GroupHolds(s, x, w, tg, tiles, kc + chunk, accs)
  {
    hide *;
    accs := accsIn;
    GroupSize(s, x, w, tg, tiles, kc, accsIn);
    for sg := 0 to GROUPS
      invariant |accs| == GROUPS
      invariant forall g: nat :: g < sg ==> HoldsAll(s, x, w, Start(s, tg * GROUPS + g), tiles, kc + chunk, accs[g])
      invariant forall g: nat :: sg <= g < GROUPS ==> accs[g] == accsIn[g]
    {
      HoldsMeans(s, x, w, tg, tiles, kc, accsIn, sg);
      var acc := MultiplyChunk(s, x, w, xs, tiles, chunk, kc, Start(s, tg * GROUPS + sg), accs[sg]);
      HoldsIf(s, x, w, Start(s, tg * GROUPS + sg), tiles, kc + chunk, acc);
      accs := accs[sg := acc];
    }
    GroupIf(s, x, w, tg, tiles, kc + chunk, accs);
  }

  lemma ChunksMeans(s: Size, chunk: nat)
    requires Chunks(s, chunk)
    ensures 0 < chunk && s.D % chunk == 0 && 0 % chunk == 0
  {
  }

  lemma NextChunk(s: Size, chunk: nat, kc: nat)
    requires Chunks(s, chunk) && kc < s.D && kc % chunk == 0
    ensures kc + chunk <= s.D && (kc + chunk) % chunk == 0
  {
    if chunk == 128 {
    } else {
    }
  }

  lemma GroupStarts(s: Size, x: seq<real>, w: seq<real>, tg: nat, tiles: nat, accs: seq<seq<Tile>>)
    requires Sized(s, x, w) && 8 <= s.O && |accs| == GROUPS
    requires forall sg: nat :: sg < GROUPS ==> |accs[sg]| == tiles && forall t :: 0 <= t < tiles ==> accs[sg][t] == ZeroTile()
    ensures GroupHolds(s, x, w, tg, tiles, 0, accs)
  {
  }

  lemma GroupSize(s: Size, x: seq<real>, w: seq<real>, tg: nat, tiles: nat, n: nat, accs: seq<seq<Tile>>)
    requires Sized(s, x, w) && 8 <= s.O && n <= s.D && GroupHolds(s, x, w, tg, tiles, n, accs)
    ensures |accs| == GROUPS
  {
  }

  lemma HoldsMeans(s: Size, x: seq<real>, w: seq<real>, tg: nat, tiles: nat, n: nat, accs: seq<seq<Tile>>, sg: nat)
    requires Sized(s, x, w) && 8 <= s.O && n <= s.D && GroupHolds(s, x, w, tg, tiles, n, accs) && sg < GROUPS
    ensures |accs| == GROUPS && |accs[sg]| == tiles
    ensures forall t :: 0 <= t < tiles ==> TileHolds(s, x, w, Start(s, tg * GROUPS + sg), t, n, accs[sg][t])
  {
    hide TileHolds;
  }

  lemma HoldsIf(s: Size, x: seq<real>, w: seq<real>, o0: nat, tiles: nat, n: nat, acc: seq<Tile>)
    requires Sized(s, x, w) && o0 + 8 <= s.O && n <= s.D && |acc| == tiles
    requires forall t :: 0 <= t < tiles ==> TileHolds(s, x, w, o0, t, n, acc[t])
    ensures HoldsAll(s, x, w, o0, tiles, n, acc)
  {
    hide TileHolds;
  }

  lemma GroupIf(s: Size, x: seq<real>, w: seq<real>, tg: nat, tiles: nat, n: nat, accs: seq<seq<Tile>>)
    requires Sized(s, x, w) && 8 <= s.O && n <= s.D && |accs| == GROUPS
    requires forall g: nat :: g < GROUPS ==> HoldsAll(s, x, w, Start(s, tg * GROUPS + g), tiles, n, accs[g])
    ensures GroupHolds(s, x, w, tg, tiles, n, accs)
  {
    hide HoldsAll;
  }

  lemma ColumnsNone(s: Size, tg: nat)
    requires 8 <= s.O
    ensures Columns(s, tg, 0) == {}
  {
  }

  lemma ColumnsNext(s: Size, tg: nat, n: nat)
    requires 8 <= s.O
    ensures Columns(s, tg, n + 1) == Columns(s, tg, n) + Range(Start(s, tg * GROUPS + n), Start(s, tg * GROUPS + n) + 8)
  {
  }

  // ---------------------------------------------------------------- dispatch

  predicate Big(s: Size) { s.O * s.D >= BIG_WEIGHT }

  /** skinny_matmul_applies, on the shapes and whether both are half floats. */
  predicate Applies(halves: bool, xShape: seq<nat>, wShape: seq<nat>) {
    && halves && |wShape| == 2 && wShape[1] % 128 == 0
    && !(|xShape| == 3 && xShape[1] != 1) && (|xShape| == 2 || |xShape| == 3)
    && 2 <= xShape[0] && xShape[|xShape| - 1] == wShape[1]
    && (xShape[0] <= TWO_COL_MAX
        || (xShape[0] <= MMA_MAX && wShape[0] >= 8 && Big(Size(xShape[0], wShape[0], wShape[1]))))
  }

  datatype Kernel = OneCol | TwoCol | Mma

  function Chosen(s: Size): Kernel {
    if s.M <= ONE_COL_MAX then OneCol else if s.O >= 8 && Big(s) then Mma else TwoCol
  }

  /** How many groups the grid has; for the tile kernel, threadgroups. */
  function Grid(s: Size): nat {
    match Chosen(s)
    case OneCol => s.O
    case TwoCol => (s.O + 1) / 2
    case Mma => ((s.O + 7) / 8 + GROUPS - 1) / GROUPS
  }

  /** The columns group `g` stores. */
  ghost function Owned(s: Size, g: nat): set<nat>
  {
    match Chosen(s)
    case OneCol => Range(g, g + 1)
    case TwoCol => Range(2 * g, if 2 * g + 1 < s.O then 2 * g + 2 else 2 * g + 1)
    case Mma => Columns(s, g, GROUPS)
  }

  /** Some group stores every column. */
  lemma Covered(s: Size, o: nat) returns (g: nat)
    requires o < s.O
    ensures g < Grid(s) && o in Owned(s, g)
  {
    match Chosen(s)
    case OneCol => g := o;
    case TwoCol => g := o / 2;
    case Mma =>
      g := o / 8 / GROUPS;
      var sg := o / 8 % GROUPS;
      assert g * GROUPS + sg == o / 8;
      assert o in Range(Start(s, g * GROUPS + sg), Start(s, g * GROUPS + sg) + 8);
      InColumns(s, g, sg, GROUPS, o);
  }

  lemma {:induction false} InColumns(s: Size, tg: nat, sg: nat, n: nat, o: nat)
    requires 8 <= s.O && sg < n && o in Range(Start(s, tg * GROUPS + sg), Start(s, tg * GROUPS + sg) + 8)
    ensures o in Columns(s, tg, n)
    decreases n
  {
    hide Range;
    hide Start;
    if sg < n - 1 {
      InColumns(s, tg, sg, n - 1, o);
    }
  }

  /** One group of the grid. */
  method RunGroup(s: Size, x: seq<real>, w: seq<real>, y: array<real>, g: nat)
    requires Sized(s, x, w) && y.Length == s.M * s.O && s.D % 128 == 0 && g < Grid(s)
    modifies y
    ensures Spread(s, x, w, old(y[..]), y[..], Owned(s, g))
  {
    ghost var before := y[..];
    OwnedIs(s, g);
    hide Spread;
    hide Wrote;
    hide Sized;
    hide Columns;
    hide Owned;
    SpreadNone(s, x, w, before);
    match Chosen(s) {
      case OneCol =>
        OneColumn(s, x, w, y, g);
        SpreadMore(s, x, w, before, before, y[..], {}, g, g + 1);
      case TwoCol =>
        TwoColumns(s, x, w, y, g);
        SpreadMore(s, x, w, before, before, y[..], {}, 2 * g, if 2 * g + 1 < s.O then 2 * g + 2 else 2 * g + 1);
      case Mma =>
        Threadgroup(s, x, w, y, if s.D % 256 == 0 then 256 else 128, g);
    }
  }

  lemma OwnedIs(s: Size, g: nat)
    ensures Chosen(s) == OneCol ==> Owned(s, g) == {} + Range(g, g + 1)
    ensures Chosen(s) == TwoCol ==> Owned(s, g) == {} + Range(2 * g, if 2 * g + 1 < s.O then 2 * g + 2 else 2 * g + 1)
    ensures Chosen(s) == Mma ==> 8 <= s.O && Owned(s, g) == Columns(s, g, GROUPS)
  {
    hide Columns;
    hide Range;
  }

  /** skinny_matmul: for every shape the dispatcher sends here, and whatever order the grid's groups run
      in, y is x times w-transpose in every cell. */
  method Multiply(s: Size, x: seq<real>, w: seq<real>, y: array<real>, order: seq<nat>)
    requires Sized(s, x, w) && y.Length == s.M * s.O && Applies(true, [s.M, s.D], [s.O, s.D])
    requires (forall g :: g in order ==> g < Grid(s)) && forall g: nat :: g < Grid(s) ==> g in order
    modifies y
    ensures forall m: nat, o: nat :: m < s.M && o < s.O ==> At(y[..], s.M, s.O, m, o) == Product(s, x, w, m, o)
  {
    assert s.D % 128 == 0;
    hide *;
    ghost var before := y[..];
    ghost var done: set<nat> := {};
    SpreadNone(s, x, w, before);
    for i := 0 to |order|
      invariant Spread(s, x, w, before, y[..], done)
      invariant forall k :: 0 <= k < i ==> Owned(s, order[k]) <= done
    {
      ghost var mid := y[..];
      assert order[i] in order;
      RunGroup(s, x, w, y, order[i]);
      SpreadBoth(s, x, w, before, mid, y[..], done, Owned(s, order[i]));
      done := done + Owned(s, order[i]);
    }
    forall o: nat | o < s.O
      ensures o in done
    {
      var g := Covered(s, o);
      assert g in order;
      var k :| 0 <= k < |order| && order[k] == g;
    }
    AllSpread(s, x, w, before, y[..], done);
  }

  lemma AllSpread(s: Size, x: seq<real>, w: seq<real>, before: seq<real>, after: seq<real>, done: set<nat>)
    requires Sized(s, x, w) && Spread(s, x, w, before, after, done) && forall o: nat :: o < s.O ==> o in done
    ensures |after| == s.M * s.O
    ensures forall m: nat, o: nat :: m < s.M && o < s.O ==> At(after, s.M, s.O, m, o) == Product(s, x, w, m, o)
  {
    hide Product;
    hide At;
  }
}
