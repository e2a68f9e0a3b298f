/** Sequence-axis surgery on cached K/V components (src/cache/kv_quant.cpp).

    A component tensor is (B, n_kv_heads, S_cap, comp_dim). No operation here looks at the
    head or component axes, so one `Cell` stands for everything stored at one (row, slot). */
module KvQuant {
  type Cell(==, !new, 0)

  /** What mx::zeros fills added storage with. */
  const ZERO: Cell

  type Row = seq<Cell>
  type Tensor = seq<Row>

  /** Storage grows in blocks of this many slots. */
  const STEP: nat := 256

  predicate Shaped(t: Tensor, rows: nat, cap: nat) {
    |t| == rows && forall r :: 0 <= r < rows ==> |t[r]| == cap
  }

  predicate AllShaped(ts: seq<Tensor>, rows: nat, cap: nat) {
    forall i :: 0 <= i < |ts| ==> Shaped(ts[i], rows, cap)
  }

  function Zeros(rows: nat, cap: nat): Tensor {
    seq(rows, _ => seq(cap, _ => ZERO))
  }

  function SliceSeq(a: Tensor, start: nat, stop: nat): Tensor
    requires start <= stop && forall r :: 0 <= r < |a| ==> stop <= |a[r]|
  {
    seq(|a|, r requires 0 <= r < |a| => a[r][start..stop])
  }

  /** Concatenation along the sequence axis. */
  function ConcatSeq(a: Tensor, b: Tensor): Tensor
    requires |a| == |b|
  {
    seq(|a|, r requires 0 <= r < |a| => a[r] + b[r])
  }

  /** mx::slice_update on the sequence axis, starting at slot `start`. */
  function SliceUpdate(a: Tensor, x: Tensor, start: nat): Tensor
    requires |a| == |x|
    requires forall r :: 0 <= r < |a| ==> start + |x[r]| <= |a[r]|
  {
    seq(|a|, r requires 0 <= r < |a| => a[r][..start] + x[r] + a[r][start + |x[r]|..])
  }

  /** Capacity after writing `len` slots at `prev` into storage of capacity `cap`. */
  function GrownCap(written: bool, cap: nat, prev: nat, len: nat): (r: nat)
    requires written ==> prev <= cap
    requires !written ==> prev == 0
    ensures prev + len <= r && (written && prev + len <= cap ==> r == cap)
    ensures !(written && prev + len <= cap) ==>
              var kept := if !written then 0 else if prev % 256 != 0 then prev else cap;
              kept <= r && (r - kept) % 256 == 0 && len <= r - kept < len + 256
  {
    if written && prev + len <= cap then cap
    else (if !written then 0 else if prev % STEP != 0 then prev else cap) + (STEP + len - 1) / STEP * STEP
  }

  /** `a` and `b` agree on the first `n` slots of every row. */
  ghost predicate SamePrefix(a: Tensor, b: Tensor, n: nat) {
    && |a| == |b|
    && forall r :: 0 <= r < |a| ==> n <= |a[r]| && n <= |b[r]| && a[r][..n] == b[r][..n]
  }

  /** Rows of `x` sit in `a` at slot `at`. */
  ghost predicate Holds(a: Tensor, at: nat, x: Tensor) {
    && |a| == |x|
    && forall r :: 0 <= r < |a| ==> at + |x[r]| <= |a[r]| && a[r][at..at + |x[r]|] == x[r]
  }

  lemma SliceUpdateWrites(a: Tensor, x: Tensor, start: nat, rows: nat, cap: nat, len: nat)
    requires Shaped(a, rows, cap) && Shaped(x, rows, len) && start + len <= cap
    ensures Shaped(SliceUpdate(a, x, start), rows, cap)
    ensures SamePrefix(SliceUpdate(a, x, start), a, start)
    ensures Holds(SliceUpdate(a, x, start), start, x)
  {
    var u := SliceUpdate(a, x, start);
    forall r | 0 <= r < rows
      ensures |u[r]| == cap && u[r][..start] == a[r][..start] && u[r][start..start + len] == x[r]
    {
      assert u[r] == a[r][..start] + x[r] + a[r][start + len..];
    }
  }

  /** One component grown for a write of `len` slots at `prev`: any unused tail of the last
      block is dropped first, the populated slots stay. */
  method GrowOne(cur: Tensor, prev: nat, add: nat, ghost rows: nat, ghost cap: nat) returns (grown: Tensor)
    requires Shaped(cur, rows, cap) && prev <= cap
    ensures Shaped(grown, rows, (if prev % STEP != 0 then prev else cap) + add)
    ensures SamePrefix(grown, cur, prev)
  {
    var kept := if prev % STEP != 0 then SliceSeq(cur, 0, prev) else cur;
    var zeros := Zeros(|cur|, add);
    grown := ConcatSeq(kept, zeros);
    forall r | 0 <= r < rows
      ensures grown[r][..prev] == cur[r][..prev]
    {
      assert grown[r] == kept[r] + zeros[r];
      assert kept[r][..prev] == cur[r][..prev];
    }
  }

  /** Grow every component. */
  method Grow(store: seq<Tensor>, n: nat, prev: nat, len: nat, rows: nat, ghost cap: nat) returns (grown: seq<Tensor>)
    requires store == [] || |store| == n
    requires AllShaped(store, rows, cap)
    requires if store == [] then prev == 0 else prev <= cap < prev + len
    ensures |grown| == n && AllShaped(grown, rows, GrownCap(store != [], cap, prev, len))
    ensures store != [] ==> forall i :: 0 <= i < n ==> SamePrefix(grown[i], store[i], prev)
  {
    var add := (STEP + len - 1) / STEP * STEP;
    grown := [];
    for i := 0 to n
      invariant |grown| == i
      invariant AllShaped(grown, rows, GrownCap(store != [], cap, prev, len))
      invariant store != [] ==> forall k :: 0 <= k < i ==> SamePrefix(grown[k], store[k], prev)
    {
      var one;
      if store == [] {
        one := Zeros(rows, add);
      } else {
        one := GrowOne(store[i], prev, add, rows, cap);
      }
      grown := grown + [one];
    }
  }

  /** Write `x` at slots [prev, prev + len), growing the storage when it is too short. The
      populated slots [0, prev) survive the growth, although growth may drop a tail. */
  method UpdateKvComponents(store: seq<Tensor>, x: seq<Tensor>, prev: nat,
                            ghost rows: nat, ghost cap: nat, ghost len: nat)
    returns (grown: seq<Tensor>, out: seq<Tensor>)
    requires 0 < |x| && 0 < rows
    requires AllShaped(x, rows, len)
    requires store == [] || |store| == |x|
    requires AllShaped(store, rows, cap)
    requires if store == [] then prev == 0 else prev <= cap
    ensures |grown| == |x| && AllShaped(grown, rows, GrownCap(store != [], cap, prev, len))
    ensures forall i :: 0 <= i < |x| ==> Holds(grown[i], prev, x[i])
    ensures store != [] ==> forall i :: 0 <= i < |x| ==> SamePrefix(grown[i], store[i], prev)
    ensures |out| == |x| && forall i :: 0 <= i < |x| ==> out[i] == SliceSeq(grown[i], 0, prev + len)
  {
    hide Holds;
    hide SliceSeq;
    hide SliceUpdate;
    assert Shaped(x[0], rows, len);
    var l := |x[0][0]|;
    var end := prev + l;
    var haveCap := if store == [] then 0 else |store[0][0]|;
    assert store != [] ==> Shaped(store[0], rows, cap);
    grown := store;
    if store == [] || end > haveCap {
      grown := Grow(store, |x|, prev, l, |x[0]|, cap);
    }
    ghost var newCap := GrownCap(store != [], cap, prev, len);

    out := [];
    for i := 0 to |x|
      invariant |out| == i && |grown| == |x|
      invariant AllShaped(grown, rows, newCap)
      invariant store != [] ==> forall k :: 0 <= k < |x| ==> SamePrefix(grown[k], store[k], prev)
      invariant forall k :: 0 <= k < i ==> Holds(grown[k], prev, x[k])
      invariant forall k :: 0 <= k < i ==> out[k] == SliceSeq(grown[k], 0, end)
    {
      SliceUpdateWrites(grown[i], x[i], prev, rows, newCap, len);
      grown := grown[i := SliceUpdate(grown[i], x[i], prev)];
      out := out + [SliceSeq(grown[i], 0, end)];
    }
  }
}
