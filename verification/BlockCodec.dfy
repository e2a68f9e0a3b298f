/** The disk tier's file format (src/cache/block_store.cpp, serialize_block and deserialize_block). */
module BlockCodec {
  import opened Wrappers

  type Byte = b: int | 0 <= b < 256
  type Bytes = seq<Byte>

  const MAGIC: nat := 0x3142564b46584c4d
  const VERSION: nat := 1
  const MAX_LAYERS: nat := 4096
  const MAX_COMPS: nat := 3
  const SIZE_MOD: nat := 0x1_0000_0000_0000_0000
  const SIGN: nat := 0x8000_0000

  /** One stored array: dtype code (0 half floats, 1 packed words), shape and raw bytes. */
  datatype Comp = Comp(code: nat, shape: seq<int>, data: Bytes)

  /** [layer][component] */
  datatype Block = Block(k: seq<seq<Comp>>, v: seq<seq<Comp>>)

  datatype Parse<T> = Fail | Got(value: T, rest: Bytes)

  // ---------------------------------------------------------------- little-endian integers

  function Pow(n: nat): (p: nat)
    ensures 0 < p
  {
    if n == 0 then 1 else 256 * Pow(n - 1)
  }

  function Le(v: nat, n: nat): (bs: Bytes)
    ensures |bs| == n
  {
    if n == 0 then [] else [v % 256] + Le(v / 256, n - 1)
  }

  function FromLe(bs: Bytes): (v: nat)
  {
    if bs == [] then 0 else bs[0] + 256 * FromLe(bs[1..])
  }

  lemma {:induction false} LeBack(v: nat, n: nat)
    requires v < Pow(n)
    ensures FromLe(Le(v, n)) == v
    decreases n
  {
    if n > 0 {
      assert v / 256 < Pow(n - 1);
      LeBack(v / 256, n - 1);
      assert Le(v, n)[1..] == Le(v / 256, n - 1);
    }
  }

  lemma {:induction false} FromLeBack(bs: Bytes)
    ensures FromLe(bs) < Pow(|bs|) && Le(FromLe(bs), |bs|) == bs
    decreases |bs|
  {
    if bs != [] {
      FromLeBack(bs[1..]);
      var v := FromLe(bs);
      assert v % 256 == bs[0] && v / 256 == FromLe(bs[1..]);
    }
  }

  lemma Widths()
    ensures Pow(4) == 0x1_0000_0000 && Pow(8) == SIZE_MOD
  {
    assert Pow(1) == 256 * Pow(0);
    assert Pow(2) == 256 * Pow(1);
    assert Pow(3) == 256 * Pow(2);
    assert Pow(4) == 256 * Pow(3);
    assert Pow(5) == 256 * Pow(4);
    assert Pow(6) == 256 * Pow(5);
    assert Pow(7) == 256 * Pow(6);
    assert Pow(8) == 256 * Pow(7);
  }

  /** Reader::read: `n` bytes off the front, if they are there. */
  function ReadInt(bs: Bytes, n: nat): Parse<nat> {
    if |bs| < n then Fail else Got(FromLe(bs[..n]), bs[n..])
  }

  /** Reading gives `v` exactly from `v`'s bytes. */
  lemma ReadIntExact(bs: Bytes, n: nat, v: nat, rest: Bytes)
    ensures ReadInt(bs, n) == Got(v, rest) <==> v < Pow(n) && bs == Le(v, n) + rest
  {
    if n <= |bs| {
      FromLeBack(bs[..n]);
      assert bs == bs[..n] + bs[n..];
    }
    if v < Pow(n) && bs == Le(v, n) + rest {
      assert bs[..n] == Le(v, n) && bs[n..] == rest;
      LeBack(v, n);
    }
  }

  // ---------------------------------------------------------------- components

  /** A 32-bit pattern as the signed integer it is. */
  function Signed(u: nat): int { if u < SIGN then u else u - 2 * SIGN }

  /** The bits of a 32-bit signed integer. */
  function Unsigned(x: int): nat { x % (2 * SIGN) }

  function WriteDims(dims: seq<int>): Bytes {
    if dims == [] then [] else Le(Unsigned(dims[0]), 4) + WriteDims(dims[1..])
  }

  function WriteComp(c: Comp): Bytes {
    Le(c.code, 4) + WriteDims(c.shape) + Le(|c.data|, 8) + c.data
  }

  function Product(dims: seq<int>): int {
    if dims == [] then 1 else dims[0] * Product(dims[1..])
  }

  /** Byte count of `dims` elements, in size_t arithmetic. */
  function SizeOf(code: nat, dims: seq<int>): int {
    Product(dims) % SIZE_MOD * (if code == 0 then 2 else 4) % SIZE_MOD
  }

  predicate DimsOk(dims: seq<int>) {
    forall i :: 0 <= i < |dims| ==> 0 < dims[i] < SIGN
  }

  /** A component the reader takes. */
  predicate CompOk(c: Comp) {
    && c.code <= 1 && |c.shape| == 4 && DimsOk(c.shape)
    && |c.data| < SIZE_MOD && |c.data| == SizeOf(c.code, c.shape)
  }

  function ReadDims(bs: Bytes, n: nat): Parse<seq<int>>
    decreases n
  {
    if n == 0 then Got([], bs)
    else
      var d := ReadInt(bs, 4);
      if d.Fail? || Signed(d.value) <= 0 then Fail
      else
        var more := ReadDims(d.rest, n - 1);
        if more.Fail? then Fail else Got([Signed(d.value)] + more.value, more.rest)
  }

  /** read_comp */
  function ReadComp(bs: Bytes): Parse<Comp> {
    var code := ReadInt(bs, 4);
    if code.Fail? || code.value > 1 then Fail
    else
      var dims := ReadDims(code.rest, 4);
      if dims.Fail? then Fail
      else
        var size := ReadInt(dims.rest, 8);
        if size.Fail? || |size.rest| < size.value || size.value != SizeOf(code.value, dims.value) then Fail
        else Got(Comp(code.value, dims.value, size.rest[..size.value]), size.rest[size.value..])
  }

  lemma Associate(a: Bytes, b: Bytes, c: Bytes)
    ensures a + (b + c) == (a + b) + c
  {
  }

  lemma {:induction false} DimsBack(dims: seq<int>, rest: Bytes)
    requires DimsOk(dims)
    ensures ReadDims(WriteDims(dims) + rest, |dims|) == Got(dims, rest)
    decreases |dims|
  {
    if dims == [] {
      assert [] + rest == rest;
    } else {
      var first, tail := Le(dims[0], 4), WriteDims(dims[1..]);
      Widths();
      assert Unsigned(dims[0]) == dims[0] == Signed(dims[0]);
      Associate(first, tail, rest);
      ReadIntExact(first + (tail + rest), 4, dims[0], tail + rest);
      DimsBack(dims[1..], rest);
      hide *;
      DimsUnroll(dims, first + tail + rest, rest);
    }
  }

  lemma DimsUnroll(dims: seq<int>, bs: Bytes, rest: Bytes)
    requires dims != [] && DimsOk(dims) && ReadInt(bs, 4) == Got(dims[0], WriteDims(dims[1..]) + rest)
    requires ReadDims(WriteDims(dims[1..]) + rest, |dims| - 1) == Got(dims[1..], rest)
    ensures ReadDims(bs, |dims|) == Got(dims, rest)
  {
    hide ReadInt;
    hide WriteDims;
    assert dims == [dims[0]] + dims[1..];
  }

  lemma {:induction false} DimsFrom(bs: Bytes, n: nat)
    requires ReadDims(bs, n).Got?
    ensures
      var r := ReadDims(bs, n);
      |r.value| == n && DimsOk(r.value) && bs == WriteDims(r.value) + r.rest
    decreases n
  {
    var r := ReadDims(bs, n);
    if n > 0 {
      var d := ReadInt(bs, 4);
      var more := ReadDims(d.rest, n - 1);
      ReadIntExact(bs, 4, d.value, d.rest);
      DimsFrom(d.rest, n - 1);
      Widths();
      assert r.value[1..] == more.value && Unsigned(Signed(d.value)) == d.value;
      assert WriteDims(r.value) == Le(d.value, 4) + WriteDims(more.value);
      Associate(Le(d.value, 4), WriteDims(more.value), r.rest);
    }
  }

  lemma CompBack(c: Comp, rest: Bytes)
    requires CompOk(c)
    ensures ReadComp(WriteComp(c) + rest) == Got(c, rest)
  {
    Widths();
    CompOkMeans(c);
    hide *;
    var t3 := c.data + rest;
    var t2 := Le(|c.data|, 8) + t3;
    var t1 := WriteDims(c.shape) + t2;
    var bs := WriteComp(c) + rest;
    CompBytes(c);
    Append(Le(c.code, 4), WriteDims(c.shape), Le(|c.data|, 8), c.data, rest);
    ReadIntExact(bs, 4, c.code, t1);
    DimsBack(c.shape, t2);
    ReadIntExact(t2, 8, |c.data|, t3);
    assert t3[..|c.data|] == c.data && t3[|c.data|..] == rest;
    CompSteps(bs);
  }

  lemma CompOkMeans(c: Comp)
    requires CompOk(c)
    ensures c.code < Pow(4) && c.code <= 1 && |c.shape| == 4 && DimsOk(c.shape)
    ensures |c.data| < SIZE_MOD && |c.data| == SizeOf(c.code, c.shape)
  {
    Widths();
  }

  lemma CompBytes(c: Comp)
    ensures WriteComp(c) == Le(c.code, 4) + WriteDims(c.shape) + Le(|c.data|, 8) + c.data
  {
  }

  lemma CompFrom(bs: Bytes)
    requires ReadComp(bs).Got?
    ensures
      var r := ReadComp(bs);
      CompOk(r.value) && bs == WriteComp(r.value) + r.rest
  {
    var r := ReadComp(bs);
    var c := r.value;
    var code := ReadInt(bs, 4);
    var dims := ReadDims(code.rest, 4);
    var size := ReadInt(dims.rest, 8);
    ReadIntExact(bs, 4, code.value, code.rest);
    DimsFrom(code.rest, 4);
    ReadIntExact(dims.rest, 8, size.value, size.rest);
    Widths();
    hide *;
    CompParts(bs);
    Append(Le(c.code, 4), WriteDims(c.shape), Le(|c.data|, 8), c.data, r.rest);
  }

  /** What a component read is made of. */
  lemma CompParts(bs: Bytes)
    requires ReadComp(bs).Got?
    ensures
      var r := ReadComp(bs);
      var code := ReadInt(bs, 4);
      var dims := ReadDims(code.rest, 4);
      var size := ReadInt(dims.rest, 8);
      && code.Got? && dims.Got? && size.Got?
      && r.value.code == code.value <= 1 && r.value.shape == dims.value
      && |r.value.data| == size.value == SizeOf(code.value, dims.value) && size.rest == r.value.data + r.rest
      && WriteComp(r.value) == Le(r.value.code, 4) + WriteDims(r.value.shape) + Le(|r.value.data|, 8) + r.value.data
      && (CompOk(r.value) <==> |dims.value| == 4 && DimsOk(dims.value) && size.value < SIZE_MOD)
  {
    hide ReadInt;
    hide ReadDims;
    hide SizeOf;
    hide DimsOk;
    hide Le;
    hide WriteDims;
  }

  lemma Append(a: Bytes, b: Bytes, c: Bytes, d: Bytes, rest: Bytes)
    ensures a + b + c + d + rest == a + (b + (c + (d + rest)))
  {
  }

  // ---------------------------------------------------------------- layers

  function WriteComps(cs: seq<Comp>): Bytes {
    if cs == [] then [] else WriteComp(cs[0]) + WriteComps(cs[1..])
  }

  predicate CompsOk(cs: seq<Comp>) {
    forall i :: 0 <= i < |cs| ==> CompOk(cs[i])
  }

  function ReadComps(bs: Bytes, n: nat): Parse<seq<Comp>>
    decreases n
  {
    if n == 0 then Got([], bs)
    else
      var c := ReadComp(bs);
      if c.Fail? then Fail
      else
        var more := ReadComps(c.rest, n - 1);
        if more.Fail? then Fail else Got([c.value] + more.value, more.rest)
  }

  lemma {:induction false} CompsBack(cs: seq<Comp>, rest: Bytes)
    requires CompsOk(cs)
    ensures ReadComps(WriteComps(cs) + rest, |cs|) == Got(cs, rest)
    decreases |cs|
  {
    hide WriteComp;
    hide ReadComp;
    hide CompOk;
    if cs == [] {
      assert [] + rest == rest;
    } else {
      Associate(WriteComp(cs[0]), WriteComps(cs[1..]), rest);
      CompBack(cs[0], WriteComps(cs[1..]) + rest);
      CompsBack(cs[1..], rest);
      assert cs == [cs[0]] + cs[1..];
    }
  }

  lemma {:induction false} CompsFrom(bs: Bytes, n: nat)
    requires ReadComps(bs, n).Got?
    ensures
      var r := ReadComps(bs, n);
      |r.value| == n && CompsOk(r.value) && bs == WriteComps(r.value) + r.rest
    decreases n
  {
    hide WriteComp;
    hide ReadComp;
    hide CompOk;
    if n > 0 {
      var r, c := ReadComps(bs, n), ReadComp(bs);
      CompFrom(bs);
      CompsFrom(c.rest, n - 1);
      assert r.value[1..] == ReadComps(c.rest, n - 1).value;
      Associate(WriteComp(c.value), WriteComps(r.value[1..]), r.rest);
    }
  }

  /** Per layer, K components then V components. */
  function WriteLayers(k: seq<seq<Comp>>, v: seq<seq<Comp>>): Bytes
    requires |k| == |v|
  {
    if k == [] then [] else WriteComps(k[0]) + WriteComps(v[0]) + WriteLayers(k[1..], v[1..])
  }

  predicate LayersOk(ls: seq<seq<Comp>>, n: nat) {
    forall l :: 0 <= l < |ls| ==> |ls[l]| == n && CompsOk(ls[l])
  }

  function ReadLayers(bs: Bytes, n: nat, kComps: nat, vComps: nat): Parse<Block>
    decreases n
  {
    if n == 0 then Got(Block([], []), bs)
    else
      var k := ReadComps(bs, kComps);
      if k.Fail? then Fail
      else
        var v := ReadComps(k.rest, vComps);
        if v.Fail? then Fail
        else
          var more := ReadLayers(v.rest, n - 1, kComps, vComps);
          if more.Fail? then Fail else Got(Block([k.value] + more.value.k, [v.value] + more.value.v), more.rest)
  }

  lemma {:induction false} LayersBack(k: seq<seq<Comp>>, v: seq<seq<Comp>>, kComps: nat, vComps: nat, rest: Bytes)
    requires |k| == |v| && LayersOk(k, kComps) && LayersOk(v, vComps)
    ensures ReadLayers(WriteLayers(k, v) + rest, |k|, kComps, vComps) == Got(Block(k, v), rest)
    decreases |k|
  {
    hide WriteComps;
    hide ReadComps;
    hide CompsOk;
    if k == [] {
      assert [] + rest == rest;
    } else {
      var tail := WriteLayers(k[1..], v[1..]) + rest;
      Associate(WriteComps(k[0]), WriteComps(v[0]), WriteLayers(k[1..], v[1..]));
      Associate(WriteComps(k[0]), WriteComps(v[0]) + WriteLayers(k[1..], v[1..]), rest);
      Associate(WriteComps(v[0]), WriteLayers(k[1..], v[1..]), rest);
      CompsBack(k[0], WriteComps(v[0]) + tail);
      CompsBack(v[0], tail);
      LayersBack(k[1..], v[1..], kComps, vComps, rest);
      assert k == [k[0]] + k[1..] && v == [v[0]] + v[1..];
    }
  }

  lemma {:induction false} LayersFrom(bs: Bytes, n: nat, kComps: nat, vComps: nat)
    requires ReadLayers(bs, n, kComps, vComps).Got?
    ensures
      var r := ReadLayers(bs, n, kComps, vComps);
      && |r.value.k| == |r.value.v| == n && LayersOk(r.value.k, kComps) && LayersOk(r.value.v, vComps)
      && bs == WriteLayers(r.value.k, r.value.v) + r.rest
    decreases n
  {
    hide WriteComps;
    hide ReadComps;
    hide CompsOk;
    if n > 0 {
      var r := ReadLayers(bs, n, kComps, vComps);
      var k := ReadComps(bs, kComps);
      var v := ReadComps(k.rest, vComps);
      CompsFrom(bs, kComps);
      CompsFrom(k.rest, vComps);
      LayersFrom(v.rest, n - 1, kComps, vComps);
      assert r.value.k[1..] == ReadLayers(v.rest, n - 1, kComps, vComps).value.k;
      assert r.value.v[1..] == ReadLayers(v.rest, n - 1, kComps, vComps).value.v;
      var w := WriteLayers(r.value.k[1..], r.value.v[1..]);
      Associate(WriteComps(v.value), w, r.rest);
      Associate(WriteComps(k.value), WriteComps(v.value), w);
      Associate(WriteComps(k.value), WriteComps(v.value) + w, r.rest);
    }
  }

  // ---------------------------------------------------------------- blocks

  function Width(ls: seq<seq<Comp>>): nat { if ls == [] then 0 else |ls[0]| }

  function WriteHeader(salt: nat, layers: nat, kComps: nat, vComps: nat): Bytes {
    Le(MAGIC, 8) + (Le(VERSION, 4) + (Le(salt, 8) + (Le(layers, 4) + (Le(kComps, 4) + Le(vComps, 4)))))
  }

  /** serialize_block */
  function Serialize(b: Block, salt: nat): Bytes
    requires |b.k| == |b.v|
  {
    WriteHeader(salt, |b.k|, Width(b.k), Width(b.v)) + WriteLayers(b.k, b.v)
  }

  /** What the format can hold: as many components in every layer as in the first, each of positive
      shape and of the size its shape says. */
  predicate Storable(b: Block) {
    && 1 <= |b.k| == |b.v| <= MAX_LAYERS && Width(b.k) <= MAX_COMPS && Width(b.v) <= MAX_COMPS
    && LayersOk(b.k, Width(b.k)) && LayersOk(b.v, Width(b.v))
  }

  datatype Header = Header(layers: nat, kComps: nat, vComps: nat)

  function ReadHeader(bs: Bytes, salt: nat): Parse<Header> {
    var magic := ReadInt(bs, 8);
    if magic.Fail? || magic.value != MAGIC then Fail
    else
      var version := ReadInt(magic.rest, 4);
      if version.Fail? || version.value != VERSION then Fail
      else
        var s := ReadInt(version.rest, 8);
        if s.Fail? || s.value != salt then Fail
        else ReadCounts(s.rest)
  }

  function ReadCounts(bs: Bytes): Parse<Header> {
    var layers := ReadInt(bs, 4);
    if layers.Fail? then Fail
    else
      var k := ReadInt(layers.rest, 4);
      if k.Fail? then Fail
      else
        var v := ReadInt(k.rest, 4);
        if v.Fail? || layers.value == 0 || layers.value > MAX_LAYERS || k.value > MAX_COMPS || v.value > MAX_COMPS then Fail
        else Got(Header(layers.value, k.value, v.value), v.rest)
  }

  /** deserialize_block; what follows the last component is not looked at. */
  function Deserialize(bs: Bytes, salt: nat): Option<Block> {
    var h := ReadHeader(bs, salt);
    if h.Fail? then None
    else
      var r := ReadLayers(h.rest, h.value.layers, h.value.kComps, h.value.vComps);
      if r.Fail? then None else Some(r.value)
  }

  predicate CountsOk(h: Header) { 1 <= h.layers <= MAX_LAYERS && h.kComps <= MAX_COMPS && h.vComps <= MAX_COMPS }

  lemma CountsExact(bs: Bytes, h: Header, rest: Bytes)
    ensures ReadCounts(bs) == Got(h, rest)
       <==> CountsOk(h) && bs == Le(h.layers, 4) + (Le(h.kComps, 4) + (Le(h.vComps, 4) + rest))
  {
    Widths();
    var t2 := Le(h.vComps, 4) + rest;
    var t1 := Le(h.kComps, 4) + t2;
    ReadIntExact(bs, 4, h.layers, t1);
    ReadIntExact(t1, 4, h.kComps, t2);
    ReadIntExact(t2, 4, h.vComps, rest);
    var layers := ReadInt(bs, 4);
    if layers.Got? {
      ReadIntExact(bs, 4, layers.value, layers.rest);
      var k := ReadInt(layers.rest, 4);
      if k.Got? {
        ReadIntExact(layers.rest, 4, k.value, k.rest);
        var v := ReadInt(k.rest, 4);
        if v.Got? {
          ReadIntExact(k.rest, 4, v.value, v.rest);
        }
      }
    }
    hide ReadInt;
    hide Le;
    hide Pow;
  }

  lemma HeaderExact(bs: Bytes, salt: nat, h: Header, rest: Bytes)
    requires salt < SIZE_MOD
    ensures ReadHeader(bs, salt) == Got(h, rest)
       <==> CountsOk(h) && bs == WriteHeader(salt, h.layers, h.kComps, h.vComps) + rest
  {
    Widths();
    var t3 := Le(h.layers, 4) + (Le(h.kComps, 4) + (Le(h.vComps, 4) + rest));
    var t2 := Le(salt, 8) + t3;
    var t1 := Le(VERSION, 4) + t2;
    ReadIntExact(bs, 8, MAGIC, t1);
    ReadIntExact(t1, 4, VERSION, t2);
    ReadIntExact(t2, 8, salt, t3);
    CountsExact(t3, h, rest);
    HeaderParts(salt, h, rest);
    var magic := ReadInt(bs, 8);
    if magic.Got? {
      ReadIntExact(bs, 8, magic.value, magic.rest);
      var version := ReadInt(magic.rest, 4);
      if version.Got? {
        ReadIntExact(magic.rest, 4, version.value, version.rest);
        var s := ReadInt(version.rest, 8);
        if s.Got? {
          ReadIntExact(version.rest, 8, s.value, s.rest);
          CountsExact(s.rest, h, rest);
        }
      }
    }
    hide ReadInt;
    hide ReadCounts;
    hide CountsOk;
    hide Le;
    hide Pow;
    hide WriteHeader;
  }

  lemma HeaderParts(salt: nat, h: Header, rest: Bytes)
    ensures WriteHeader(salt, h.layers, h.kComps, h.vComps) + rest
         == Le(MAGIC, 8) + (Le(VERSION, 4) + (Le(salt, 8) + (Le(h.layers, 4) + (Le(h.kComps, 4) + (Le(h.vComps, 4) + rest)))))
  {
    var f := Le(h.vComps, 4);
    var e := Le(h.kComps, 4) + f;
    var d := Le(h.layers, 4) + e;
    var c := Le(salt, 8) + d;
    var b := Le(VERSION, 4) + c;
    Associate(Le(MAGIC, 8), b, rest);
    Associate(Le(VERSION, 4), c, rest);
    Associate(Le(salt, 8), d, rest);
    Associate(Le(h.layers, 4), e, rest);
    Associate(Le(h.kComps, 4), f, rest);
    hide Le;
  }

  // ---------------------------------------------------------------- the layout, byte by byte

  function U32(bs: Bytes, at: nat): nat
    requires at + 4 <= |bs|
  {
    var a: int, b: int, c: int, d: int := bs[at], bs[at + 1], bs[at + 2], bs[at + 3];
    a + 0x100 * b + 0x1_0000 * c + 0x100_0000 * d
  }

  function U64(bs: Bytes, at: nat): nat
    requires at + 8 <= |bs|
  {
    U32(bs, at) + 0x1_0000_0000 * U32(bs, at + 4)
  }

  lemma LeDigits(v: nat, n: nat)
    requires 0 < n
    ensures Le(v, n)[0] == v % 256 && Le(v, n)[1..] == Le(v / 256, n - 1)
  {
  }

  lemma LeIs32(v: nat)
    requires v < 0x1_0000_0000
    ensures U32(Le(v, 4), 0) == v
  {
    LeDigits(v, 4);
    LeDigits(v / 256, 3);
    LeDigits(v / 256 / 256, 2);
    LeDigits(v / 256 / 256 / 256, 1);
    hide Le;
    var bs := Le(v, 4);
    assert bs[1] == bs[1..][0] && bs[2] == bs[1..][1..][0] && bs[3] == bs[1..][1..][1..][0];
  }

  lemma LeIs64(v: nat)
    requires v < SIZE_MOD
    ensures U64(Le(v, 8), 0) == v
  {
    LeDigits(v, 8);
    LeDigits(v / 256, 7);
    LeDigits(v / 256 / 256, 6);
    LeDigits(v / 256 / 256 / 256, 5);
    var high := v / 256 / 256 / 256 / 256;
    LeIs32(v % 0x1_0000_0000);
    LeIs32(high);
    hide Le;
    LowHalf(v);
    HighHalf(v);
  }

  lemma LowHalf(v: nat)
    ensures Le(v, 8)[..4] == Le(v % 0x1_0000_0000, 4)
  {
    LeSplit(v, 8, 4);
  }

  lemma HighHalf(v: nat)
    ensures Le(v, 8)[4..] == Le(v / 256 / 256 / 256 / 256, 4)
  {
    LeDigits(v, 8);
    LeDigits(v / 256, 7);
    LeDigits(v / 256 / 256, 6);
    LeDigits(v / 256 / 256 / 256, 5);
    hide Le;
    var bs := Le(v, 8);
    assert bs[4..] == bs[1..][1..][1..][1..];
  }

  /** The low digits do not depend on the high ones. */
  lemma {:induction false} LeSplit(v: nat, n: nat, k: nat)
    requires k <= n
    ensures Le(v, n)[..k] == Le(v % Pow(k), k)
    decreases k
  {
    if k > 0 {
      LeSplit(v / 256, n - 1, k - 1);
      var low := v % Pow(k);
      assert Pow(k) == 256 * Pow(k - 1);
      Digits(v, Pow(k - 1));
      assert Le(v, n)[..k] == [v % 256] + Le(v / 256, n - 1)[..k - 1];
    }
  }

  lemma Digits(v: nat, p: nat)
    requires 0 < p
    ensures v % (256 * p) % 256 == v % 256 && v % (256 * p) / 256 == v / 256 % p
  {
    var q, r := v / 256, v % 256;
    var a, b := q / p, q % p;
    assert v == 256 * (a * p + b) + r;
    assert v == a * (256 * p) + (256 * b + r);
    assert 256 * b + r < 256 * p;
    ModIs(v, 256 * p, a, 256 * b + r);
  }

  lemma ModIs(v: nat, n: nat, q: nat, r: nat)
    requires 0 < n && v == q * n + r && r < n
    ensures v % n == r
  {
    var q', r' := v / n, v % n;
    assert v == q' * n + r';
    Unique(n, q, r, q', r');
  }

  lemma Unique(n: nat, q: int, r: nat, q': int, r': nat)
    requires q * n + r == q' * n + r' && r < n && r' < n
    ensures r == r'
  {
    if q < q' {
      AtLeast(q' - q, n);
    } else if q' < q {
      AtLeast(q - q', n);
    }
  }

  lemma AtLeast(a: nat, n: nat)
    requires 1 <= a
    ensures a * n >= n
  {
  }

  /** A file begins with its magic, "MLXFKVB1", then the format version, the salt, and the three counts. */
  lemma HeaderLayout(b: Block, salt: nat)
    requires |b.k| == |b.v| < 0x1_0000_0000 && Width(b.k) < 0x1_0000_0000 && Width(b.v) < 0x1_0000_0000 && salt < SIZE_MOD
    ensures
      var bs := Serialize(b, salt);
      && 32 <= |bs| && bs[..8] == [0x4D, 0x4C, 0x58, 0x46, 0x4B, 0x56, 0x42, 0x31]
      && U32(bs, 8) == 1 && U64(bs, 12) == salt && U32(bs, 20) == |b.k|
      && U32(bs, 24) == (if b.k == [] then 0 else |b.k[0]|) && U32(bs, 28) == (if b.v == [] then 0 else |b.v[0]|)
      && bs[32..] == WriteLayers(b.k, b.v)
  {
    hide *;
    MagicBytes();
    LeIs32(1);
    LeIs64(salt);
    LeIs32(|b.k|);
    LeIs32(Width(b.k));
    LeIs32(Width(b.v));
    var bs := Serialize(b, salt);
    SerializeParts(b, salt);
    SixParts(Le(MAGIC, 8), Le(VERSION, 4), Le(salt, 8), Le(|b.k|, 4), Le(Width(b.k), 4), Le(Width(b.v), 4), WriteLayers(b.k, b.v));
    PartAt(bs, 8, 4);
    PartAt(bs, 12, 8);
    PartAt(bs, 20, 4);
    PartAt(bs, 24, 4);
    PartAt(bs, 28, 4);
  }

  lemma SerializeParts(b: Block, salt: nat)
    requires |b.k| == |b.v|
    ensures VERSION == 1
    ensures Width(b.k) == (if b.k == [] then 0 else |b.k[0]|) && Width(b.v) == (if b.v == [] then 0 else |b.v[0]|)
    ensures Serialize(b, salt)
         == Le(MAGIC, 8) + (Le(VERSION, 4) + (Le(salt, 8) + (Le(|b.k|, 4) + (Le(Width(b.k), 4) + Le(Width(b.v), 4))))) + WriteLayers(b.k, b.v)
  {
    hide Le;
    hide WriteLayers;
  }

  lemma SixParts(a: Bytes, b: Bytes, c: Bytes, d: Bytes, e: Bytes, f: Bytes, g: Bytes)
    requires |a| == |c| == 8 && |b| == |d| == |e| == |f| == 4
    ensures
      var bs := a + (b + (c + (d + (e + f)))) + g;
      && |bs| == 32 + |g| && bs[..8] == a && bs[8..12] == b && bs[12..20] == c && bs[20..24] == d && bs[24..28] == e && bs[28..32] == f
      && bs[32..] == g
  {
    var bs := a + (b + (c + (d + (e + f)))) + g;
    assert bs[8..] == b + (c + (d + (e + f))) + g;
    assert bs[12..] == c + (d + (e + f)) + g;
    assert bs[20..] == d + (e + f) + g;
    assert bs[24..] == e + f + g;
    assert bs[28..] == f + g;
  }

  lemma PartAt(bs: Bytes, at: nat, n: nat)
    requires (n == 4 || n == 8) && at + n <= |bs|
    ensures U32(bs, at) == U32(bs[at..at + n], 0) && (n == 8 ==> U64(bs, at) == U64(bs[at..at + n], 0))
  {
  }

  lemma MagicBytes()
    ensures Le(MAGIC, 8) == [0x4D, 0x4C, 0x58, 0x46, 0x4B, 0x56, 0x42, 0x31]
  {
    LeBytes(0x3142564b46584c4d, 8, 0x4D, 0x3142564b46584c);
    LeBytes(0x3142564b46584c, 7, 0x4C, 0x3142564b4658);
    LeBytes(0x3142564b4658, 6, 0x58, 0x3142564b46);
    LeBytes(0x3142564b46, 5, 0x46, 0x3142564b);
    LeBytes(0x3142564b, 4, 0x4B, 0x314256);
    LeBytes(0x314256, 3, 0x56, 0x3142);
    LeBytes(0x3142, 2, 0x42, 0x31);
    LeBytes(0x31, 1, 0x31, 0);
    assert Le(0, 0) == [];
    hide Le;
  }

  lemma LeBytes(v: nat, n: nat, low: nat, high: nat)
    requires 0 < n && v == 256 * high + low && low < 256
    ensures Le(v, n) == [low] + Le(high, n - 1)
  {
  }

  /** A component: its dtype code, its four dimensions and its byte count, then the bytes. */
  lemma CompLayout(c: Comp)
    requires CompOk(c)
    ensures
      var bs := WriteComp(c);
      && |bs| == 28 + |c.data| && |c.shape| == 4 && U32(bs, 0) == c.code
      && U32(bs, 4) == c.shape[0] && U32(bs, 8) == c.shape[1] && U32(bs, 12) == c.shape[2] && U32(bs, 16) == c.shape[3]
      && U64(bs, 20) == |c.data| && bs[28..] == c.data
  {
    var s := c.shape;
    LeIs32(c.code);
    LeIs32(s[0]);
    LeIs32(s[1]);
    LeIs32(s[2]);
    LeIs32(s[3]);
    LeIs64(|c.data|);
    DimsBytes(s);
    hide Le;
    hide WriteDims;
    hide SizeOf;
    var bs := WriteComp(c);
    assert bs[0..4] == Le(c.code, 4) && bs[4..20] == WriteDims(s) && bs[20..28] == Le(|c.data|, 8);
    assert bs[4..8] == bs[4..20][0..4] && bs[8..12] == bs[4..20][4..8] && bs[12..16] == bs[4..20][8..12] && bs[16..20] == bs[4..20][12..16];
    PartAt(bs, 0, 4);
    PartAt(bs, 4, 4);
    PartAt(bs, 8, 4);
    PartAt(bs, 12, 4);
    PartAt(bs, 16, 4);
    PartAt(bs, 20, 8);
  }

  lemma DimsBytes(s: seq<int>)
    requires |s| == 4 && DimsOk(s)
    ensures |WriteDims(s)| == 16
    ensures WriteDims(s)[0..4] == Le(s[0], 4) && WriteDims(s)[4..8] == Le(s[1], 4)
    ensures WriteDims(s)[8..12] == Le(s[2], 4) && WriteDims(s)[12..16] == Le(s[3], 4)
  {
    var b, c, d := s[1..], s[2..], s[3..];
    assert b[1..] == c && c[1..] == d && d[1..] == [];
    DimsFirst(s);
    DimsFirst(b);
    DimsFirst(c);
    DimsFirst(d);
    hide *;
    var z, y, x := WriteDims(d), WriteDims(c), WriteDims(b);
    assert z == Le(s[3], 4) by {
      NoDims();
      assert Le(s[3], 4) + [] == Le(s[3], 4);
    }
    assert |WriteDims(s)| == 16;
    assert WriteDims(s)[4..] == x && x[4..] == y && y[4..] == z;
    assert x[0..4] == WriteDims(s)[4..8] && y[0..4] == WriteDims(s)[8..12] && z[0..4] == WriteDims(s)[12..16];
  }

  lemma DimsFirst(s: seq<int>)
    requires s != []
    ensures WriteDims(s) == Le(Unsigned(s[0]), 4) + WriteDims(s[1..]) && (0 <= s[0] < SIGN ==> Unsigned(s[0]) == s[0])
  {
    hide Le;
  }

  lemma NoDims()
    ensures WriteDims([]) == []
  {
  }

  /** A block is storable with 1 to 4096 layers, each of the same number of readable components, at most three, for K
      and for V. */
  lemma StorableIs(b: Block)
    ensures Storable(b) <==>
              && 1 <= |b.k| <= 4096 && |b.v| == |b.k| && |b.k[0]| <= 3 && |b.v[0]| <= 3
              && (forall l :: 0 <= l < |b.k| ==> |b.k[l]| == |b.k[0]| && forall i :: 0 <= i < |b.k[l]| ==> CompOk(b.k[l][i]))
              && (forall l :: 0 <= l < |b.v| ==> |b.v[l]| == |b.v[0]| && forall i :: 0 <= i < |b.v[l]| ==> CompOk(b.v[l][i]))
  {
    hide CompOk;
  }

  /** A component is readable when it is half floats or packed words, of positive 32-bit dimensions, and as long as
      its shape says, in 64-bit arithmetic. */
  lemma CompOkIs(c: Comp)
    ensures CompOk(c) <==>
              && (c.code == 0 || c.code == 1) && |c.shape| == 4
              && (forall i :: 0 <= i < 4 ==> 1 <= c.shape[i] <= 0x7FFF_FFFF)
              && |c.data| <= 0xFFFF_FFFF_FFFF_FFFF
              && |c.data| == c.shape[0] * (c.shape[1] * (c.shape[2] * c.shape[3])) % 0x1_0000_0000_0000_0000 * (if c.code == 0 then 2 else 4)
                             % 0x1_0000_0000_0000_0000
  {
    if |c.shape| == 4 {
      ProductOfFour(c.shape);
    }
    hide Product;
  }

  lemma ProductOfFour(s: seq<int>)
    requires |s| == 4
    ensures Product(s) == s[0] * (s[1] * (s[2] * s[3]))
  {
    assert s[1..][1..][1..] == [s[3]] && [s[3]][1..] == [];
    assert Product([s[3]]) == s[3] * Product([]);
    assert Product(s[1..][1..]) == s[2] * Product([s[3]]);
    assert Product(s[1..]) == s[1] * Product(s[1..][1..]);
  }

  /** Layer after layer, a layer's K components before its V components. */
  lemma {:induction false} LayersLayout(ks: seq<seq<Comp>>, vs: seq<seq<Comp>>, k: seq<Comp>, v: seq<Comp>)
    requires |ks| == |vs|
    ensures WriteLayers(ks + [k], vs + [v]) == WriteLayers(ks, vs) + WriteComps(k) + WriteComps(v)
    decreases |ks|
  {
    if ks == [] {
      assert ks + [k] == [k] && vs + [v] == [v] && [k][1..] == [] && [v][1..] == [];
      hide WriteComps;
    } else {
      assert (ks + [k])[1..] == ks[1..] + [k] && (vs + [v])[1..] == vs[1..] + [v];
      LayersLayout(ks[1..], vs[1..], k, v);
      hide WriteComps;
      var a, b, w := WriteComps(ks[0]), WriteComps(vs[0]), WriteLayers(ks[1..], vs[1..]);
      assert WriteLayers(ks, vs) == a + b + w && WriteLayers(ks + [k], vs + [v]) == a + b + WriteLayers(ks[1..] + [k], vs[1..] + [v]);
      hide WriteLayers;
      Associate(a + b, w, WriteComps(k));
      Associate(a + b, w + WriteComps(k), WriteComps(v));
    }
  }

  lemma {:induction false} CompsLayout(cs: seq<Comp>, c: Comp)
    ensures WriteComps(cs + [c]) == WriteComps(cs) + WriteComp(c)
    decreases |cs|
  {
    hide WriteComp;
    if cs == [] {
      assert cs + [c] == [c] && [c][1..] == [];
    } else {
      assert (cs + [c])[1..] == cs[1..] + [c];
      CompsLayout(cs[1..], c);
    }
  }

  /** The reader takes exactly the bytes that begin with a storable block's, and gives that block. */
  lemma DeserializeExact(bs: Bytes, salt: nat, b: Block)
    requires salt < SIZE_MOD
    ensures Deserialize(bs, salt) == Some(b) <==> Storable(b) && Serialize(b, salt) <= bs
  {
    if Deserialize(bs, salt).Some? {
      ReadIsStored(bs, salt);
    }
    if Storable(b) && Serialize(b, salt) <= bs {
      StoredIsRead(bs, salt, b);
    }
  }

  lemma StoredIsRead(bs: Bytes, salt: nat, b: Block)
    requires salt < SIZE_MOD && Storable(b) && Serialize(b, salt) <= bs
    ensures Deserialize(bs, salt) == Some(b)
  {
    var rest := bs[|Serialize(b, salt)|..];
    var h := Header(|b.k|, Width(b.k), Width(b.v));
    var head := WriteHeader(salt, |b.k|, Width(b.k), Width(b.v));
    assert bs == head + WriteLayers(b.k, b.v) + rest;
    Associate(head, WriteLayers(b.k, b.v), rest);
    HeaderExact(bs, salt, h, WriteLayers(b.k, b.v) + rest);
    LayersBack(b.k, b.v, Width(b.k), Width(b.v), rest);
    hide WriteLayers;
    hide ReadLayers;
    hide ReadHeader;
    hide WriteHeader;
    hide LayersOk;
  }

  lemma ReadIsStored(bs: Bytes, salt: nat)
    requires salt < SIZE_MOD && Deserialize(bs, salt).Some?
    ensures Storable(Deserialize(bs, salt).value) && Serialize(Deserialize(bs, salt).value, salt) <= bs
  {
    var h := ReadHeader(bs, salt);
    HeaderExact(bs, salt, h.value, h.rest);
    LayersFrom(h.rest, h.value.layers, h.value.kComps, h.value.vComps);
    var r := ReadLayers(h.rest, h.value.layers, h.value.kComps, h.value.vComps);
    Associate(WriteHeader(salt, h.value.layers, h.value.kComps, h.value.vComps), WriteLayers(r.value.k, r.value.v), r.rest);
    hide WriteLayers;
    hide ReadLayers;
    hide ReadHeader;
    hide WriteHeader;
    hide CompsOk;
  }

  /** A block comes back from its own bytes exactly when it is storable. */
  lemma RoundTrip(b: Block, salt: nat)
    requires |b.k| == |b.v| && salt < SIZE_MOD
    ensures Deserialize(Serialize(b, salt), salt) == Some(b) <==> Storable(b)
  {
    DeserializeExact(Serialize(b, salt), salt, b);
  }

  /** Any strict prefix is rejected. */
  lemma TruncationRejected(b: Block, salt: nat, n: nat)
    requires Storable(b) && salt < SIZE_MOD && n < |Serialize(b, salt)|
    ensures Deserialize(Serialize(b, salt)[..n], salt) == None
  {
    var all := Serialize(b, salt);
    if Deserialize(all[..n], salt).Some? {
      var c := Deserialize(all[..n], salt).value;
      DeserializeExact(all[..n], salt, c);
      DeserializeExact(all, salt, c);
      DeserializeExact(all, salt, b);
    }
  }

  /** Another model's or storage configuration's salt is rejected. */
  lemma OtherSaltRejected(b: Block, salt: nat, other: nat)
    requires |b.k| == |b.v| && salt < SIZE_MOD && other < SIZE_MOD && other != salt
    ensures Deserialize(Serialize(b, salt), other) == None
  {
    var bs := Serialize(b, salt);
    Widths();
    hide *;
    if Deserialize(bs, other).Some? {
      var c := Deserialize(bs, other).value;
      DeserializeExact(bs, other, c);
      Halves(c);
      SaltBytes(b, salt);
      SaltBytes(c, other);
      SamePart(Serialize(c, other), bs, 12, 20);
      LeBack(salt, 8);
      LeBack(other, 8);
    }
  }

  lemma Halves(b: Block)
    requires Storable(b)
    ensures |b.k| == |b.v|
  {
  }

  lemma SamePart(p: Bytes, bs: Bytes, i: nat, j: nat)
    requires p <= bs && i <= j <= |p|
    ensures p[i..j] == bs[i..j]
  {
  }

  lemma SaltBytes(b: Block, salt: nat)
    requires |b.k| == |b.v|
    ensures |Serialize(b, salt)| >= 20 && Serialize(b, salt)[12..20] == Le(salt, 8)
  {
    hide Le;
    hide WriteLayers;
    var tail := Le(|b.k|, 4) + (Le(Width(b.k), 4) + Le(Width(b.v), 4));
    assert Serialize(b, salt) == Le(MAGIC, 8) + (Le(VERSION, 4) + (Le(salt, 8) + tail)) + WriteLayers(b.k, b.v);
  }

  // ---------------------------------------------------------------- the code

  /** Every component in file order. */
  function Flat(k: seq<seq<Comp>>, v: seq<seq<Comp>>): seq<Comp>
    requires |k| == |v|
  {
    if k == [] then [] else k[0] + (v[0] + Flat(k[1..], v[1..]))
  }

  lemma {:induction false} WriteBoth(a: seq<Comp>, b: seq<Comp>)
    ensures WriteComps(a + b) == WriteComps(a) + WriteComps(b)
    decreases |a|
  {
    hide WriteComp;
    if a == [] {
      assert a + b == b;
    } else {
      assert (a + b)[1..] == a[1..] + b;
      WriteBoth(a[1..], b);
    }
  }

  lemma {:induction false} WriteFlat(k: seq<seq<Comp>>, v: seq<seq<Comp>>)
    requires |k| == |v|
    ensures WriteComps(Flat(k, v)) == WriteLayers(k, v)
    decreases |k|
  {
    if k != [] {
      WriteFlat(k[1..], v[1..]);
      hide WriteComps;
      var tail := Flat(k[1..], v[1..]);
      WriteBoth(k[0], v[0] + tail);
      WriteBoth(v[0], tail);
      Associate(WriteComps(k[0]), WriteComps(v[0]), WriteComps(tail));
    }
  }

  lemma FlatStep(k: seq<seq<Comp>>, v: seq<seq<Comp>>, l: nat, done: seq<Comp>)
    requires l < |k| == |v|
    ensures done + Flat(k[l..], v[l..]) == (done + k[l] + v[l]) + Flat(k[l + 1..], v[l + 1..])
  {
    assert k[l..][1..] == k[l + 1..] && v[l..][1..] == v[l + 1..];
    assert Flat(k[l..], v[l..]) == k[l] + (v[l] + Flat(k[l + 1..], v[l + 1..]));
    hide *;
    assert done + (k[l] + (v[l] + Flat(k[l + 1..], v[l + 1..]))) == (done + k[l] + v[l]) + Flat(k[l + 1..], v[l + 1..]);
  }

  lemma FlatEnds(k: seq<seq<Comp>>, v: seq<seq<Comp>>, done: seq<Comp>)
    requires |k| == |v|
    ensures [] + Flat(k[0..], v[0..]) == Flat(k, v) && done + Flat(k[|k|..], v[|k|..]) == done
  {
    assert k[0..] == k && v[0..] == v;
  }

  lemma WriteStep(cs: seq<Comp>, i: nat, done: Bytes)
    requires i < |cs|
    ensures done + WriteComps(cs[i..]) == (done + WriteComp(cs[i])) + WriteComps(cs[i + 1..])
  {
    hide WriteComp;
    assert cs[i..][1..] == cs[i + 1..];
    Associate(done, WriteComp(cs[i]), WriteComps(cs[i + 1..]));
  }

  lemma WriteEnds(cs: seq<Comp>, done: Bytes)
    ensures WriteComps(cs[0..]) == WriteComps(cs) && done + WriteComps(cs[|cs|..]) == done
  {
    assert cs[0..] == cs;
  }

  lemma HeaderIs(salt: nat, layers: nat, kComps: nat, vComps: nat)
    ensures Le(MAGIC, 8) + Le(VERSION, 4) + Le(salt, 8) + Le(layers, 4) + Le(kComps, 4) + Le(vComps, 4)
         == WriteHeader(salt, layers, kComps, vComps)
  {
    hide Le;
    Append(Le(MAGIC, 8), Le(VERSION, 4), Le(salt, 8), Le(layers, 4), Le(kComps, 4) + Le(vComps, 4));
  }

  lemma SerializeIs(b: Block, salt: nat)
    requires |b.k| == |b.v|
    ensures Serialize(b, salt) == WriteHeader(salt, |b.k|, Width(b.k), Width(b.v)) + WriteComps(Flat(b.k, b.v))
  {
    WriteFlat(b.k, b.v);
  }

  method SerializeBlock(b: Block, salt: nat) returns (out: Bytes)
    requires |b.k| == |b.v|
    ensures out == Serialize(b, salt)
  {
    hide *;
    var comps: seq<Comp> := [];
    FlatEnds(b.k, b.v, []);
    for l := 0 to |b.k|
      invariant comps + Flat(b.k[l..], b.v[l..]) == Flat(b.k, b.v)
    {
      FlatStep(b.k, b.v, l, comps);
      comps := comps + b.k[l] + b.v[l];
    }
    FlatEnds(b.k, b.v, comps);
    var kComps := if b.k == [] then 0 else |b.k[0]|;
    var vComps := if b.v == [] then 0 else |b.v[0]|;
    WidthIs(b);
    HeaderIs(salt, |b.k|, kComps, vComps);
    out := Le(MAGIC, 8) + Le(VERSION, 4) + Le(salt, 8) + Le(|b.k|, 4) + Le(kComps, 4) + Le(vComps, 4);
    ghost var head := out;
    WriteEnds(comps, out);
    for i := 0 to |comps|
      invariant out + WriteComps(comps[i..]) == head + WriteComps(comps)
    {
      WriteStep(comps, i, out);
      var c := comps[i];
      CompIs(c, out);
      out := out + Le(c.code, 4);
      out := out + WriteDims(c.shape);
      out := out + Le(|c.data|, 8);
      out := out + c.data;
    }
    WriteEnds(comps, out);
    SerializeIs(b, salt);
  }

  lemma WidthIs(b: Block)
    ensures Width(b.k) == (if b.k == [] then 0 else |b.k[0]|) && Width(b.v) == if b.v == [] then 0 else |b.v[0]|
  {
  }

  lemma CompIs(c: Comp, out: Bytes)
    ensures out + Le(c.code, 4) + WriteDims(c.shape) + Le(|c.data|, 8) + c.data == out + WriteComp(c)
  {
    hide Le;
    hide WriteDims;
    Append(out, Le(c.code, 4), WriteDims(c.shape), Le(|c.data|, 8), c.data);
    Associate(Le(c.code, 4), WriteDims(c.shape), Le(|c.data|, 8) + c.data);
    Associate(Le(c.code, 4) + WriteDims(c.shape), Le(|c.data|, 8), c.data);
  }

  /** The bounds-checked cursor. */
  class Reader {
    const data: Bytes
    var at: nat

    ghost predicate Valid()
      reads this
    {
      at <= |data|
    }

    /** What is left. */
    function Left(): Bytes
      reads this
      requires Valid()
    {
      data[at..]
    }

    constructor (bytes: Bytes)
      ensures Valid() && Left() == bytes
    {
      data, at := bytes, 0;
    }

    method Read(n: nat) returns (ok: bool, v: nat)
      requires Valid()
      modifies this`at
      ensures Valid()
      ensures ok <==> ReadInt(old(Left()), n).Got?
      ensures ok ==> ReadInt(old(Left()), n) == Got(v, Left())
    {
      v := 0;
      ok := n <= |data| - at;
      if ok {
        v := FromLe(data[at..at + n]);
        assert data[at..][..n] == data[at..at + n] && data[at..][n..] == data[at + n..];
        at := at + n;
      }
    }

    method TakeDims(n: nat) returns (ok: bool, dims: seq<int>)
      requires Valid()
      modifies this`at
      ensures Valid()
      ensures ok <==> ReadDims(old(Left()), n).Got?
      ensures ok ==> ReadDims(old(Left()), n) == Got(dims, Left())
    {
      hide *;
      ok, dims := true, [];
      DimsDone(Left(), n, []);
      for d := 0 to n
        invariant Valid() && ok && Prepend(dims, ReadDims(Left(), n - d)) == ReadDims(old(Left()), n)
      {
        DimsHead(Left(), n - d, dims);
        var u;
        ok, u := Read(4);
        if !ok || Signed(u) <= 0 {
          return false, [];
        }
        dims := dims + [Signed(u)];
      }
      DimsDone(Left(), 0, dims);
      DimsDone(old(Left()), n, []);
    }

    method TakeComp() returns (ok: bool, c: Comp)
      requires Valid()
      modifies this`at
      ensures Valid()
      ensures ok <==> ReadComp(old(Left())).Got?
      ensures ok ==> ReadComp(old(Left())) == Got(c, Left())
    {
      hide *;
      c := Comp(0, [], []);
      CompSteps(Left());
      var code, dims, size;
      ok, code := Read(4);
      if !ok || code > 1 {
        return false, c;
      }
      ok, dims := TakeDims(4);
      if !ok {
        return;
      }
      ok, size := Read(8);
      LeftIs();
      if !ok || |data| - at < size || size != SizeOf(code, dims) {
        return false, c;
      }
      LeftIs();
      c := Comp(code, dims, data[at..at + size]);
      assert data[at..][..size] == data[at..at + size] && data[at..][size..] == data[at + size..];
      at := at + size;
      LeftIs();
    }

    lemma LeftIs()
      ensures at <= |data| <==> Valid()
      ensures at <= |data| ==> Left() == data[at..]
    {
    }

    method TakeComps(n: nat) returns (ok: bool, cs: seq<Comp>)
      requires Valid()
      modifies this`at
      ensures Valid()
      ensures ok <==> ReadComps(old(Left()), n).Got?
      ensures ok ==> ReadComps(old(Left()), n) == Got(cs, Left())
    {
      hide *;
      ok, cs := true, [];
      CompsDone(Left(), n, []);
      for i := 0 to n
        invariant Valid() && ok && Prepend(cs, ReadComps(Left(), n - i)) == ReadComps(old(Left()), n)
      {
        CompsHead(Left(), n - i, cs);
        var c;
        ok, c := TakeComp();
        if !ok {
          return;
        }
        cs := cs + [c];
      }
      CompsDone(Left(), 0, cs);
      CompsDone(old(Left()), n, []);
    }
  }

  lemma CompSteps(bs: Bytes)
    ensures
      var code := ReadInt(bs, 4);
      ReadComp(bs) ==
        if code.Fail? || code.value > 1 then Fail
        else
          var dims := ReadDims(code.rest, 4);
          if dims.Fail? then Fail
          else
            var size := ReadInt(dims.rest, 8);
            if size.Fail? || |size.rest| < size.value || size.value != SizeOf(code.value, dims.value) then Fail
            else Got(Comp(code.value, dims.value, size.rest[..size.value]), size.rest[size.value..])
  {
    hide ReadInt;
    hide ReadDims;
    hide SizeOf;
  }

  /** Elements already read, before the rest of the list. */
  function Prepend<T>(done: seq<T>, p: Parse<seq<T>>): Parse<seq<T>> {
    if p.Fail? then Fail else Got(done + p.value, p.rest)
  }

  lemma DimsDone(bs: Bytes, n: nat, done: seq<int>)
    ensures Prepend([], ReadDims(bs, n)) == ReadDims(bs, n) && Prepend(done, ReadDims(bs, 0)) == Got(done, bs)
    ensures Prepend([], ReadDims(bs, n)).Got? <==> ReadDims(bs, n).Got?
  {
    hide ReadDims;
    var r := ReadDims(bs, n);
    assert r.Got? ==> [] + r.value == r.value;
    DimsNone(bs);
    assert done + [] == done;
  }

  lemma DimsNone(bs: Bytes)
    ensures ReadDims(bs, 0) == Got([], bs)
  {
  }

  lemma DimsHead(bs: Bytes, n: nat, done: seq<int>)
    requires 0 < n
    ensures
      var d := ReadInt(bs, 4);
      Prepend(done, ReadDims(bs, n)) ==
        if d.Fail? || Signed(d.value) <= 0 then Fail else Prepend(done + [Signed(d.value)], ReadDims(d.rest, n - 1))
  {
    hide ReadInt;
    var d := ReadInt(bs, 4);
    if d.Got? && Signed(d.value) > 0 {
      Chain(done, [Signed(d.value)], ReadDims(d.rest, n - 1));
    }
  }

  lemma Chain<T>(a: seq<T>, b: seq<T>, p: Parse<seq<T>>)
    ensures Prepend(a, Prepend(b, p)) == Prepend(a + b, p)
  {
    if p.Got? {
      assert a + (b + p.value) == (a + b) + p.value;
    }
  }

  lemma CompsDone(bs: Bytes, n: nat, done: seq<Comp>)
    ensures Prepend([], ReadComps(bs, n)) == ReadComps(bs, n) && Prepend(done, ReadComps(bs, 0)) == Got(done, bs)
    ensures Prepend([], ReadComps(bs, n)).Got? <==> ReadComps(bs, n).Got?
  {
    hide ReadComps;
    var r := ReadComps(bs, n);
    assert r.Got? ==> [] + r.value == r.value;
    CompsNone(bs);
    assert done + [] == done;
  }

  lemma CompsNone(bs: Bytes)
    ensures ReadComps(bs, 0) == Got([], bs)
  {
  }

  lemma CompsHead(bs: Bytes, n: nat, done: seq<Comp>)
    requires 0 < n
    ensures
      var c := ReadComp(bs);
      Prepend(done, ReadComps(bs, n)) == if c.Fail? then Fail else Prepend(done + [c.value], ReadComps(c.rest, n - 1))
  {
    hide ReadComp;
    var c := ReadComp(bs);
    if c.Got? {
      Chain(done, [c.value], ReadComps(c.rest, n - 1));
    }
  }

  method DeserializeBlock(bytes: Bytes, salt: nat) returns (block: Option<Block>)
    ensures block == Deserialize(bytes, salt)
  {
    hide *;
    var r := new Reader(bytes);
    var ok, h := TakeHeader(r, salt);
    if !ok {
      NoHeader(bytes, salt);
      return None;
    }
    DeserializeIs(bytes, salt);
    block := TakeLayers(r, h.layers, h.kComps, h.vComps);
  }

  method TakeHeader(r: Reader, salt: nat) returns (ok: bool, h: Header)
    requires r.Valid()
    modifies r`at
    ensures r.Valid()
    ensures ok <==> ReadHeader(old(r.Left()), salt).Got?
    ensures ok ==> ReadHeader(old(r.Left()), salt) == Got(h, r.Left())
  {
    hide *;
    h := Header(0, 0, 0);
    HeaderSteps(r.Left(), salt);
    var magic, version, fileSalt;
    ok, magic := r.Read(8);
    if !ok || magic != MAGIC { return false, h; }
    ok, version := r.Read(4);
    if !ok || version != VERSION { return false, h; }
    ok, fileSalt := r.Read(8);
    if !ok || fileSalt != salt { return false, h; }
    var layers, kComps, vComps;
    CountSteps(r.Left());
    ok, layers := r.Read(4);
    if !ok { return; }
    ok, kComps := r.Read(4);
    if !ok { return; }
    ok, vComps := r.Read(4);
    if !ok { return; }
    if layers == 0 || layers > MAX_LAYERS || kComps > MAX_COMPS || vComps > MAX_COMPS { return false, h; }
    h := Header(layers, kComps, vComps);
  }

  lemma HeaderSteps(bs: Bytes, salt: nat)
    ensures
      var magic := ReadInt(bs, 8);
      ReadHeader(bs, salt) ==
        if magic.Fail? || magic.value != MAGIC then Fail
        else
          var version := ReadInt(magic.rest, 4);
          if version.Fail? || version.value != VERSION then Fail
          else
            var s := ReadInt(version.rest, 8);
            if s.Fail? || s.value != salt then Fail else ReadCounts(s.rest)
  {
    hide ReadInt;
    hide ReadCounts;
  }

  lemma CountSteps(bs: Bytes)
    ensures
      var layers := ReadInt(bs, 4);
      ReadCounts(bs) ==
        if layers.Fail? then Fail
        else
          var k := ReadInt(layers.rest, 4);
          if k.Fail? then Fail
          else
            var v := ReadInt(k.rest, 4);
            if v.Fail? || layers.value == 0 || layers.value > MAX_LAYERS || k.value > MAX_COMPS || v.value > MAX_COMPS then Fail
            else Got(Header(layers.value, k.value, v.value), v.rest)
  {
    hide ReadInt;
  }

  lemma NoHeader(bytes: Bytes, salt: nat)
    requires ReadHeader(bytes, salt).Fail?
    ensures Deserialize(bytes, salt) == None
  {
    hide ReadHeader;
  }

  lemma DeserializeIs(bytes: Bytes, salt: nat)
    requires ReadHeader(bytes, salt).Got?
    ensures
      var h := ReadHeader(bytes, salt);
      var r := ReadLayers(h.rest, h.value.layers, h.value.kComps, h.value.vComps);
      Deserialize(bytes, salt) == if r.Fail? then None else Some(r.value)
  {
    hide ReadHeader;
    hide ReadLayers;
  }

  function Below(k: seq<seq<Comp>>, v: seq<seq<Comp>>, p: Parse<Block>): Option<Block> {
    if p.Fail? then None else Some(Block(k + p.value.k, v + p.value.v))
  }

  method TakeLayers(r: Reader, layers: nat, kComps: nat, vComps: nat) returns (block: Option<Block>)
    requires r.Valid()
    modifies r`at
    ensures
      var p := ReadLayers(old(r.Left()), layers, kComps, vComps);
      block == if p.Fail? then None else Some(p.value)
  {
    hide *;
    var k, v: seq<seq<Comp>> := [], [];
    LayersDone(r.Left(), layers, kComps, vComps);
    for l := 0 to layers
      invariant r.Valid()
      invariant Below(k, v, ReadLayers(r.Left(), layers - l, kComps, vComps)) == Below([], [], ReadLayers(old(r.Left()), layers, kComps, vComps))
    {
      LayersHead(r.Left(), layers - l, kComps, vComps, k, v);
      var ok, ks := r.TakeComps(kComps);
      if !ok {
        return None;
      }
      var vs;
      ok, vs := r.TakeComps(vComps);
      if !ok {
        return None;
      }
      k, v := k + [ks], v + [vs];
    }
    LayersEnd(r.Left(), kComps, vComps, k, v);
    block := Some(Block(k, v));
  }

  lemma LayersDone(bs: Bytes, n: nat, kComps: nat, vComps: nat)
    ensures
      var p := ReadLayers(bs, n, kComps, vComps);
      Below([], [], p) == if p.Fail? then None else Some(p.value)
  {
    hide ReadLayers;
    var p := ReadLayers(bs, n, kComps, vComps);
    if p.Got? {
      assert [] + p.value.k == p.value.k && [] + p.value.v == p.value.v;
    }
  }

  lemma LayersEnd(bs: Bytes, kComps: nat, vComps: nat, k: seq<seq<Comp>>, v: seq<seq<Comp>>)
    ensures Below(k, v, ReadLayers(bs, 0, kComps, vComps)) == Some(Block(k, v))
  {
    assert k + [] == k && v + [] == v;
  }

  lemma LayersHead(bs: Bytes, n: nat, kComps: nat, vComps: nat, k: seq<seq<Comp>>, v: seq<seq<Comp>>)
    requires 0 < n
    ensures
      var ks := ReadComps(bs, kComps);
      Below(k, v, ReadLayers(bs, n, kComps, vComps)) ==
        if ks.Fail? then None
        else
          var vs := ReadComps(ks.rest, vComps);
          if vs.Fail? then None else Below(k + [ks.value], v + [vs.value], ReadLayers(vs.rest, n - 1, kComps, vComps))
  {
    hide ReadComps;
    var ks := ReadComps(bs, kComps);
    if ks.Got? {
      var vs := ReadComps(ks.rest, vComps);
      if vs.Got? {
        var more := ReadLayers(vs.rest, n - 1, kComps, vComps);
        if more.Got? {
          assert k + ([ks.value] + more.value.k) == (k + [ks.value]) + more.value.k;
          assert v + ([vs.value] + more.value.v) == (v + [vs.value]) + more.value.v;
        }
      }
    }
  }
}
