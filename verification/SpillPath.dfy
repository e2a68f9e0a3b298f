/** The disk tier end to end (src/runtime/worker.cpp, the evict and miss hooks): blocks go to the store
    as their serialized bytes and come back through the reader. */
module SpillPath {
  import opened Wrappers
  import opened BlockCodec
  import opened BlockStores

  /** What the miss hook makes of an answer: nothing found or nothing readable is a miss. */
  function Revived(a: Answer, salt: nat): Option<Block> {
    if a.Found? && IsBytes(a.data) then Deserialize(a.data, salt) else None
  }

  predicate IsBytes(data: Data) { forall i :: 0 <= i < |data| ==> 0 <= data[i] < 256 }

  /** Every put of `h` carries the bytes of `b`. */
  ghost predicate Names(given: set<Job>, h: Hash, b: Block, salt: nat)
    requires |b.k| == |b.v|
  {
    forall d: Data :: (h, d) in given ==> d == Serialize(b, salt)
  }

  /** Whatever the writer, the putting thread and other readers do meanwhile, a get of `h` through both
      hooks gives the block put under `h`, or nothing; and nothing only if it is not visible when looked
      up, or is evicted before its file is opened. */
  lemma RevivesOrMisses(s: State, r: nat, h: Hash, b: Block, salt: nat, es: seq<Event>, t: State, budget: nat)
    requires Inv(s) && Enabled(s, Lookup(r, h), budget) && Runs(Step(s, Lookup(r, h), budget), es, t, budget)
    requires Storable(b) && salt < SIZE_MOD && Names(t.given, h, b, salt)
    ensures h !in s.shared.index ==>
              Revived(LookupAnswer(s, h), salt) == if Visible(s.shared, h) then Some(b) else None
    ensures h in s.shared.index && r in t.opening && t.opening[r] == h ==>
              && Revived(OpenAnswer(t, r), salt) in {Some(b), None}
              && (Revived(OpenAnswer(t, r), salt) == None ==> Evicts(es, h) || Opens(es, r))
  {
    hide *;
    var bytes := BytesOf(b, salt);
    NamesMeans(t.given, h, b, salt);
    GetReturnsPut(s, r, h, bytes, es, t, budget);
    NotFound(salt);
    if h in s.shared.index && r in t.opening && t.opening[r] == h {
      GetExact(s, r, h, es, t, budget);
      assert OpenAnswer(t, r) == Found(bytes) || OpenAnswer(t, r) == Absent;
    }
  }

  lemma BytesOf(b: Block, salt: nat) returns (bytes: Bytes)
    requires Storable(b) && salt < SIZE_MOD
    ensures |b.k| == |b.v| && bytes == Serialize(b, salt) && Revived(Found(bytes), salt) == Some(b)
  {
    bytes := Serialize(b, salt);
    RoundTrip(b, salt);
    hide Deserialize;
    hide Serialize;
    BytesAre(bytes, salt);
  }

  lemma NamesMeans(given: set<Job>, h: Hash, b: Block, salt: nat)
    requires |b.k| == |b.v| && Names(given, h, b, salt)
    ensures forall d: Data :: (h, d) in given ==> d == Serialize(b, salt)
  {
    hide Serialize;
  }

  lemma BytesAre(bytes: Bytes, salt: nat)
    ensures IsBytes(bytes) && Revived(Found(bytes), salt) == Deserialize(bytes, salt)
  {
    hide Deserialize;
  }

  lemma NotFound(salt: nat)
    ensures Revived(Absent, salt) == None
  {
  }
}
