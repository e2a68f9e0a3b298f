/** The disk tier's store (src/cache/block_store.cpp): what the mutex guards, the files, and the step
    each thread can take between two others'. */
module BlockStores {
  import opened Wrappers

  type Hash(==, !new, 0)
  type Data = seq<int>
  type Job = (Hash, Data)

  datatype Entry = Entry(bytes: nat, stamp: nat)

  /** The fields under the mutex, and the directory's finished files. */
  datatype Shared = Shared(index: map<Hash, Entry>, bytes: nat, stamp: nat, queue: seq<Job>, files: map<Hash, Data>)

  // ---------------------------------------------------------------- sums over the index

  ghost function Total(index: map<Hash, Entry>): nat {
    if index == map[] then 0 else var k :| k in index; index[k].bytes + Total(index - {k})
  }

  lemma {:induction false} TotalSplit(index: map<Hash, Entry>, h: Hash)
    requires h in index
    ensures Total(index) == index[h].bytes + Total(index - {h})
    decreases |index|
  {
    var k :| k in index && Total(index) == index[k].bytes + Total(index - {k});
    if k != h {
      TotalSplit(index - {k}, h);
      TotalSplit(index - {h}, k);
      assert index - {k} - {h} == index - {h} - {k};
    }
  }

  lemma TotalAdd(index: map<Hash, Entry>, h: Hash, e: Entry)
    requires h !in index
    ensures Total(index[h := e]) == Total(index) + e.bytes
  {
    TotalSplit(index[h := e], h);
    assert index[h := e] - {h} == index;
  }

  // ---------------------------------------------------------------- what each locked section does

  predicate InQueue(queue: seq<Job>, h: Hash) {
    exists i :: 0 <= i < |queue| && queue[i].0 == h
  }

  /** contains */
  predicate Visible(s: Shared, h: Hash) { h in s.index || InQueue(s.queue, h) }

  /** put */
  function Queued(s: Shared, h: Hash, data: Data): Shared {
    if h in s.index then s else s.(queue := s.queue + [(h, data)])
  }

  /** What get answers. */
  datatype Answer = Absent | Found(data: Data)

  /** The queued bytes of `h`, first match. */
  function Pending(queue: seq<Job>, h: Hash): (a: Answer)
    ensures a.Absent? <==> !InQueue(queue, h)
    ensures a.Found? ==> exists i :: 0 <= i < |queue| && queue[i] == (h, a.data)
  {
    if queue == [] then Absent
    else if queue[0].0 == h then Found(queue[0].1)
    else
      var a := Pending(queue[1..], h);
      assert forall i :: 1 <= i < |queue| ==> queue[i] == queue[1..][i - 1];
      assert forall i :: 0 <= i < |queue[1..]| ==> queue[1..][i] == queue[i + 1];
      a
  }

  /** get's locked half, on a block in the index: it becomes the most recently used. */
  function Touched(s: Shared, h: Hash): Shared
    requires h in s.index
  {
    s.(stamp := s.stamp + 1, index := s.index[h := s.index[h].(stamp := s.stamp + 1)])
  }

  /** The file, as opened after the lock is gone. */
  function Read(files: map<Hash, Data>, h: Hash): Answer {
    if h in files then Found(files[h]) else Absent
  }

  /** The writer puts a written block in the index. */
  function Recorded(s: Shared, job: Job): Shared {
    s.(stamp := s.stamp + 1, index := s.index[job.0 := Entry(|job.1|, s.stamp + 1)], bytes := s.bytes + |job.1|)
  }

  predicate Over(s: Shared, budget: nat) { budget != 0 && s.bytes > budget && |s.index| > 1 }

  ghost predicate IsOldest(index: map<Hash, Entry>, h: Hash) {
    h in index && forall k :: k in index ==> index[h].stamp <= index[k].stamp
  }

  /** One eviction; the file goes too unless removing it fails. */
  function Evicted(s: Shared, victim: Hash, removed: bool): Shared
    requires victim in s.index && s.index[victim].bytes <= s.bytes
  {
    s.(index := s.index - {victim}, bytes := s.bytes - s.index[victim].bytes,
       files := if removed then s.files - {victim} else s.files)
  }

  function Popped(s: Shared): Shared
    requires s.queue != []
  {
    s.(queue := s.queue[1..])
  }

  // ---------------------------------------------------------------- the threads

  /** Where the writer is: waiting, writing a copy of the front job outside the lock, done with the
      file, or in its second locked section. */
  datatype Phase = Waiting | Writing(job: Job) | Saved(job: Job, ok: bool) | Settling(job: Job, ok: bool) | Gone

  /** All of it: `checked` is the hash the putting thread has just been told is not there, `opening` the
      gets that found an index entry and have not opened its file, `given` every block ever put. */
  datatype State = State(
    shared: Shared, writer: Phase, checked: Option<Hash>, opening: map<nat, Hash>, stop: bool, given: set<Job>)

  datatype Event =
    | Check(h: Hash)
    | Put(data: Data)
    | Lookup(r: nat, h: Hash)
    | Open(r: nat)
    | Take
    | Save(saved: bool)
    | Record
    | Evict(victim: Hash, removed: bool)
    | Pop
    | Stop
    | Exit

  /** Nobody holds the lock. */
  predicate Unlocked(s: State) { !s.writer.Settling? }

  ghost predicate Enabled(s: State, e: Event, budget: nat) {
    match e
    case Check(h) => Unlocked(s) && s.checked.None? && !Visible(s.shared, h)
    case Put(_) => Unlocked(s) && s.checked.Some?
    case Lookup(r, _) => Unlocked(s) && r !in s.opening
    case Open(r) => r in s.opening
    case Take => s.writer.Waiting? && s.shared.queue != []
    case Save(_) => s.writer.Writing?
    case Record => s.writer.Saved?
    case Evict(victim, _) =>
      && s.writer.Settling? && s.writer.ok && Over(s.shared, budget) && IsOldest(s.shared.index, victim)
      && s.shared.index[victim].bytes <= s.shared.bytes
    case Pop => s.writer.Settling? && (s.writer.ok ==> !Over(s.shared, budget)) && s.shared.queue != []
    case Stop => Unlocked(s)
    case Exit => s.writer.Waiting? && s.stop && s.shared.queue == []
  }

  ghost function Step(s: State, e: Event, budget: nat): State
    requires Enabled(s, e, budget)
  {
    match e
    case Check(h) => s.(checked := Some(h))
    case Put(data) =>
      s.(shared := Queued(s.shared, s.checked.value, data), checked := None, given := s.given + {(s.checked.value, data)})
    case Lookup(r, h) =>
      if h in s.shared.index then s.(shared := Touched(s.shared, h), opening := s.opening[r := h]) else s
    case Open(r) => s.(opening := s.opening - {r})
    case Take => s.(writer := Writing(s.shared.queue[0]))
    case Save(ok) =>
      var job := s.writer.job;
      s.(writer := Saved(job, ok), shared := if ok then s.shared.(files := s.shared.files[job.0 := job.1]) else s.shared)
    case Record =>
      s.(writer := Settling(s.writer.job, s.writer.ok),
         shared := if s.writer.ok then Recorded(s.shared, s.writer.job) else s.shared)
    case Evict(victim, removed) => s.(shared := Evicted(s.shared, victim, removed))
    case Pop => s.(writer := Waiting, shared := Popped(s.shared))
    case Stop => s.(stop := true)
    case Exit => s.(writer := Gone)
  }

  /** What get(h) gives: at once when `h` is not in the index, else from the file it then opens. */
  function LookupAnswer(s: State, h: Hash): Answer
    requires h !in s.shared.index
  {
    Pending(s.shared.queue, h)
  }

  function OpenAnswer(s: State, r: nat): Answer
    requires r in s.opening
  {
    Read(s.shared.files, s.opening[r])
  }

  // ---------------------------------------------------------------- what every interleaving keeps

  ghost predicate DistinctHashes(queue: seq<Job>) {
    forall i, j :: 0 <= i < j < |queue| ==> queue[i].0 != queue[j].0
  }

  ghost predicate IndexOk(s: Shared) {
    && s.bytes == Total(s.index)
    && (forall h :: h in s.index ==> s.index[h].stamp <= s.stamp && h in s.files && |s.files[h]| == s.index[h].bytes)
    && forall h, k :: h in s.index && k in s.index && h != k ==> s.index[h].stamp != s.index[k].stamp
  }

  /** The job in the writer's hands is the queue's front; only while the lock is held after a write
      is it in the index too. */
  ghost predicate WriterOk(s: State) {
    match s.writer
    case Waiting => true
    case Gone => true
    case Writing(job) => s.shared.queue != [] && s.shared.queue[0] == job
    case Saved(job, ok) =>
      s.shared.queue != [] && s.shared.queue[0] == job && (ok ==> job.0 in s.shared.files && s.shared.files[job.0] == job.1)
    case Settling(job, ok) =>
      && s.shared.queue != [] && s.shared.queue[0] == job
      && (ok ==> job.0 in s.shared.index && s.shared.index[job.0] == Entry(|job.1|, s.shared.stamp))
  }

  predicate Recording(s: State) { s.writer.Settling? && s.writer.ok }

  ghost predicate Apart(s: State) {
    forall i :: 0 <= i < |s.shared.queue| && s.shared.queue[i].0 in s.shared.index ==> i == 0 && Recording(s)
  }

  ghost predicate Known(s: State) {
    && (forall i :: 0 <= i < |s.shared.queue| ==> s.shared.queue[i] in s.given)
    && forall h :: h in s.shared.files ==> (h, s.shared.files[h]) in s.given
  }

  ghost predicate Inv(s: State) {
    && DistinctHashes(s.shared.queue) && Apart(s) && IndexOk(s.shared) && WriterOk(s) && Known(s)
    && (s.checked.Some? ==> !Visible(s.shared, s.checked.value))
  }

  lemma PutInv(s: State, data: Data, budget: nat)
    requires Inv(s) && Enabled(s, Put(data), budget)
    ensures Inv(Step(s, Put(data), budget))
    ensures Step(s, Put(data), budget).shared.queue == s.shared.queue + [(s.checked.value, data)]
  {
  }

  lemma LookupInv(s: State, r: nat, h: Hash, budget: nat)
    requires Inv(s) && Enabled(s, Lookup(r, h), budget)
    ensures Inv(Step(s, Lookup(r, h), budget))
  {
    if h in s.shared.index {
      TouchedIndex(s.shared, h);
      hide IndexOk;
      hide DistinctHashes;
      hide InQueue;
      hide Known;
      KnownSame(s, r, h, budget);
    }
  }

  lemma KnownSame(s: State, r: nat, h: Hash, budget: nat)
    requires Enabled(s, Lookup(r, h), budget)
    ensures Known(s) ==> Known(Step(s, Lookup(r, h), budget))
  {
  }

  lemma TouchedIndex(s: Shared, h: Hash)
    requires IndexOk(s) && h in s.index
    ensures IndexOk(Touched(s, h))
  {
    var t := Touched(s, h);
    TotalSplit(s.index, h);
    TotalSplit(t.index, h);
    assert t.index - {h} == s.index - {h};
  }

  lemma SaveInv(s: State, ok: bool, budget: nat)
    requires Inv(s) && Enabled(s, Save(ok), budget)
    ensures Inv(Step(s, Save(ok), budget))
  {
  }

  lemma RecordInv(s: State, budget: nat)
    requires Inv(s) && Enabled(s, Record, budget)
    ensures Inv(Step(s, Record, budget))
  {
    if s.writer.ok {
      var job := s.writer.job;
      TotalAdd(s.shared.index, job.0, Entry(|job.1|, s.shared.stamp + 1));
    }
  }

  /** The block just written is the newest, so another is the oldest. */
  lemma SparesNew(s: State, victim: Hash, budget: nat)
    requires Inv(s) && s.writer.Settling? && s.writer.ok && Over(s.shared, budget) && IsOldest(s.shared.index, victim)
    ensures victim != s.writer.job.0
  {
    var h := s.writer.job.0;
    var k := Another(s.shared.index, h);
    assert s.shared.index[victim].stamp <= s.shared.index[k].stamp < s.shared.index[h].stamp;
  }

  lemma Another(index: map<Hash, Entry>, h: Hash) returns (k: Hash)
    requires |index| > 1
    ensures k in index && k != h
  {
    var others := index.Keys - {h};
    assert |index.Keys| == |index| && |others| > 0;
    k :| k in others;
  }

  lemma EvictInv(s: State, victim: Hash, removed: bool, budget: nat)
    requires Inv(s) && Enabled(s, Evict(victim, removed), budget)
    ensures Inv(Step(s, Evict(victim, removed), budget))
  {
    SparesNew(s, victim, budget);
    EvictedIndex(s.shared, victim, removed);
    EvictedKnown(s, victim, removed, budget);
    hide Known;
    hide IndexOk;
    hide Total;
    hide IsOldest;
    hide DistinctHashes;
    hide InQueue;
  }

  lemma EvictedKnown(s: State, victim: Hash, removed: bool, budget: nat)
    requires Known(s) && Enabled(s, Evict(victim, removed), budget)
    ensures Known(Step(s, Evict(victim, removed), budget))
  {
    hide IsOldest;
  }

  lemma EvictedIndex(s: Shared, victim: Hash, removed: bool)
    requires IndexOk(s) && victim in s.index && s.index[victim].bytes <= s.bytes
    ensures IndexOk(Evicted(s, victim, removed))
  {
    TotalSplit(s.index, victim);
  }

  lemma PopInv(s: State, budget: nat)
    requires Inv(s) && Enabled(s, Pop, budget)
    ensures Inv(Step(s, Pop, budget))
  {
  }

  /** Queued hashes are distinct and not in the index, the byte count is the index's sum, every index
      entry has its file: whatever the threads do in whatever order. */
  lemma StepInv(s: State, e: Event, budget: nat)
    requires Inv(s) && Enabled(s, e, budget)
    ensures Inv(Step(s, e, budget))
  {
    match e
    case Put(data) => PutInv(s, data, budget);
    case Lookup(r, h) => LookupInv(s, r, h, budget);
    case Save(ok) => SaveInv(s, ok, budget);
    case Record => RecordInv(s, budget);
    case Evict(victim, removed) => EvictInv(s, victim, removed, budget);
    case Pop => PopInv(s, budget);
    case _ =>
  }

  /** Where a store begins: what the rescan found, an empty queue and a waiting writer. */
  lemma StartInv(s: Shared)
    requires IndexOk(s) && s.queue == []
    ensures Inv(State(s, Waiting, None, map[], false, set h | h in s.files :: (h, s.files[h])))
  {
  }

  ghost predicate Runs(s: State, es: seq<Event>, t: State, budget: nat)
    decreases |es|
  {
    if es == [] then t == s else Enabled(s, es[0], budget) && Runs(Step(s, es[0], budget), es[1..], t, budget)
  }

  lemma {:induction false} RunInv(s: State, es: seq<Event>, t: State, budget: nat)
    requires Inv(s) && Runs(s, es, t, budget)
    ensures Inv(t)
    decreases |es|
  {
    hide Inv;
    hide Enabled;
    hide Step;
    if es != [] {
      StepInv(s, es[0], budget);
      RunInv(Step(s, es[0], budget), es[1..], t, budget);
    }
  }

  // ---------------------------------------------------------------- a put block stays visible

  /** The two ways to lose `h`: it is evicted, or its write failed. */
  predicate Dropped(s: State, e: Event, h: Hash) {
    (e.Evict? && e.victim == h) || (e.Pop? && s.writer.Settling? && !s.writer.ok && s.writer.job.0 == h)
  }

  lemma StepVisible(s: State, e: Event, h: Hash, budget: nat)
    requires Inv(s) && Enabled(s, e, budget) && Visible(s.shared, h)
    ensures Visible(Step(s, e, budget).shared, h) <==> !Dropped(s, e, h)
  {
    var t := Step(s, e, budget).shared;
    match e
    case Put(data) =>
      if h !in s.shared.index {
        var i :| 0 <= i < |s.shared.queue| && s.shared.queue[i].0 == h;
        assert t.queue[i].0 == h;
      }
    case Pop =>
      if h !in s.shared.index {
        var i :| 0 <= i < |s.shared.queue| && s.shared.queue[i].0 == h;
        if i > 0 {
          assert t.queue[i - 1].0 == h;
        }
      }
    case Evict(victim, _) =>
      SparesNew(s, victim, budget);
    case _ =>
  }

  ghost predicate Drops(s: State, es: seq<Event>, h: Hash, budget: nat)
    decreases |es|
  {
    es != [] && (Dropped(s, es[0], h) || (Enabled(s, es[0], budget) && Drops(Step(s, es[0], budget), es[1..], h, budget)))
  }

  /** Until it is evicted or its write fails, no interleaving hides a block. */
  lemma {:induction false} StaysVisible(s: State, es: seq<Event>, t: State, h: Hash, budget: nat)
    requires Inv(s) && Runs(s, es, t, budget) && Visible(s.shared, h) && !Drops(s, es, h, budget)
    ensures Visible(t.shared, h)
    decreases |es|
  {
    hide Inv;
    hide Enabled;
    hide Step;
    hide Visible;
    hide Dropped;
    if es != [] {
      StepInv(s, es[0], budget);
      StepVisible(s, es[0], h, budget);
      StaysVisible(Step(s, es[0], budget), es[1..], t, h, budget);
    }
  }

  /** When the writer leaves, everything not lost is on disk. */
  lemma DrainedToDisk(s: State, es: seq<Event>, t: State, h: Hash, budget: nat)
    requires Inv(s) && Runs(s, es, t, budget) && Visible(s.shared, h) && !Drops(s, es, h, budget) && Enabled(t, Exit, budget)
    ensures h in t.shared.index && h in t.shared.files
  {
    StaysVisible(s, es, t, h, budget);
    RunInv(s, es, t, budget);
  }

  // ---------------------------------------------------------------- get returns what was put, or nothing

  lemma LookupExact(s: State, h: Hash)
    requires Inv(s) && h !in s.shared.index
    ensures LookupAnswer(s, h).Absent? <==> !Visible(s.shared, h)
    ensures LookupAnswer(s, h).Found? ==> (h, LookupAnswer(s, h).data) in s.given
  {
    if LookupAnswer(s, h).Found? {
      var i :| 0 <= i < |s.shared.queue| && s.shared.queue[i] == (h, LookupAnswer(s, h).data);
      assert s.shared.queue[i] in s.given;
    }
  }

  predicate Evicts(es: seq<Event>, h: Hash) {
    exists i :: 0 <= i < |es| && es[i].Evict? && es[i].victim == h
  }

  predicate Opens(es: seq<Event>, r: nat) {
    exists i :: 0 <= i < |es| && es[i] == Open(r)
  }

  lemma {:induction false} StaysIndexed(s: State, es: seq<Event>, t: State, r: nat, h: Hash, budget: nat)
    requires Inv(s) && Runs(s, es, t, budget) && h in s.shared.index && r in s.opening && s.opening[r] == h
    requires !Evicts(es, h) && !Opens(es, r)
    ensures h in t.shared.index && r in t.opening && t.opening[r] == h
    decreases |es|
  {
    hide Inv;
    hide Enabled;
    hide Step;
    if es != [] {
      StepInv(s, es[0], budget);
      StepIndexed(s, es[0], r, h, budget);
      assert forall i :: 0 <= i < |es[1..]| ==> es[1..][i] == es[i + 1];
      StaysIndexed(Step(s, es[0], budget), es[1..], t, r, h, budget);
    }
  }

  lemma StepIndexed(s: State, e: Event, r: nat, h: Hash, budget: nat)
    requires Inv(s) && Enabled(s, e, budget) && h in s.shared.index && r in s.opening && s.opening[r] == h
    requires !(e.Evict? && e.victim == h) && e != Open(r)
    ensures var t := Step(s, e, budget); h in t.shared.index && r in t.opening && t.opening[r] == h
  {
    hide Inv;
    hide IsOldest;
  }

  /** A get that finds `h` in the index and opens its file any number of other threads' steps later
      reads exactly a block put under `h`; it comes back empty only if `h` was evicted in between. */
  lemma GetExact(s: State, r: nat, h: Hash, es: seq<Event>, t: State, budget: nat)
    requires Inv(s) && Enabled(s, Lookup(r, h), budget) && h in s.shared.index
    requires Runs(Step(s, Lookup(r, h), budget), es, t, budget) && r in t.opening && t.opening[r] == h
    ensures OpenAnswer(t, r).Found? ==> (h, OpenAnswer(t, r).data) in t.given
    ensures OpenAnswer(t, r).Absent? ==> Evicts(es, h) || Opens(es, r)
  {
    var now := Step(s, Lookup(r, h), budget);
    StepInv(s, Lookup(r, h), budget);
    RunInv(now, es, t, budget);
    if !Evicts(es, h) && !Opens(es, r) {
      StaysIndexed(now, es, t, r, h, budget);
    }
  }

  /** So when every put of `h` carries the same bytes, those are what any get of it returns. */
  lemma GetReturnsPut(s: State, r: nat, h: Hash, data: Data, es: seq<Event>, t: State, budget: nat)
    requires Inv(s) && Enabled(s, Lookup(r, h), budget) && Runs(Step(s, Lookup(r, h), budget), es, t, budget)
    requires forall d :: (h, d) in t.given ==> d == data
    ensures h !in s.shared.index ==> LookupAnswer(s, h) == if Visible(s.shared, h) then Found(data) else Absent
    ensures h in s.shared.index && r in t.opening && t.opening[r] == h ==> OpenAnswer(t, r) in {Found(data), Absent}
  {
    StepInv(s, Lookup(r, h), budget);
    GivenGrows(Step(s, Lookup(r, h), budget), es, t, budget);
    if h !in s.shared.index {
      LookupExact(s, h);
    } else if r in t.opening && t.opening[r] == h {
      GetExact(s, r, h, es, t, budget);
    }
  }

  lemma {:induction false} GivenGrows(s: State, es: seq<Event>, t: State, budget: nat)
    requires Runs(s, es, t, budget)
    ensures s.given <= t.given
    decreases |es|
  {
    if es != [] {
      var now := Step(s, es[0], budget);
      assert s.given <= now.given;
      hide *;
      RunsTail(s, es, t, budget);
      GivenGrows(now, es[1..], t, budget);
    }
  }

  lemma RunsTail(s: State, es: seq<Event>, t: State, budget: nat)
    requires es != [] && Runs(s, es, t, budget)
    ensures Enabled(s, es[0], budget) && Runs(Step(s, es[0], budget), es[1..], t, budget)
  {
    hide Enabled;
    hide Step;
  }

  // ---------------------------------------------------------------- an eviction pass

  /** What is gone was used less recently than all that is left. */
  ghost predicate Lru(before: map<Hash, Entry>, after: map<Hash, Entry>) {
    && (forall k :: k in after ==> k in before && after[k] == before[k])
    && forall h, k :: h in before && h !in after && k in after ==> before[h].stamp < before[k].stamp
  }

  lemma {:induction false} PassRuns(before: map<Hash, Entry>, s: State, es: seq<Event>, t: State, budget: nat)
    requires Inv(s) && Runs(s, es, t, budget) && s.writer.Settling? && s.writer.ok && Pop !in es && Lru(before, s.shared.index)
    ensures t.writer == s.writer && Lru(before, t.shared.index)
    decreases |es|
  {
    if es != [] {
      var now := Step(s, es[0], budget);
      StepInv(s, es[0], budget);
      assert es[0] != Pop;
      if es[0].Evict? {
        EvictLru(before, s.shared, es[0].victim, es[0].removed);
      }
      hide Inv;
      hide Lru;
      hide IsOldest;
      assert now.writer == s.writer;
      assert es[0].Open? || es[0].Evict?;
      PassRuns(before, now, es[1..], t, budget);
    }
  }

  lemma EvictLru(before: map<Hash, Entry>, s: Shared, victim: Hash, removed: bool)
    requires IndexOk(s) && Lru(before, s.index) && IsOldest(s.index, victim) && s.index[victim].bytes <= s.bytes
    ensures Lru(before, Evicted(s, victim, removed).index)
  {
    hide Total;
  }

  /** From the moment a written block enters the index to the moment the lock is given back, whatever
      readers do meanwhile: only least recently used blocks go, the new one stays, and what is left fits
      the budget or is that block alone. */
  lemma EvictionPass(s: State, es: seq<Event>, t: State, budget: nat)
    requires Inv(s) && Enabled(s, Record, budget) && s.writer.ok
    requires Runs(Step(s, Record, budget), es, t, budget) && Pop !in es && Enabled(t, Pop, budget)
    ensures Lru(Step(s, Record, budget).shared.index, t.shared.index)
    ensures s.writer.job.0 in t.shared.index && t.shared.bytes == Total(t.shared.index)
    ensures budget == 0 || t.shared.bytes <= budget || t.shared.index.Keys == {s.writer.job.0}
  {
    var now := Step(s, Record, budget);
    StepInv(s, Record, budget);
    RunInv(now, es, t, budget);
    PassRuns(now.shared.index, now, es, t, budget);
    OnlyOne(t.shared.index, s.writer.job.0);
  }

  lemma OnlyOne(index: map<Hash, Entry>, h: Hash)
    requires h in index
    ensures |index| <= 1 ==> index.Keys == {h}
  {
    if |index| <= 1 {
      assert |index.Keys - {h}| == |index.Keys| - 1 == 0;
    }
  }

  // ---------------------------------------------------------------- the writer gets there

  function Rank(writer: Phase): nat {
    match writer
    case Waiting => 4
    case Writing(_) => 3
    case Saved(_, _) => 2
    case Settling(_, _) => 1
    case Gone => 0
  }

  predicate WriterStep(e: Event) { e.Take? || e.Save? || e.Record? || e.Evict? || e.Pop? || e.Exit? }

  /** Fewer jobs, or a later phase, or less to evict. */
  predicate Nearer(t: State, s: State) {
    || |t.shared.queue| < |s.shared.queue|
    || (|t.shared.queue| == |s.shared.queue|
        && (Rank(t.writer) < Rank(s.writer) || (Rank(t.writer) == Rank(s.writer) && |t.shared.index| < |s.shared.index|)))
  }

  lemma {:induction false} OldestExists(index: map<Hash, Entry>) returns (h: Hash)
    requires index != map[]
    ensures IsOldest(index, h)
    decreases |index|
  {
    var k :| k in index;
    var rest := index - {k};
    h := k;
    if rest != map[] {
      var o := OldestExists(rest);
      if index[o].stamp < index[k].stamp {
        h := o;
      }
    }
    forall x | x in index
      ensures index[h].stamp <= index[x].stamp
    {
      assert x == k || x in rest;
    }
  }

  /** The writer is never stuck while there is something to write or the store is closing, and every
      step it takes brings it nearer the end. */
  lemma WriterMoves(s: State, ok: bool, budget: nat) returns (e: Event)
    requires Inv(s) && !s.writer.Gone? && (s.stop || s.shared.queue != [])
    ensures WriterStep(e) && Enabled(s, e, budget) && Nearer(Step(s, e, budget), s)
  {
    match s.writer
    case Waiting => e := if s.shared.queue == [] then Exit else Take;
    case Writing(_) => e := Save(ok);
    case Saved(_, _) => e := Record;
    case Settling(_, wrote) =>
      if wrote && Over(s.shared, budget) {
        e := EvictMoves(s, budget);
      } else {
        e := Pop;
      }
  }

  lemma EvictMoves(s: State, budget: nat) returns (e: Event)
    requires Inv(s) && s.writer.Settling? && s.writer.ok && Over(s.shared, budget)
    ensures e.Evict? && Enabled(s, e, budget) && Nearer(Step(s, e, budget), s)
  {
    var victim := OldestExists(s.shared.index);
    TotalSplit(s.shared.index, victim);
    e := Evict(victim, true);
    Fewer(s.shared.index, victim);
  }

  // ---------------------------------------------------------------- why put is guarded

  /** Without asking `contains` first, a block put twice before the writer gets to it is counted twice. */
  lemma UnguardedDrifts(h: Hash, data: Data)
    requires data != []
    ensures
      var s := Queued(Queued(Shared(map[], 0, 0, [], map[]), h, data), h, data);
      var t := Popped(Recorded(Popped(Recorded(s, s.queue[0])), s.queue[1]));
      |t.queue| == 0 && t.bytes == 2 * |data| && Total(t.index) == |data|
  {
    var index := map[h := Entry(|data|, 2)];
    TotalSplit(index, h);
    assert index - {h} == map[];
    var s := Queued(Queued(Shared(map[], 0, 0, [], map[]), h, data), h, data);
    assert s.queue == [(h, data), (h, data)];
    var t := Popped(Recorded(Popped(Recorded(s, s.queue[0])), s.queue[1]));
    assert t.index == index;
  }

  // ---------------------------------------------------------------- the store itself

  predicate Removes(stuck: set<Hash>, h: Hash) { h !in stuck }

  /** evict_to_budget_locked, victim by victim; removing a `stuck` file fails. */
  ghost function Trim(s: Shared, budget: nat, stuck: set<Hash>): Shared
    requires IndexOk(s)
    decreases |s.index|
  {
    if !Over(s, budget) then s
    else
      var victim := Oldest(s.index);
      TotalSplit(s.index, victim);
      EvictedIndex(s, victim, Removes(stuck, victim));
      Fewer(s.index, victim);
      Trim(Evicted(s, victim, Removes(stuck, victim)), budget, stuck)
  }

  ghost function Oldest(index: map<Hash, Entry>): (h: Hash)
    requires index != map[]
    ensures IsOldest(index, h)
  {
    OldestIs(index);
    var h :| IsOldest(index, h);
    h
  }

  lemma OldestIs(index: map<Hash, Entry>)
    requires index != map[]
    ensures exists h :: IsOldest(index, h)
  {
    var h := OldestExists(index);
  }

  lemma Fewer(index: map<Hash, Entry>, h: Hash)
    requires h in index
    ensures |index - {h}| < |index|
  {
    assert (index - {h}).Keys == index.Keys - {h};
    assert |(index - {h}).Keys| == |index - {h}| && |index.Keys| == |index|;
  }

  lemma TrimStep(s: Shared, victim: Hash, budget: nat, stuck: set<Hash>)
    requires IndexOk(s) && Over(s, budget) && IsOldest(s.index, victim)
    ensures s.index[victim].bytes <= s.bytes && IndexOk(Evicted(s, victim, Removes(stuck, victim)))
    ensures |Evicted(s, victim, Removes(stuck, victim)).index| < |s.index|
    ensures Trim(s, budget, stuck) == Trim(Evicted(s, victim, Removes(stuck, victim)), budget, stuck)
  {
    assert Oldest(s.index) == victim;
    TotalSplit(s.index, victim);
    EvictedIndex(s, victim, Removes(stuck, victim));
    Fewer(s.index, victim);
  }

  /** The loop is a run of eviction steps. */
  lemma {:induction false} TrimRuns(s: State, budget: nat, stuck: set<Hash>) returns (es: seq<Event>)
    requires Inv(s) && s.writer.Settling? && s.writer.ok
    ensures Pop !in es && Runs(s, es, s.(shared := Trim(s.shared, budget, stuck)), budget)
    ensures !Over(Trim(s.shared, budget, stuck), budget)
    decreases |s.shared.index|
  {
    es := [];
    if Over(s.shared, budget) {
      var victim := Oldest(s.shared.index);
      TrimStep(s.shared, victim, budget, stuck);
      var e := Evict(victim, Removes(stuck, victim));
      StepInv(s, e, budget);
      var now := Step(s, e, budget);
      EvictStep(s, victim, Removes(stuck, victim), budget);
      hide *;
      var tail := TrimRuns(now, budget, stuck);
      es := [e] + tail;
      OneStep(s, e, budget);
      ThenRuns(s, [e], now, tail, now.(shared := Trim(now.shared, budget, stuck)), budget);
    } else {
      NothingOver(s.shared, budget, stuck);
    }
  }

  lemma EvictStep(s: State, victim: Hash, removed: bool, budget: nat)
    requires Enabled(s, Evict(victim, removed), budget)
    ensures Step(s, Evict(victim, removed), budget) == s.(shared := Evicted(s.shared, victim, removed))
  {
  }

  class BlockStore {
    const budget: nat
    var index: map<Hash, Entry>
    var bytes: nat
    var stamp: nat
    var queue: seq<Job>
    var files: map<Hash, Data>

    ghost function Now(): Shared
      reads this
    {
      Shared(index, bytes, stamp, queue, files)
    }

    /** Rescan the directory; `found` is in order of modification time, one file a hash. */
    constructor (found: seq<Job>, nBudget: nat)
      requires DistinctHashes(found)
      ensures budget == nBudget && Rescanned(found, Now(), |found|)
    {
      budget := nBudget;
      index, bytes, stamp, queue, files := map[], 0, 0, [], map[];
      new;
      NoneIndexed(found);
      hide *;
      for n := 0 to |found|
        invariant Rescanned(found, Shared(index, bytes, stamp, queue, files), n)
      {
        var h, data := found[n].0, found[n].1;
        ghost var s := Shared(index, bytes, stamp, queue, files);
        RescanStep(found, s, n);
        ScannedIs(s, h, data);
        stamp := stamp + 1;
        index := index[h := Entry(|data|, stamp)];
        bytes := bytes + |data|;
        files := files[h := data];
        assert Scanned(s, h, data) == Shared(index, bytes, stamp, queue, files);
      }
      NowIs();
    }

    method Contains(h: Hash) returns (r: bool)
      ensures r == Visible(Now(), h)
    {
      if h in index {
        return true;
      }
      for i := 0 to |queue|
        invariant forall k :: 0 <= k < i ==> queue[k].0 != h
      {
        if queue[i].0 == h {
          return true;
        }
      }
      return false;
    }

    method Put(h: Hash, data: Data)
      modifies this`queue
      ensures Now() == Queued(old(Now()), h, data)
    {
      if h in index {
        return;
      }
      queue := queue + [(h, data)];
    }

    /** The half of get under the lock. */
    method Lookup(h: Hash) returns (hit: bool, answer: Answer)
      modifies this`index, this`stamp
      ensures hit == (h in old(index))
      ensures Now() == if hit then Touched(old(Now()), h) else old(Now())
      ensures !hit ==> answer == Pending(queue, h)
    {
      answer := Absent;
      hit := h in index;
      if !hit {
        for i := 0 to |queue|
          invariant Pending(queue, h) == Pending(queue[i..], h)
        {
          assert queue[i..][1..] == queue[i + 1..];
          if queue[i].0 == h {
            answer := Found(queue[i].1);
            return;
          }
        }
        assert queue[|queue|..] == [];
        return;
      }
      stamp := stamp + 1;
      index := index[h := index[h].(stamp := stamp)];
    }

    /** The smallest stamp in the index. */
    method FindVictim() returns (victim: Hash)
      requires index != map[]
      ensures IsOldest(index, victim)
    {
      var rest := index.Keys;
      victim :| victim in rest;
      while rest != {}
        invariant victim in index && rest <= index.Keys
        invariant forall k :: k in index && k !in rest ==> index[victim].stamp <= index[k].stamp
        decreases rest
      {
        var k :| k in rest;
        if index[k].stamp < index[victim].stamp {
          victim := k;
        }
        rest := rest - {k};
      }
    }

    method EvictToBudget(stuck: set<Hash>)
      requires IndexOk(Now())
      modifies this`index, this`bytes, this`files
      ensures Now() == Trim(old(Now()), budget, stuck)
    {
      hide Trim;
      hide IndexOk;
      NothingOver(Now(), budget, stuck);
      if budget == 0 {
        return;
      }
      while bytes > budget && |index| > 1
        invariant IndexOk(Now()) && Trim(Now(), budget, stuck) == Trim(old(Now()), budget, stuck)
        invariant !Over(Now(), budget) ==> Trim(Now(), budget, stuck) == Now()
        decreases |index|
      {
        EvictedIs(Now());
        var victim := FindVictim();
        hide IsOldest;
        hide Over;
        hide Removes;
        TrimStep(Now(), victim, budget, stuck);
        if victim !in stuck {
          files := files - {victim};
        }
        bytes := bytes - index[victim].bytes;
        index := index - {victim};
        NothingOver(Now(), budget, stuck);
      }
    }

    lemma NowIs()
      ensures Now() == Shared(index, bytes, stamp, queue, files)
    {
    }

    /** One turn of the writer's loop with nothing in between; `ok` is whether the write and rename worked. */
    method Persist(ok: bool, stuck: set<Hash>)
      requires queue != [] && IndexOk(Now()) && queue[0].0 !in index
      modifies this
      ensures Now() == Persisted(old(Now()), ok, budget, stuck)
    {
      hide *;
      NowIs();
      var job := queue[0];
      ghost var was := Now();
      PersistedIs(was, ok, budget, stuck);
      if ok {
        files := files[job.0 := job.1];
        stamp := stamp + 1;
        index := index[job.0 := Entry(|job.1|, stamp)];
        bytes := bytes + |job.1|;
        NowIs();
        EvictToBudget(stuck);
      }
      NowIs();
      queue := queue[1..];
      NowIs();
    }
  }

  lemma NotYet(found: seq<Job>, n: nat)
    requires DistinctHashes(found) && n < |found|
    ensures !InQueue(found[..n], found[n].0) && found[..n + 1] == found[..n] + [found[n]]
    ensures forall i :: 0 <= i < n ==> found[i].0 != found[n].0
  {
  }

  /** The first `n` files are in the index, later ones more recently used. */
  ghost predicate Rescanned(found: seq<Job>, s: Shared, n: nat)
    requires n <= |found|
  {
    && s.queue == [] && s.stamp == n && IndexOk(s)
    && (forall h :: h in s.index <==> InQueue(found[..n], h))
    && forall i :: 0 <= i < n ==>
         found[i].0 in s.index && found[i].0 in s.files && s.files[found[i].0] == found[i].1 && s.index[found[i].0].stamp == i + 1
  }

  lemma NoneIndexed(found: seq<Job>)
    ensures Rescanned(found, Shared(map[], 0, 0, [], map[]), 0)
  {
  }

  /** A rescan indexes exactly the files it found, stalest first. */
  lemma AllRescanned(found: seq<Job>, s: Shared)
    requires Rescanned(found, s, |found|)
    ensures s.queue == [] && IndexOk(s) && forall h :: h in s.index <==> InQueue(found, h)
    ensures forall i :: 0 <= i < |found| ==> found[i].0 in s.index && found[i].0 in s.files && s.files[found[i].0] == found[i].1
    ensures forall i, j :: 0 <= i < j < |found| ==> s.index[found[i].0].stamp < s.index[found[j].0].stamp
  {
    assert found[..|found|] == found;
    hide IndexOk;
    hide InQueue;
  }

  function Scanned(s: Shared, h: Hash, data: Data): Shared {
    Shared(s.index[h := Entry(|data|, s.stamp + 1)], s.bytes + |data|, s.stamp + 1, s.queue, s.files[h := data])
  }

  lemma ScannedIs(s: Shared, h: Hash, data: Data)
    ensures Scanned(s, h, data) == Shared(s.index[h := Entry(|data|, s.stamp + 1)], s.bytes + |data|, s.stamp + 1, s.queue, s.files[h := data])
  {
  }

  lemma RescanStep(found: seq<Job>, s: Shared, n: nat)
    requires n < |found| && DistinctHashes(found) && Rescanned(found, s, n)
    ensures Rescanned(found, Scanned(s, found[n].0, found[n].1), n + 1)
  {
    NotYet(found, n);
    AddedIndex(s, found[n].0, found[n].1);
    InExtended(found[..n], found[n]);
    hide IndexOk;
    hide InQueue;
  }

  lemma AddedIndex(s: Shared, h: Hash, data: Data)
    requires IndexOk(s) && h !in s.index
    ensures IndexOk(s.(stamp := s.stamp + 1, index := s.index[h := Entry(|data|, s.stamp + 1)], bytes := s.bytes + |data|,
                       files := s.files[h := data]))
  {
    TotalAdd(s.index, h, Entry(|data|, s.stamp + 1));
    hide Total;
  }

  lemma InExtended(queue: seq<Job>, job: Job)
    ensures forall h :: InQueue(queue + [job], h) <==> InQueue(queue, h) || h == job.0
  {
    var all := queue + [job];
    assert all[|queue|] == job;
    forall h | InQueue(queue, h)
      ensures InQueue(all, h)
    {
      var i :| 0 <= i < |queue| && queue[i].0 == h;
      assert all[i].0 == h;
    }
  }

  ghost function Written(s: Shared): Shared
    requires s.queue != []
  {
    Recorded(s.(files := s.files[s.queue[0].0 := s.queue[0].1]), s.queue[0])
  }

  ghost function Persisted(s: Shared, ok: bool, budget: nat, stuck: set<Hash>): Shared
    requires s.queue != [] && IndexOk(s) && s.queue[0].0 !in s.index
  {
    PersistTrims(s);
    if ok then Trim(Written(s), budget, stuck).(queue := s.queue[1..]) else s.(queue := s.queue[1..])
  }

  lemma PersistedIs(s: Shared, ok: bool, budget: nat, stuck: set<Hash>)
    requires s.queue != [] && IndexOk(s) && s.queue[0].0 !in s.index
    ensures IndexOk(Written(s))
    ensures
      var (h, data) := s.queue[0];
      Written(s) == Shared(s.index[h := Entry(|data|, s.stamp + 1)], s.bytes + |data|, s.stamp + 1, s.queue, s.files[h := data])
    ensures Persisted(s, ok, budget, stuck) == if ok then Trim(Written(s), budget, stuck).(queue := s.queue[1..]) else s.(queue := s.queue[1..])
    ensures Trim(Written(s), budget, stuck).queue == s.queue
  {
    PersistTrims(s);
    TrimKeepsQueue(Written(s), budget, stuck);
    hide Inv;
    hide Trim;
    hide IndexOk;
    hide Total;
  }

  lemma {:induction false} TrimKeepsQueue(s: Shared, budget: nat, stuck: set<Hash>)
    requires IndexOk(s)
    ensures Trim(s, budget, stuck).queue == s.queue && Trim(s, budget, stuck).stamp == s.stamp
    decreases |s.index|
  {
    if Over(s, budget) {
      var victim := Oldest(s.index);
      TrimStep(s, victim, budget, stuck);
      hide *;
      TrimKeepsQueue(Evicted(s, victim, Removes(stuck, victim)), budget, stuck);
    }
  }

  lemma NothingOver(s: Shared, budget: nat, stuck: set<Hash>)
    requires IndexOk(s)
    ensures !Over(s, budget) ==> Trim(s, budget, stuck) == s
  {
  }

  lemma EvictedIs(s: Shared)
    ensures s.index != map[] || |s.index| == 0
  {
  }

  lemma PersistTrims(s: Shared)
    requires s.queue != [] && IndexOk(s) && s.queue[0].0 !in s.index
    ensures IndexOk(Written(s))
  {
    AddedIndex(s, s.queue[0].0, s.queue[0].1);
    hide IndexOk;
  }

  /** A turn of the writer is a run of its steps, from any state the threads can reach. */
  lemma TurnRuns(s: State, ok: bool, budget: nat, stuck: set<Hash>) returns (es: seq<Event>)
    requires Inv(s) && s.writer.Waiting? && s.shared.queue != []
    ensures IndexOk(s.shared) && s.shared.queue[0].0 !in s.shared.index
    ensures Runs(s, es, s.(shared := Persisted(s.shared, ok, budget, stuck)), budget)
  {
    WaitingFront(s);
    hide *;
    PersistedIs(s.shared, ok, budget, stuck);
    var s3, front := FrontRuns(s, ok, budget);
    var trims, s4 := [], s3;
    if ok {
      trims := TrimRuns(s3, budget, stuck);
      s4 := s3.(shared := Trim(s3.shared, budget, stuck));
    } else {
      NoneTrimmed(s3, budget);
    }
    PopRuns(s4, budget);
    ThenRuns(s3, trims, s4, [Pop], s4.(writer := Waiting, shared := s4.shared.(queue := s4.shared.queue[1..])), budget);
    es := front + (trims + [Pop]);
    ThenRuns(s, front, s3, trims + [Pop], s.(shared := Persisted(s.shared, ok, budget, stuck)), budget);
  }

  lemma NoneTrimmed(s: State, budget: nat)
    ensures Runs(s, [], s, budget)
  {
  }

  lemma PopRuns(s: State, budget: nat)
    requires s.writer.Settling? && s.shared.queue != [] && (s.writer.ok ==> !Over(s.shared, budget))
    ensures Runs(s, [Pop], s.(writer := Waiting, shared := s.shared.(queue := s.shared.queue[1..])), budget)
  {
    OneStep(s, Pop, budget);
    hide Runs;
  }

  /** From taking a job to its place in the index. */
  lemma FrontRuns(s: State, ok: bool, budget: nat) returns (t: State, es: seq<Event>)
    requires Inv(s) && s.writer.Waiting? && s.shared.queue != []
    ensures t == s.(writer := Settling(s.shared.queue[0], ok), shared := if ok then Written(s.shared) else s.shared)
    ensures Inv(t) && Runs(s, es, t, budget)
  {
    hide Inv;
    hide Runs;
    var s1 := s.(writer := Writing(s.shared.queue[0]));
    StepInv(s, Take, budget);
    OneStep(s, Take, budget);
    StepInv(s1, Save(ok), budget);
    OneStep(s1, Save(ok), budget);
    var s2 := Step(s1, Save(ok), budget);
    StepInv(s2, Record, budget);
    OneStep(s2, Record, budget);
    t := Step(s2, Record, budget);
    hide *;
    ThenRuns(s1, [Save(ok)], s2, [Record], t, budget);
    es := [Take] + ([Save(ok)] + [Record]);
    ThenRuns(s, [Take], s1, [Save(ok)] + [Record], t, budget);
  }

  lemma WaitingFront(s: State)
    requires Inv(s) && s.writer.Waiting? && s.shared.queue != []
    ensures IndexOk(s.shared) && s.shared.queue[0].0 !in s.shared.index
  {
  }

  lemma OneStep(s: State, e: Event, budget: nat)
    requires Enabled(s, e, budget)
    ensures Runs(s, [e], Step(s, e, budget), budget)
  {
    hide Enabled;
    hide Step;
    assert [e][1..] == [];
  }

  lemma {:induction false} ThenRuns(s: State, a: seq<Event>, mid: State, b: seq<Event>, t: State, budget: nat)
    requires Runs(s, a, mid, budget) && Runs(mid, b, t, budget)
    ensures Runs(s, a + b, t, budget)
    decreases |a|
  {
    hide Enabled;
    hide Step;
    if a == [] {
      assert a + b == b;
    } else {
      assert (a + b)[1..] == a[1..] + b;
      ThenRuns(Step(s, a[0], budget), a[1..], mid, b, t, budget);
    }
  }
}
