/** The bounded in-memory SLO store (internal/slo). Times are nanoseconds. */
module Slo {

  datatype Timestamp = Zero | At(ns: int)

  datatype Timing = Timing(insertedAt: int, start: Timestamp, firstToken: Timestamp, end: Timestamp, fallback: bool)

  type Store = map<string, Timing>

  datatype Params = Params(maxRecords: nat, maxAge: int)

  datatype Op = Start | FirstToken(ts: Timestamp) | Completion(ts: Timestamp) | Fallback

  /** One Record* call with its clock reads: on insertion, on start, and when evicting. */
  datatype Call = Call(id: string, op: Op, inserted: int, started: int, evicted: int)

  function Fresh(at: int): Timing {
    Timing(at, Zero, Zero, Zero, false)
  }

  function Apply(c: Call, r: Timing): Timing {
    match c.op
    case Start => r.(start := At(c.started))
    case FirstToken(ts) => r.(firstToken := ts)
    case Completion(ts) => r.(end := ts)
    case Fallback => r.(fallback := true)
  }

  /** The store after a call, before eviction. */
  function Touch(s: Store, c: Call): Store {
    s[c.id := Apply(c, if c.id in s then s[c.id] else Fresh(c.inserted))]
  }

  /** What a record's age is counted from. */
  function Age(r: Timing): int {
    if r.end.At? then r.end.ns else r.insertedAt
  }

  predicate Expired(p: Params, r: Timing, now: int) {
    now - Age(r) > p.maxAge
  }

  function Live(p: Params, s: Store, now: int): set<string> {
    set id | id in s && !Expired(p, s[id], now)
  }

  /** Records dropped for capacity rather than age. */
  function CapacityVictims(p: Params, s: Store, s': Store, now: int): set<string> {
    Live(p, s, now) - s'.Keys
  }

  /** What eviction may do, for any map iteration order: expired records go, at most `maxRecords` stay, as
      many as possible stay, and no record dropped for capacity is newer than one kept. */
  ghost predicate Evicts(p: Params, s: Store, s': Store, now: int) {
    var live := Live(p, s, now);
    && s'.Keys <= live && (forall id :: id in s' ==> s'[id] == s[id])
    && |s'| == (if |live| <= p.maxRecords then |live| else p.maxRecords)
    && forall v, id :: v in live - s'.Keys && id in s' ==> Age(s[v]) <= Age(s[id])
  }

  // ---- Snapshot ----

  datatype Snapshot = Snapshot(ttftMs: int, tpotMs: int, completionMs: int, fallback: bool)

  const NO_SNAPSHOT := Snapshot(0, 0, 0, false)

  /** Whole milliseconds, truncated toward zero. */
  function Milliseconds(d: int): int {
    if d >= 0 then d / 1_000_000 else -((-d) / 1_000_000)
  }

  /** The whole milliseconds from one stamp to a later one, and 0 if either is missing or they are out of order. */
  function ElapsedMs(from: Timestamp, to: Timestamp): (ms: int)
    ensures if from.At? && to.At? && from.ns <= to.ns then ms * 1_000_000 <= to.ns - from.ns < (ms + 1) * 1_000_000
            else ms == 0
  {
    if from.At? && to.At? && Milliseconds(to.ns - from.ns) > 0 then Milliseconds(to.ns - from.ns) else 0
  }

  function SnapshotOf(r: Timing): (x: Snapshot)
    ensures x.ttftMs == ElapsedMs(r.start, r.firstToken) >= 0 && x.completionMs == ElapsedMs(r.start, r.end) >= 0
    ensures x.tpotMs > 0 <==> ElapsedMs(r.firstToken, r.end) > 0
    ensures x.tpotMs > 1 ==> 32 * x.tpotMs <= ElapsedMs(r.firstToken, r.end) < 32 * (x.tpotMs + 1)
    ensures x.tpotMs == 1 ==> ElapsedMs(r.firstToken, r.end) < 64
    ensures x.fallback == r.fallback
  {
    var post := ElapsedMs(r.firstToken, r.end);
    Snapshot(ElapsedMs(r.start, r.firstToken),
             if post == 0 then 0 else if post / 32 <= 0 then 1 else post / 32,
             ElapsedMs(r.start, r.end), r.fallback)
  }

  function Lookup(s: Store, id: string): Snapshot {
    if id in s then SnapshotOf(s[id]) else NO_SNAPSHOT
  }

  // ---- The engine ----

  /** No record of the store is older. */
  ghost predicate Oldest(s: Store, id: string) {
    id in s && forall x :: x in s ==> Age(s[id]) <= Age(s[x])
  }

  /** One round of capacity eviction: some oldest record goes, unless its id is empty. */
  ghost predicate EvictsOne(s: Store, s': Store) {
    exists id :: Oldest(s, id) && s' == if id == "" then s else s - {id}
  }

  class MemoryEngine {
    var records: Store
    const maxRecords: nat
    const maxAge: int

    ghost function Limits(): Params { Params(maxRecords, maxAge) }

    constructor (maxRecordsCfg: int, maxAgeMs: int)
      ensures records == map[] && maxRecords > 0 && maxAge > 0
      ensures maxRecords == if maxRecordsCfg <= 0 then 10000 else maxRecordsCfg
      ensures maxAge == (if maxAgeMs <= 0 then 600_000 else maxAgeMs) * 1_000_000
    {
      records := map[];
      maxRecords := if maxRecordsCfg <= 0 then 10000 else maxRecordsCfg;
      maxAge := (if maxAgeMs <= 0 then 600_000 else maxAgeMs) * 1_000_000;
    }

    /** `NoIdleRoundIff` says that the condition on the empty id is exactly what eviction needs to end. */
    method Record(c: Call)
      requires CanShrink(maxRecords, LiveStore(Limits(), Touch(records, c), c.evicted))
      modifies this
      ensures Evicts(Limits(), Touch(old(records), c), records, c.evicted)
    {
      var rec := if c.id in records then records[c.id] else Fresh(c.inserted);
      records := records[c.id := Apply(c, rec)];
      EvictLocked(c.evicted);
    }

    method EvictLocked(now: int)
      requires CanShrink(maxRecords, LiveStore(Limits(), records, now))
      modifies this
      ensures Evicts(Limits(), old(records), records, now)
    {
      ghost var was, live := records, Live(Limits(), records, now);
      DropExpired(now);
      assert records == LiveStore(Limits(), was, now);
      while |records| > maxRecords
        invariant CanShrink(maxRecords, records)
        invariant records.Keys <= live && forall id :: id in records ==> records[id] == was[id]
        invariant |records| >= maxRecords || records.Keys == live
        invariant forall v, id :: v in live - records.Keys && id in records ==> Age(was[v]) <= Age(was[id])
        decreases |records|
      {
        ghost var before := records;
        EvictOneOldest();
        ghost var gone :| Oldest(before, gone) && records == if gone == "" then before else before - {gone};
        ShrinkStep(maxRecords, before, gone);
        assert records.Keys == before.Keys - {gone};
        assert |records.Keys| == |before.Keys| - 1;
      }
      SubsetSize(records.Keys, live);
    }

    /** The first pass over the map, in any order. */
    method DropExpired(now: int)
      modifies this
      ensures records.Keys == Live(Limits(), old(records), now)
      ensures forall id :: id in records ==> records[id] == old(records)[id]
    {
      ghost var was := records;
      var todo := records.Keys;
      while todo != {}
        invariant todo <= records.Keys <= was.Keys
        invariant forall id :: id in records ==> records[id] == was[id]
        invariant forall id :: id in was && id !in todo ==> (id in records <==> !Expired(Limits(), was[id], now))
        decreases |todo|
      {
        var id :| id in todo;
        if now - Age(records[id]) > maxAge { records := records - {id}; }
        todo := todo - {id};
      }
    }

    method EvictOneOldest()
      requires records != map[]
      modifies this
      ensures EvictsOne(old(records), records)
    {
      var oldestID, oldest, first := "", 0, true;
      var todo := records.Keys;
      while todo != {}
        invariant todo <= records.Keys
        invariant first <==> todo == records.Keys
        invariant !first ==> oldestID in records.Keys - todo && oldest == Age(records[oldestID])
        invariant !first ==> forall id :: id in records.Keys - todo ==> oldest <= Age(records[id])
        decreases |todo|
      {
        var id :| id in todo;
        var t := Age(records[id]);
        if first || t < oldest { first, oldest, oldestID := false, t, id; }
        todo := todo - {id};
      }
      assert Oldest(records, oldestID);
      if oldestID != "" { records := records - {oldestID}; }
    }

    method SnapshotFor(id: string) returns (x: Snapshot)
      ensures x == Lookup(records, id)
      ensures id !in records ==> x == Snapshot(0, 0, 0, false)
      ensures id in records ==> x.ttftMs == ElapsedMs(records[id].start, records[id].firstToken) &&
                                x.completionMs == ElapsedMs(records[id].start, records[id].end) &&
                                (x.fallback <==> records[id].fallback)
    {
      if id !in records { return NO_SNAPSHOT; }
      var rec := records[id];
      var ttft, completion, tpot := 0, 0, 0;
      if rec.start.At? && rec.firstToken.At? {
        ttft := Milliseconds(rec.firstToken.ns - rec.start.ns);
        if ttft < 0 { ttft := 0; }
      }
      assert ttft == ElapsedMs(rec.start, rec.firstToken);
      if rec.start.At? && rec.end.At? {
        completion := Milliseconds(rec.end.ns - rec.start.ns);
        if completion < 0 { completion := 0; }
      }
      assert completion == ElapsedMs(rec.start, rec.end);
      if rec.firstToken.At? && rec.end.At? {
        var post := Milliseconds(rec.end.ns - rec.firstToken.ns);
        if post > 0 {
          tpot := post / 32;
          if tpot <= 0 { tpot := 1; }
        }
      }
      return Snapshot(ttft, tpot, completion, rec.fallback);
    }

    method ScalingAggregates() returns (ratio: real, rate: real)
      ensures exists xs :: SortedSampling(records, xs) && (ratio, rate) == Aggregates(xs)
    {
      var samples := CollectSamples();
      var sorted := SortByEnd(samples);
      SamplesPermute(records, records.Keys, samples, sorted);
      assert SortedSampling(records, sorted);
      ratio, rate := Summarise(sorted);
    }

    /** One pass over the map, in any order. */
    method CollectSamples() returns (samples: seq<Sample>)
      ensures Samples(records, records.Keys, samples)
    {
      samples := [];
      var todo, seen := records.Keys, {};
      while todo != {}
        invariant todo + seen == records.Keys && todo !! seen
        invariant Samples(records, seen, samples)
        decreases |todo|
      {
        var id :| id in todo;
        SamplesGrow(records, seen, samples, id);
        if Completed(records[id]) { samples := samples + [SampleOf(id, records[id])]; }
        todo, seen := todo - {id}, seen + {id};
      }
    }
  }

  /** The running sums over the two halves. */
  method Summarise(sorted: seq<Sample>) returns (ratio: real, rate: real)
    ensures (ratio, rate) == Aggregates(sorted)
  {
    if |sorted| < 4 { return 1.0, 0.0; }
    var mid := |sorted| / 2;
    var oldSum, newSum, fbRecent := 0, 0, 0;
    for i := 0 to mid
      invariant oldSum == TotalTtft(sorted[0..i])
    {
      SumsOneMore(sorted, 0, i);
      oldSum := oldSum + sorted[i].ttftMs;
    }
    for i := mid to |sorted|
      invariant newSum == TotalTtft(sorted[mid..i]) && fbRecent == Fallbacks(sorted[mid..i])
    {
      SumsOneMore(sorted, mid, i);
      newSum := newSum + sorted[i].ttftMs;
      if sorted[i].fallback { fbRecent := fbRecent + 1; }
    }
    assert sorted[0..mid] == sorted[..mid] && sorted[mid..|sorted|] == sorted[mid..];
    var oldAvg := oldSum as real / mid as real;
    var newAvg := newSum as real / (|sorted| - mid) as real;
    if oldAvg < 1.0 { oldAvg := 1.0; }
    return newAvg / oldAvg, fbRecent as real / (|sorted| - mid) as real;
  }

  /** One more sample adds its own share to the sums. */
  lemma SumsOneMore(xs: seq<Sample>, lo: nat, i: nat)
    requires lo <= i < |xs|
    ensures TotalTtft(xs[lo..i + 1]) == TotalTtft(xs[lo..i]) + xs[i].ttftMs
    ensures Fallbacks(xs[lo..i + 1]) == Fallbacks(xs[lo..i]) + if xs[i].fallback then 1 else 0
  {
    assert xs[lo..i + 1][..i - lo] == xs[lo..i];
  }

  lemma SubsetSize<T>(a: set<T>, b: set<T>)
    requires a <= b
    ensures |a| <= |b|
  {
    assert a + (b - a) == b;
  }

  /** A round of the capacity loop makes progress whatever the iteration order exactly when the empty id is not among
      the oldest records; an empty id that is strictly oldest leaves the store as it is, forever. */
  lemma ReachesCapacity(s: Store)
    requires s != map[]
    ensures (forall s' :: EvictsOne(s, s') ==> s' != s) <==> !Oldest(s, "")
    ensures Oldest(s, "") && (forall x :: Oldest(s, x) ==> x == "") ==> forall s' :: EvictsOne(s, s') ==> s' == s
  {
    if Oldest(s, "") { assert EvictsOne(s, s); }
    forall s' | EvictsOne(s, s') && !Oldest(s, "") ensures s' != s {
      var id :| Oldest(s, id) && s' == if id == "" then s else s - {id};
      assert id !in s';
    }
  }

  /** The unexpired records, which the capacity loop starts from. */
  function LiveStore(p: Params, s: Store, now: int): Store {
    map id | id in Live(p, s, now) :: s[id]
  }

  function OlderThanEmpty(s: Store): set<string> {
    set id | id in s && "" in s && Age(s[id]) < Age(s[""])
  }

  /** Enough records go before it is the turn of the empty id, if it is there. */
  predicate CanShrink(maxRecords: nat, s: Store) {
    "" in s ==> |OlderThanEmpty(s)| >= |s| - maxRecords
  }

  /** In every iteration order the capacity loop reaches capacity without an idle round. */
  ghost predicate NoIdleRound(maxRecords: nat, s: Store)
    decreases s.Keys
  {
    |s| <= maxRecords || forall id :: Oldest(s, id) ==> id != "" && NoIdleRound(maxRecords, s - {id})
  }

  /** Removing an oldest record over capacity keeps what is needed. */
  lemma ShrinkStep(maxRecords: nat, s: Store, id: string)
    requires |s| > maxRecords && Oldest(s, id)
    ensures CanShrink(maxRecords, s) ==> id != "" && CanShrink(maxRecords, s - {id})
    ensures id != "" && CanShrink(maxRecords, s - {id}) && !Oldest(s, "") ==> CanShrink(maxRecords, s)
  {
    var s' := s - {id};
    assert s'.Keys == s.Keys - {id};
    if "" in s && id != "" {
      assert OlderThanEmpty(s') == OlderThanEmpty(s) - {id};
      if Oldest(s, "") { assert OlderThanEmpty(s) == {}; } else { assert id in OlderThanEmpty(s); }
    }
    if id == "" { assert OlderThanEmpty(s) == {}; }
  }

  lemma {:induction false} OldestExists(s: Store)
    requires s != map[]
    ensures exists id :: Oldest(s, id)
    decreases s.Keys
  {
    var x :| x in s;
    var rest := s - {x};
    if rest == map[] {
      assert s.Keys == rest.Keys + {x};
      assert Oldest(s, x);
    } else {
      OldestExists(rest);
      var y :| Oldest(rest, y);
      assert forall z :: z in s ==> z == x || z in rest;
      if Age(s[x]) < Age(s[y]) { assert Oldest(s, x); } else { assert Oldest(s, y); }
    }
  }

  /** Exactly when the capacity loop ends without an idle round whatever the iteration order: when the empty id is not
      there, or at least as many records are strictly older than it as have to go. */
  lemma {:induction false} NoIdleRoundIff(maxRecords: nat, s: Store)
    ensures NoIdleRound(maxRecords, s) <==> CanShrink(maxRecords, s)
    decreases s.Keys
  {
    if |s| > maxRecords {
      forall id | Oldest(s, id)
        ensures NoIdleRound(maxRecords, s - {id}) <==> CanShrink(maxRecords, s - {id})
      {
        NoIdleRoundIff(maxRecords, s - {id});
        ShrinkStep(maxRecords, s, id);
      }
      OldestExists(s);
      var id :| Oldest(s, id);
      ShrinkStep(maxRecords, s, id);
      if CanShrink(maxRecords, s) {
        forall x | Oldest(s, x) ensures x != "" && NoIdleRound(maxRecords, s - {x}) { ShrinkStep(maxRecords, s, x); }
      }
    }
  }

  /** It happens: with room for one record, an empty id followed by another id is left strictly oldest, and the loop of
      the second call never moves again. */
  lemma EmptyIdStalls()
    ensures var p := Params(1, 1_000);
            var first := Touch(map[], Call("", Start, 1, 1, 1));
            var second := Touch(first, Call("a", Start, 2, 2, 2));
            && Evicts(p, first, first, 1)
            && LiveStore(p, second, 2) == second && |second| > p.maxRecords
            && forall s' :: EvictsOne(second, s') ==> s' == second
  {
    var p := Params(1, 1_000);
    var first := Touch(map[], Call("", Start, 1, 1, 1));
    var second := Touch(first, Call("a", Start, 2, 2, 2));
    assert first.Keys == {""} && second.Keys == {"", "a"};
    assert Live(p, first, 1) == {""};
    StrictlyOldestEmptyIdStalls(second, "a");
  }

  lemma StrictlyOldestEmptyIdStalls(s: Store, id: string)
    requires id != "" && s.Keys == {"", id} && Age(s[""]) < Age(s[id])
    ensures forall s' :: EvictsOne(s, s') ==> s' == s
  {
    assert Oldest(s, "") && !Oldest(s, id);
    ReachesCapacity(s);
  }

  // ---- Runs ----

  /** States `ss` are what the calls may lead to from the empty store. */
  ghost predicate IsRun(p: Params, calls: seq<Call>, ss: seq<Store>) {
    && |ss| == |calls| + 1 && ss[0] == map[]
    && forall k :: 0 <= k < |calls| ==> StepAt(p, calls, ss, k)
  }

  ghost predicate StepAt(p: Params, calls: seq<Call>, ss: seq<Store>, k: nat)
    requires k < |calls| && |ss| == |calls| + 1
  {
    Evicts(p, Touch(ss[k], calls[k]), ss[k + 1], calls[k].evicted)
  }

  /** After every call the store is within capacity and holds nothing that had expired when the call evicted,
      and at most one record was dropped for capacity. */
  lemma StoreStaysBounded(p: Params, calls: seq<Call>, ss: seq<Store>, k: nat)
    requires IsRun(p, calls, ss) && k < |calls|
    ensures |ss[k]| <= p.maxRecords && |ss[k + 1]| <= p.maxRecords
    ensures NoneExpired(p, ss[k + 1], calls[k].evicted)
    ensures |CapacityVictims(p, Touch(ss[k], calls[k]), ss[k + 1], calls[k].evicted)| <= 1
  {
    WithinCapacity(p, calls, ss, k);
    WithinCapacity(p, calls, ss, k + 1);
    assert StepAt(p, calls, ss, k);
    var live := Live(p, Touch(ss[k], calls[k]), calls[k].evicted);
    TouchAddsOne(ss[k], calls[k]);
    SubsetSize(live, Touch(ss[k], calls[k]).Keys);
    DifferenceSize(live, ss[k + 1].Keys);
  }

  predicate NoneExpired(p: Params, s: Store, now: int) {
    forall id :: id in s ==> !Expired(p, s[id], now)
  }

  lemma WithinCapacity(p: Params, calls: seq<Call>, ss: seq<Store>, k: nat)
    requires IsRun(p, calls, ss) && k <= |calls|
    ensures |ss[k]| <= p.maxRecords
  {
    if k > 0 { assert StepAt(p, calls, ss, k - 1); }
  }

  lemma TouchAddsOne(s: Store, c: Call)
    ensures |Touch(s, c).Keys| <= |s| + 1
  {
    assert Touch(s, c).Keys == s.Keys + {c.id};
  }

  lemma DifferenceSize(a: set<string>, b: set<string>)
    requires b <= a
    ensures |a - b| == |a| - |b|
  {
    assert a == (a - b) + b;
  }

  /** The clock strictly increases from call to call. */
  ghost predicate Clocked(calls: seq<Call>) {
    && (forall k :: 0 <= k < |calls| ==> calls[k].inserted <= calls[k].started <= calls[k].evicted)
    && forall j, k :: 0 <= j < k < |calls| ==> calls[j].evicted < calls[k].inserted
  }

  /** Completion stamps do not lie in the future of their call. */
  ghost predicate NotFuture(calls: seq<Call>) {
    forall k :: 0 <= k < |calls| && calls[k].op.Completion? && calls[k].op.ts.At? ==>
                  calls[k].op.ts.ns <= calls[k].evicted
  }

  /** Call `j` is where the record's insertion time comes from. */
  predicate InsertedBy(calls: seq<Call>, j: int, id: string, r: Timing) {
    0 <= j < |calls| && calls[j].id == id && calls[j].inserted == r.insertedAt
  }

  /** Call `m` touched the id no earlier than the record's age counts from. */
  predicate AgedBy(calls: seq<Call>, m: int, id: string, r: Timing) {
    0 <= m < |calls| && calls[m].id == id && Age(r) <= calls[m].evicted
  }

  lemma {:induction false} AgesHaveWitnesses(p: Params, calls: seq<Call>, ss: seq<Store>, k: nat, id: string)
    requires IsRun(p, calls, ss) && Clocked(calls) && NotFuture(calls) && k < |calls|
    requires id in Touch(ss[k], calls[k])
    ensures var r := Touch(ss[k], calls[k])[id];
            && (exists j :: j <= k && InsertedBy(calls, j, id, r))
            && (exists m :: m <= k && AgedBy(calls, m, id, r))
  {
    var r := Touch(ss[k], calls[k])[id];
    if id in ss[k] {
      assert k > 0 && StepAt(p, calls, ss, k - 1);
      AgesHaveWitnesses(p, calls, ss, k - 1, id);
      var prev := ss[k][id];
      var j :| j <= k - 1 && InsertedBy(calls, j, id, prev);
      var m :| m <= k - 1 && AgedBy(calls, m, id, prev);
      assert InsertedBy(calls, j, id, r);
      if calls[k].id != id || !calls[k].op.Completion? {
        assert AgedBy(calls, m, id, r);
      } else if calls[k].op.ts.At? {
        assert AgedBy(calls, k, id, r);
      } else {
        assert AgedBy(calls, j, id, r);
      }
    } else {
      assert InsertedBy(calls, k, id, r) && AgedBy(calls, k, id, r);
    }
  }

  function TouchedBetween(calls: seq<Call>, j: int, k: int): set<string> {
    set i | 0 <= i < |calls| && j < i <= k :: calls[i].id
  }

  /** Retention: when a record that has not completed is dropped although it is no older than `maxAge`, at least
      `maxRecords` distinct other ids have been touched since it was inserted. */
  lemma UncompletedRecordsAreRetained(p: Params, calls: seq<Call>, ss: seq<Store>, k: nat, id: string, j: nat)
    requires IsRun(p, calls, ss) && Clocked(calls) && NotFuture(calls) && j <= k < |calls|
    requires id in Touch(ss[k], calls[k]) && id !in ss[k + 1]
    requires var r := Touch(ss[k], calls[k])[id];
             r.end == Zero && calls[k].evicted - r.insertedAt <= p.maxAge && InsertedBy(calls, j, id, r)
    ensures |TouchedBetween(calls, j, k) - {id}| >= p.maxRecords
  {
    var t, s' := Touch(ss[k], calls[k]), ss[k + 1];
    var since := TouchedBetween(calls, j, k) - {id};
    assert StepAt(p, calls, ss, k);
    assert |s'.Keys| == p.maxRecords by {
      SubsetSize(s'.Keys + {id}, Live(p, t, calls[k].evicted));
    }
    forall x | x in s' ensures x in since {
      assert Age(t[id]) <= Age(t[x]);
      YoungerWereTouched(p, calls, ss, k, id, j, x);
    }
    SubsetSize(s'.Keys, since);
  }

  /** An id whose record is no older than the insertion at call `j` was touched since. */
  lemma YoungerWereTouched(p: Params, calls: seq<Call>, ss: seq<Store>, k: nat, id: string, j: nat, x: string)
    requires IsRun(p, calls, ss) && Clocked(calls) && NotFuture(calls) && j <= k < |calls|
    requires x != id && x in Touch(ss[k], calls[k]) && calls[j].id == id
    requires calls[j].inserted <= Age(Touch(ss[k], calls[k])[x])
    ensures x in TouchedBetween(calls, j, k)
  {
    AgesHaveWitnesses(p, calls, ss, k, x);
    var m :| m <= k && AgedBy(calls, m, x, Touch(ss[k], calls[k])[x]);
    assert m >= j;
  }

  /** A store that never evicts, fed with calls `j..n`. */
  function Unbounded(calls: seq<Call>, j: nat, n: nat): Store
    requires n <= |calls|
  {
    if n <= j then map[] else Touch(Unbounded(calls, j, n - 1), calls[n - 1])
  }

  /** Agreement with the unbounded log: a record present ever since call `j` inserted it is exactly what a
      store without any eviction would hold after the calls from `j` on, and so is its snapshot. */
  lemma {:induction false} PresentRecordsAgreeWithTheLog(
    p: Params, calls: seq<Call>, ss: seq<Store>, id: string, j: nat, n: nat)
    requires IsRun(p, calls, ss) && j < n <= |calls|
    requires id !in ss[j] && forall i :: j < i <= n ==> id in ss[i]
    ensures id in Unbounded(calls, j, n) && ss[n][id] == Unbounded(calls, j, n)[id]
    ensures Lookup(ss[n], id) == Lookup(Unbounded(calls, j, n), id)
    decreases n
  {
    assert StepAt(p, calls, ss, n - 1);
    if n == j + 1 {
      assert Unbounded(calls, j, j) == map[];
    } else {
      PresentRecordsAgreeWithTheLog(p, calls, ss, id, j, n - 1);
    }
  }

  /** For an id not touched before `j` that is the log of the whole run. */
  lemma {:induction false} LogFromFirstTouch(calls: seq<Call>, id: string, j: nat, n: nat)
    requires j <= n <= |calls| && forall i :: 0 <= i < j ==> calls[i].id != id
    ensures Lookup(Unbounded(calls, 0, n), id) == Lookup(Unbounded(calls, j, n), id)
    ensures id in Unbounded(calls, 0, n) <==> id in Unbounded(calls, j, n)
    ensures id in Unbounded(calls, j, n) ==> Unbounded(calls, 0, n)[id] == Unbounded(calls, j, n)[id]
    decreases n
  {
    if n > j {
      LogFromFirstTouch(calls, id, j, n - 1);
    } else if n > 0 {
      assert Unbounded(calls, n, n) == map[] && Unbounded(calls, n - 1, n - 1) == map[];
      LogFromFirstTouch(calls, id, n - 1, n - 1);
    }
  }

  // ---- Scaling aggregates ----

  /** One completed request; the id only serves to state which record it came from. */
  datatype Sample = Sample(id: string, end: int, ttftMs: int, fallback: bool)

  predicate Completed(r: Timing) {
    r.end.At? && r.start.At?
  }

  function SampleOf(id: string, r: Timing): Sample
    requires Completed(r)
  {
    var d := Milliseconds((if r.firstToken.At? then r.firstToken.ns else r.end.ns) - r.start.ns);
    Sample(id, r.end.ns, if d < 0 then 0 else d, r.fallback)
  }

  /** `xs` holds one sample for each completed record among `ids`, in any order. */
  ghost predicate Samples(s: Store, ids: set<string>, xs: seq<Sample>) {
    && (forall i :: 0 <= i < |xs| ==> IsSample(s, ids, xs[i]))
    && (forall id :: id in ids && id in s && Completed(s[id]) ==> SampleOf(id, s[id]) in xs)
    && forall i, j :: 0 <= i < j < |xs| ==> xs[i].id != xs[j].id
  }

  ghost predicate IsSample(s: Store, ids: set<string>, x: Sample) {
    x.id in ids && x.id in s && Completed(s[x.id]) && x == SampleOf(x.id, s[x.id])
  }

  lemma SamplesGrow(s: Store, ids: set<string>, xs: seq<Sample>, id: string)
    requires Samples(s, ids, xs) && id !in ids && id in s
    ensures Samples(s, ids + {id}, if Completed(s[id]) then xs + [SampleOf(id, s[id])] else xs)
  {}

  ghost predicate SortedByEnd(xs: seq<Sample>) {
    forall i, j :: 0 <= i < j < |xs| ==> xs[i].end <= xs[j].end
  }

  /** The samples of the whole store, sorted by completion time; ties in any order. */
  ghost predicate SortedSampling(s: Store, xs: seq<Sample>) {
    Samples(s, s.Keys, xs) && SortedByEnd(xs)
  }

  lemma SamplesPermute(s: Store, ids: set<string>, xs: seq<Sample>, ys: seq<Sample>)
    requires Samples(s, ids, xs) && multiset(xs) == multiset(ys)
    ensures Samples(s, ids, ys)
  {
    forall y ensures y in ys <==> y in xs {
      assert y in ys <==> y in multiset(ys);
      assert y in xs <==> y in multiset(xs);
    }
    forall i | 0 <= i < |ys| ensures IsSample(s, ids, ys[i]) { assert ys[i] in ys; }
    forall i, j | 0 <= i < j < |ys| ensures ys[i].id != ys[j].id {
      if ys[i].id == ys[j].id {
        assert IsSample(s, ids, ys[i]) && IsSample(s, ids, ys[j]);
        TwiceInSeq(ys, i, j);
        OnceInSeq(xs, ys[i]);
        assert false;
      }
    }
  }

  lemma TwiceInSeq(ys: seq<Sample>, i: nat, j: nat)
    requires i < j < |ys| && ys[i] == ys[j]
    ensures multiset(ys)[ys[i]] >= 2
  {
    assert ys == ys[..j] + [ys[j]] + ys[j + 1..];
    assert ys[i] in ys[..j];
  }

  lemma {:induction false} OnceInSeq(xs: seq<Sample>, x: Sample)
    requires forall i, j :: 0 <= i < j < |xs| ==> xs[i] != xs[j]
    ensures multiset(xs)[x] <= 1
    decreases |xs|
  {
    if xs != [] {
      var front := xs[..|xs| - 1];
      assert xs == front + [xs[|xs| - 1]];
      OnceInSeq(front, x);
      if xs[|xs| - 1] == x { assert x !in front; }
    }
  }

  /** The library sort: any sorted permutation. */
  method SortByEnd(xs: seq<Sample>) returns (ys: seq<Sample>)
    ensures multiset(ys) == multiset(xs) && SortedByEnd(ys)
  {
    ys := [];
    for i := 0 to |xs|
      invariant multiset(ys) == multiset(xs[..i]) && SortedByEnd(ys)
    {
      ys := InsertByEnd(ys, xs[i]);
      assert xs[..i + 1] == xs[..i] + [xs[i]];
    }
    assert xs[..|xs|] == xs;
  }

  method InsertByEnd(ys: seq<Sample>, x: Sample) returns (zs: seq<Sample>)
    requires SortedByEnd(ys)
    ensures multiset(zs) == multiset(ys) + multiset{x} && SortedByEnd(zs)
  {
    var k := 0;
    while k < |ys| && ys[k].end <= x.end
      invariant 0 <= k <= |ys| && forall j :: 0 <= j < k ==> ys[j].end <= x.end
    {
      k := k + 1;
    }
    assert ys == ys[..k] + ys[k..];
    zs := ys[..k] + [x] + ys[k..];
    SplicedIsSorted(ys, k, x);
  }

  lemma SplicedIsSorted(ys: seq<Sample>, k: nat, x: Sample)
    requires SortedByEnd(ys) && k <= |ys|
    requires (forall j :: 0 <= j < k ==> ys[j].end <= x.end) && (k < |ys| ==> x.end <= ys[k].end)
    ensures SortedByEnd(ys[..k] + [x] + ys[k..])
  {
    var zs := ys[..k] + [x] + ys[k..];
    forall i, j | 0 <= i < j < |zs| ensures zs[i].end <= zs[j].end {
      assert zs[i] == if i < k then ys[i] else if i == k then x else ys[i - 1];
      assert zs[j] == if j < k then ys[j] else if j == k then x else ys[j - 1];
    }
  }

  function TotalTtft(xs: seq<Sample>): int {
    if xs == [] then 0 else TotalTtft(xs[..|xs| - 1]) + xs[|xs| - 1].ttftMs
  }

  function Fallbacks(xs: seq<Sample>): nat {
    if xs == [] then 0 else Fallbacks(xs[..|xs| - 1]) + if xs[|xs| - 1].fallback then 1 else 0
  }

  function AtLeastOne(r: real): real {
    if r < 1.0 then 1.0 else r
  }

  function Aggregates(xs: seq<Sample>): (real, real) {
    if |xs| < 4 then (1.0, 0.0)
    else
      var mid := |xs| / 2;
      var newer := (|xs| - mid) as real;
      var oldAvg := TotalTtft(xs[..mid]) as real / mid as real;
      var newAvg := TotalTtft(xs[mid..]) as real / newer;
      (newAvg / AtLeastOne(oldAvg), Fallbacks(xs[mid..]) as real / newer)
  }

  lemma {:induction false} TotalsBounds(xs: seq<Sample>)
    ensures Fallbacks(xs) <= |xs|
    ensures (forall i :: 0 <= i < |xs| ==> xs[i].ttftMs >= 0) ==> TotalTtft(xs) >= 0
    decreases |xs|
  {
    if xs != [] { TotalsBounds(xs[..|xs| - 1]); }
  }

  lemma {:induction false} EqualTotals(xs: seq<Sample>, v: int)
    requires forall i :: 0 <= i < |xs| ==> xs[i].ttftMs == v
    ensures TotalTtft(xs) == |xs| * v
    decreases |xs|
  {
    if xs != [] { EqualTotals(xs[..|xs| - 1], v); }
  }

  /** The ratio is not negative, the rate is a fraction, fewer than four samples give the neutral pair, and
      every sample of the newer half ends no earlier than every sample of the older half. */
  lemma AggregatesRanges(s: Store, xs: seq<Sample>)
    requires SortedSampling(s, xs)
    ensures Aggregates(xs).0 >= 0.0 && 0.0 <= Aggregates(xs).1 <= 1.0
    ensures |xs| < 4 ==> Aggregates(xs) == (1.0, 0.0)
    ensures forall i, j :: 0 <= i < |xs| / 2 <= j < |xs| ==> xs[i].end <= xs[j].end
  {
    if |xs| >= 4 {
      var mid := |xs| / 2;
      var older, newer := xs[..mid], xs[mid..];
      forall i | 0 <= i < |newer| ensures newer[i].ttftMs >= 0 { assert IsSample(s, s.Keys, xs[mid + i]); }
      TotalsBounds(newer);
      Fraction(Fallbacks(newer), |newer|);
      Quotient(TotalTtft(newer), |newer|, TotalTtft(older) as real / mid as real);
    }
  }

  /** Equal TTFTs of at least a millisecond give ratio 1. */
  lemma EqualTtftGivesRatioOne(xs: seq<Sample>, v: int)
    requires v >= 1 && forall i :: 0 <= i < |xs| ==> xs[i].ttftMs == v
    ensures Aggregates(xs).0 == 1.0
  {
    if |xs| >= 4 {
      var mid := |xs| / 2;
      EqualMeans(xs[..mid], mid, v);
      EqualMeans(xs[mid..], |xs| - mid, v);
      var r := v as real;
      assert r / AtLeastOne(r) == 1.0;
    }
  }

  lemma EqualMeans(xs: seq<Sample>, n: nat, v: int)
    requires |xs| == n > 0 && forall i :: 0 <= i < |xs| ==> xs[i].ttftMs == v
    ensures TotalTtft(xs) as real / n as real == v as real
  {
    EqualTotals(xs, v);
    MeanOfEqual(n, v);
  }

  lemma Fraction(a: nat, b: nat)
    requires a <= b && 0 < b
    ensures 0.0 <= a as real / b as real <= 1.0
  {}

  lemma Quotient(a: int, b: int, floor: real)
    requires 0 <= a && 0 < b
    ensures a as real / b as real / AtLeastOne(floor) >= 0.0
  {
    var q := a as real / b as real;
    assert q >= 0.0;
  }

  lemma MeanOfEqual(n: nat, v: int)
    requires 0 < n
    ensures (n * v) as real / n as real == v as real
  {
    assert (n * v) as real == n as real * v as real;
  }

  // ---- What is stored, read off the calls ----

  /** The four Record* calls. */
  datatype Field = StartTime | FirstTokenTime | EndTime | FallbackFlag

  /** Call `k` is for the id and sets that field. */
  predicate Sets(calls: seq<Call>, k: int, id: string, f: Field) {
    0 <= k < |calls| && calls[k].id == id &&
    match f
    case StartTime => calls[k].op.Start?
    case FirstTokenTime => calls[k].op.FirstToken?
    case EndTime => calls[k].op.Completion?
    case FallbackFlag => calls[k].op.Fallback?
  }

  /** Of the calls `j..n`, `k` is the last to set the field. */
  ghost predicate SetLast(calls: seq<Call>, j: int, n: int, id: string, f: Field, k: int) {
    j <= k < n && Sets(calls, k, id, f) && forall i :: k < i < n ==> !Sets(calls, i, id, f)
  }

  ghost predicate NeverSet(calls: seq<Call>, j: int, n: int, id: string, f: Field) {
    forall i :: j <= i < n ==> !Sets(calls, i, id, f)
  }

  /** The stamp is the one of the last call that set the field, the clock of a start and the caller's stamp otherwise;
      zero if there was none. */
  ghost predicate IsLastStamp(calls: seq<Call>, j: int, n: int, id: string, f: Field, stamp: Timestamp)
    requires !f.FallbackFlag?
  {
    if NeverSet(calls, j, n, id, f) then stamp == Zero
    else exists k :: SetLast(calls, j, n, id, f, k) &&
                     stamp == if f.StartTime? then At(calls[k].started) else calls[k].op.ts
  }

  /** The record of an id inserted by call `j`, after the calls up to `n`: inserted at that call's clock, with the last
      stamps, and with the flag exactly if a call set it. */
  ghost predicate RecordsTheCalls(calls: seq<Call>, j: nat, n: nat, id: string, r: Timing)
    requires j < |calls|
  {
    && r.insertedAt == calls[j].inserted
    && IsLastStamp(calls, j, n, id, StartTime, r.start)
    && IsLastStamp(calls, j, n, id, FirstTokenTime, r.firstToken)
    && IsLastStamp(calls, j, n, id, EndTime, r.end)
    && (r.fallback <==> !NeverSet(calls, j, n, id, FallbackFlag))
  }

  /** The last call sets the stamp or leaves it. */
  lemma LastStamp(calls: seq<Call>, j: nat, n: nat, id: string, f: Field, before: Timestamp, after: Timestamp)
    requires !f.FallbackFlag? && j < n <= |calls| && IsLastStamp(calls, j, n - 1, id, f, before)
    requires after == if !Sets(calls, n - 1, id, f) then before
                      else if f.StartTime? then At(calls[n - 1].started) else calls[n - 1].op.ts
    ensures IsLastStamp(calls, j, n, id, f, after)
  {
    if Sets(calls, n - 1, id, f) {
      assert SetLast(calls, j, n, id, f, n - 1);
    } else if !NeverSet(calls, j, n - 1, id, f) {
      var k :| SetLast(calls, j, n - 1, id, f, k) &&
               before == if f.StartTime? then At(calls[k].started) else calls[k].op.ts;
      assert SetLast(calls, j, n, id, f, k);
    }
  }

  lemma LastFlag(calls: seq<Call>, j: nat, n: nat, id: string, before: bool, after: bool)
    requires j < n <= |calls| && (before <==> !NeverSet(calls, j, n - 1, id, FallbackFlag))
    requires after <==> before || Sets(calls, n - 1, id, FallbackFlag)
    ensures after <==> !NeverSet(calls, j, n, id, FallbackFlag)
  {}

  /** The last call updates the record as it says, or leaves it. */
  lemma LastUpdate(calls: seq<Call>, j: nat, n: nat, id: string, before: Timing, after: Timing)
    requires j < n <= |calls| && RecordsTheCalls(calls, j, n - 1, id, before)
    requires after == if calls[n - 1].id == id then Apply(calls[n - 1], before) else before
    ensures RecordsTheCalls(calls, j, n, id, after)
  {
    LastStamp(calls, j, n, id, StartTime, before.start, after.start);
    LastStamp(calls, j, n, id, FirstTokenTime, before.firstToken, after.firstToken);
    LastStamp(calls, j, n, id, EndTime, before.end, after.end);
    LastFlag(calls, j, n, id, before.fallback, after.fallback);
  }

  lemma InsertedRecord(calls: seq<Call>, j: nat, id: string)
    requires j < |calls|
    ensures RecordsTheCalls(calls, j, j, id, Fresh(calls[j].inserted))
  {}

  lemma UnboundedNext(calls: seq<Call>, j: nat, n: nat, id: string)
    requires j < n <= |calls| && calls[j].id == id && (n > j + 1 ==> id in Unbounded(calls, j, n - 1))
    ensures id in Unbounded(calls, j, n)
    ensures var before := if n == j + 1 then Fresh(calls[j].inserted) else Unbounded(calls, j, n - 1)[id];
            Unbounded(calls, j, n)[id] == if calls[n - 1].id == id then Apply(calls[n - 1], before) else before
  {
    if n == j + 1 { assert Unbounded(calls, j, j) == map[]; }
  }

  /** So the store that never evicts holds for the id the record of its calls. */
  lemma {:induction false} LogRecordsTheCalls(calls: seq<Call>, j: nat, n: nat, id: string) returns (r: Timing)
    requires j < n <= |calls| && calls[j].id == id
    ensures id in Unbounded(calls, j, n) && Unbounded(calls, j, n)[id] == r && RecordsTheCalls(calls, j, n, id, r)
    decreases n
  {
    var before := Fresh(calls[j].inserted);
    if n == j + 1 {
      InsertedRecord(calls, j, id);
    } else {
      before := LogRecordsTheCalls(calls, j, n - 1, id);
    }
    UnboundedNext(calls, j, n, id);
    r := if calls[n - 1].id == id then Apply(calls[n - 1], before) else before;
    LastUpdate(calls, j, n, id, before, r);
  }

  /** A record present ever since it was inserted, whatever was evicted meanwhile, holds what the calls for its id since
      then say. */
  lemma PresentRecordsHoldTheirCalls(p: Params, calls: seq<Call>, ss: seq<Store>, id: string, j: nat, n: nat)
    requires IsRun(p, calls, ss) && j < n <= |calls|
    requires id !in ss[j] && forall i :: j < i <= n ==> id in ss[i]
    ensures RecordsTheCalls(calls, j, n, id, ss[n][id])
  {
    assert StepAt(p, calls, ss, j);
    assert id in ss[j + 1];
    assert calls[j].id == id;
    PresentRecordsAgreeWithTheLog(p, calls, ss, id, j, n);
    var _ := LogRecordsTheCalls(calls, j, n, id);
  }

  /** The record may stay: it was completed no more than `maxAge` ago, or, not completed, inserted no more than that
      ago. */
  predicate MayStay(p: Params, r: Timing, now: int) {
    match r.end
    case At(ns) => now - ns <= p.maxAge
    case Zero => now - r.insertedAt <= p.maxAge
  }

  /** No newer than the other, by completion if completed and by insertion otherwise. */
  predicate NoNewer(a: Timing, b: Timing) {
    (if a.end == Zero then a.insertedAt else a.end.ns) <= (if b.end == Zero then b.insertedAt else b.end.ns)
  }

  /** Records stay as they are, at most `maxRecords` of them and only such as may stay; and one that may stay goes only
      if as many as that are left, none of which it is newer than. */
  ghost predicate EvictsWithin(p: Params, s: Store, s': Store, now: int) {
    && (forall id :: id in s' ==> id in s && s'[id] == s[id] && MayStay(p, s[id], now))
    && |s'| <= p.maxRecords
    && (forall v :: v in s && v !in s' && MayStay(p, s[v], now) ==>
                      |s'| == p.maxRecords && forall id :: id in s' ==> NoNewer(s[v], s[id]))
  }

  lemma LiveMayStay(p: Params, s: Store, now: int)
    ensures forall id :: id in Live(p, s, now) <==> id in s && MayStay(p, s[id], now)
    ensures forall v, id :: v in s && id in s ==> (NoNewer(s[v], s[id]) <==> Age(s[v]) <= Age(s[id]))
  {}

  /** That is exactly what eviction does. */
  lemma EvictsIff(p: Params, s: Store, s': Store, now: int)
    ensures Evicts(p, s, s', now) <==> EvictsWithin(p, s, s', now)
  {
    LiveMayStay(p, s, now);
    if s'.Keys <= Live(p, s, now) { SizeWithin(p.maxRecords, s'.Keys, Live(p, s, now)); }
    assert |s'| == |s'.Keys|;
  }

  lemma SizeWithin(max: nat, kept: set<string>, live: set<string>)
    requires kept <= live
    ensures |kept| == (if |live| <= max then |live| else max) <==> |kept| <= max && (kept == live || |kept| == max)
  {
    DifferenceSize(live, kept);
    assert kept == live <==> live - kept == {};
  }

  /** A sorted sampling holds one sample for each record with a start and an end, and each sample has its record's end,
      its flag, and the time from start to first token, or to the end without one. */
  lemma SampleMeaning(s: Store, xs: seq<Sample>)
    requires SortedSampling(s, xs)
    ensures forall x :: x in xs ==>
                          && x.id in s && s[x.id].start.At? && s[x.id].end == At(x.end)
                          && x.fallback == s[x.id].fallback
                          && x.ttftMs == ElapsedMs(s[x.id].start, if s[x.id].firstToken.At? then s[x.id].firstToken
                                                                  else s[x.id].end)
    ensures forall id :: id in s && s[id].start.At? && s[id].end.At? ==> exists x :: x in xs && x.id == id
    ensures forall i, j :: 0 <= i < |xs| && 0 <= j < |xs| && xs[i].id == xs[j].id ==> i == j
  {
    forall x | x in xs ensures IsSample(s, s.Keys, x) {}
    forall id | id in s && Completed(s[id]) ensures exists x :: x in xs && x.id == id {
      assert SampleOf(id, s[id]) in xs;
    }
  }

  /** Where the fallbacks are among the samples `lo..hi`. */
  function FallbackAt(xs: seq<Sample>, lo: nat, hi: nat): set<nat>
    requires hi <= |xs|
  {
    set i: nat | lo <= i < hi && xs[i].fallback
  }

  lemma PositionsOneMore(xs: seq<Sample>, lo: nat, i: nat)
    requires lo <= i < |xs|
    ensures |FallbackAt(xs, lo, i + 1)| == |FallbackAt(xs, lo, i)| + if xs[i].fallback then 1 else 0
  {
    var now, was := FallbackAt(xs, lo, i + 1), FallbackAt(xs, lo, i);
    forall j: nat ensures j in now <==> j in was || (j == i && xs[i].fallback) {}
    OneMoreMember(now, was, i, xs[i].fallback);
  }

  lemma OneMoreMember(now: set<nat>, was: set<nat>, i: nat, added: bool)
    requires i !in was && forall j: nat :: j in now <==> j in was || (j == i && added)
    ensures |now| == |was| + if added then 1 else 0
  {
    assert now == was + if added then {i} else {};
  }

  lemma {:induction false} FallbacksCountPositions(xs: seq<Sample>, lo: nat, hi: nat)
    requires lo <= hi <= |xs|
    ensures Fallbacks(xs[lo..hi]) == |FallbackAt(xs, lo, hi)|
    decreases hi
  {
    if lo < hi {
      FallbacksCountPositions(xs, lo, hi - 1);
      SumsOneMore(xs, lo, hi - 1);
      PositionsOneMore(xs, lo, hi - 1);
    } else {
      assert FallbackAt(xs, lo, hi) == {};
    }
  }

  /** From four samples on the rate is the share of fallbacks among the newer half, the larger one if they differ. */
  lemma RateIsTheShare(xs: seq<Sample>)
    requires |xs| >= 4
    ensures Aggregates(xs).1 == |FallbackAt(xs, |xs| / 2, |xs|)| as real / (|xs| - |xs| / 2) as real
  {
    FallbacksCountPositions(xs, |xs| / 2, |xs|);
    assert xs[|xs| / 2..|xs|] == xs[|xs| / 2..];
  }

  /** If all times to first token are the same within each half, the ratio is that of the newer half to that of the
      older, or to one millisecond if that is more. */
  lemma ConstantHalvesGiveTheirRatio(xs: seq<Sample>, older: int, newer: int)
    requires |xs| >= 4
    requires forall i :: 0 <= i < |xs| ==> xs[i].ttftMs == if i < |xs| / 2 then older else newer
    ensures Aggregates(xs).0 == newer as real / (if older < 1 then 1 else older) as real
  {
    var mid := |xs| / 2;
    EqualMeans(xs[..mid], mid, older);
    EqualMeans(xs[mid..], |xs| - mid, newer);
  }
}
