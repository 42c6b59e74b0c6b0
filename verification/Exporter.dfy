/** The batching telemetry exporter (internal/telemetry). Records are opaque numbers. */
module Exporter {
  datatype Kind = Metrics | Events | Traces

  const KINDS := {Metrics, Events, Traces}

  type Record = int

  /** One sequence per kind: the exporter's buffer map, whose keys never change, holds records. */
  datatype PerKind<T> = PerKind(metrics: seq<T>, events: seq<T>, traces: seq<T>) {
    function Get(k: Kind): seq<T> {
      match k
      case Metrics => metrics
      case Events => events
      case Traces => traces
    }

    function Append(k: Kind, more: seq<T>): PerKind<T> {
      match k
      case Metrics => this.(metrics := metrics + more)
      case Events => this.(events := events + more)
      case Traces => this.(traces := traces + more)
    }

    function Plus(o: PerKind<T>): PerKind<T> {
      PerKind(metrics + o.metrics, events + o.events, traces + o.traces)
    }

    function Size(): nat {
      |metrics| + |events| + |traces|
    }

    /** What there is for those kinds. */
    function Among(ks: set<Kind>): PerKind<T> {
      PerKind(if Metrics in ks then metrics else [], if Events in ks then events else [],
              if Traces in ks then traces else [])
    }
  }

  type Records = PerKind<Record>

  /** A batch a flushing goroutine took and has not posted yet. */
  datatype Batch = Batch(owner: nat, kind: Kind, records: seq<Record>)

  /** `enqueued`, `taken`, `sent` and `dropped` are the histories per kind: every record ever enqueued, and the
      concatenations of the batches ever taken, sent and dropped. `waiting` are the goroutines that must flush, `outbox`
      the batches still to post. */
  datatype State = State(
    buffer: Records, enqueued: Records, taken: Records, sent: Records, dropped: Records,
    waiting: set<nat>, outbox: seq<Batch>, sentBatches: nat, sentRecords: nat)

  /** `timer` says that the flush interval has passed; `ok` is the outcome of the post. */
  datatype Event = Enqueue(t: nat, kind: Kind, record: Record, timer: bool) | Take(t: nat) | Post(i: nat, ok: bool)

  const EMPTY: Records := PerKind([], [], [])

  const INIT := State(EMPTY, EMPTY, EMPTY, EMPTY, EMPTY, {}, [], 0, 0)

  /** A goroutine is busy while it must flush or has batches to post. */
  predicate Busy(s: State, t: nat) {
    t in s.waiting || exists i :: 0 <= i < |s.outbox| && s.outbox[i].owner == t
  }

  predicate Enabled(s: State, e: Event) {
    match e
    case Enqueue(t, _, _, _) => !Busy(s, t)
    case Take(t) => t in s.waiting
    case Post(i, _) => i < |s.outbox|
  }

  /** The critical section of `enqueue`. */
  function Appended(s: State, kind: Kind, record: Record): State
  {
    s.(buffer := s.buffer.Append(kind, [record]), enqueued := s.enqueued.Append(kind, [record]))
  }

  function NonEmpty(b: Batch): seq<Batch> {
    if b.records == [] then [] else [b]
  }

  /** The non-empty batches of one flush. */
  function Batches(owner: nat, buffer: Records): seq<Batch>
  {
    NonEmpty(Batch(owner, Metrics, buffer.metrics)) + NonEmpty(Batch(owner, Events, buffer.events))
    + NonEmpty(Batch(owner, Traces, buffer.traces))
  }

  /** The first critical section of `flush`. */
  function Emptied(s: State, t: nat): State
  {
    s.(buffer := EMPTY, taken := s.taken.Plus(s.buffer), waiting := s.waiting - {t},
    outbox := s.outbox + Batches(t, s.buffer))
  }

  /** The bookkeeping after a post. */
  function Settled(s: State, i: nat, ok: bool): State
    requires i < |s.outbox|
  {
    var b := s.outbox[i];
    var rest := s.(outbox := s.outbox[..i] + s.outbox[i + 1..]);
    if ok then
      rest.(sent := s.sent.Append(b.kind, b.records), sentBatches := s.sentBatches + 1,
      sentRecords := s.sentRecords + |b.records|)
    else rest.(dropped := s.dropped.Append(b.kind, b.records))
  }

  function Next(batchSize: nat, s: State, e: Event): State
    requires Enabled(s, e)
  {
    match e
    case Enqueue(t, kind, record, timer) =>
      var s' := Appended(s, kind, record);
      if |s'.buffer.Get(kind)| >= batchSize || timer then s'.(waiting := s'.waiting + {t}) else s'
    case Take(t) => Emptied(s, t)
    case Post(i, ok) => Settled(s, i, ok)
  }

  ghost predicate Run(batchSize: nat, s: State, es: seq<Event>, s': State)
    decreases |es|
  {
    if es == [] then s == s'
    else Enabled(s, es[0]) && Run(batchSize, Next(batchSize, s, es[0]), es[1..], s')
  }

  /** The records of the batches, kind by kind. */
  function Contents(bs: seq<Batch>): Records {
    if bs == [] then EMPTY
    else Contents(bs[..|bs| - 1]).Append(bs[|bs| - 1].kind, bs[|bs| - 1].records)
  }

  lemma PlusAppend<T>(a: PerKind<T>, b: PerKind<T>, k: Kind, r: seq<T>)
    ensures a.Plus(b.Append(k, r)) == a.Plus(b).Append(k, r)
  {
    assert a.Get(k) + (b.Get(k) + r) == a.Get(k) + b.Get(k) + r;
  }

  lemma PlusGet(a: Records, b: Records, k: Kind)
    ensures a.Plus(b).Get(k) == a.Get(k) + b.Get(k)
    ensures multiset(a.Plus(b).Get(k)) == multiset(a.Get(k)) + multiset(b.Get(k))
    ensures a.Plus(b).Size() == a.Size() + b.Size()
  {}

  lemma {:induction false} ContentsAppend(a: seq<Batch>, b: seq<Batch>)
    ensures Contents(a + b) == Contents(a).Plus(Contents(b))
    decreases |b|
  {
    if b == [] {
      assert a + b == a;
    } else {
      var front, last := b[..|b| - 1], b[|b| - 1];
      assert (a + b)[..|a + b| - 1] == a + front;
      ContentsAppend(a, front);
      PlusAppend(Contents(a), Contents(front), last.kind, last.records);
    }
  }

  lemma OneBatch(b: Batch)
    ensures Contents(NonEmpty(b)) == EMPTY.Append(b.kind, b.records) == Contents([b])
  {
    assert [b][..0] == [];
  }

  /** A flush takes the buffer, no more and no less. */
  lemma BatchesHoldTheBuffer(t: nat, buffer: Records)
    ensures Contents(Batches(t, buffer)) == buffer
  {
    var a, b, c := Batch(t, Metrics, buffer.metrics), Batch(t, Events, buffer.events), Batch(t, Traces, buffer.traces);
    ContentsAppend(NonEmpty(a) + NonEmpty(b), NonEmpty(c));
    ContentsAppend(NonEmpty(a), NonEmpty(b));
    OneBatch(a);
    OneBatch(b);
    OneBatch(c);
  }

  /** Every record taken is sent, dropped or still to be posted, and none of them twice. */
  ghost predicate Settles(s: State, k: Kind) {
    multiset(s.taken.Get(k))
    == multiset(s.sent.Get(k)) + multiset(s.dropped.Get(k)) + multiset(Contents(s.outbox).Get(k))
  }

  ghost predicate AllSettle(s: State) {
    forall k: Kind :: Settles(s, k)
  }

  ghost predicate Inv(batchSize: nat, s: State) {
    && s.taken.Plus(s.buffer) == s.enqueued
    && AllSettle(s)
    && s.sentRecords == s.sent.Size()
    && (forall k: Kind :: |s.buffer.Get(k)| <= batchSize - 1 + |s.waiting|)
  }

  lemma InitInv(batchSize: nat)
    requires batchSize > 0
    ensures Inv(batchSize, INIT)
  {}

  lemma AppendFacts(b: Records, k: Kind, r: seq<Record>)
    ensures b.Append(k, r).Size() == b.Size() + |r|
    ensures forall x: Kind :: b.Append(k, r).Get(x) == if x == k then b.Get(k) + r else b.Get(x)
  {}

  /** Taking a batch out of the outbox takes exactly its records out. */
  lemma ContentsWithout(bs: seq<Batch>, i: nat, k: Kind)
    requires i < |bs|
    ensures multiset(Contents(bs).Get(k)) == multiset(Contents(bs[..i] + bs[i + 1..]).Get(k))
                                             + if bs[i].kind == k then multiset(bs[i].records) else multiset{}
  {
    SplitAround(bs, i);
    ContentsMiddle(bs[..i], bs[i], bs[i + 1..], k);
  }

  lemma SplitAround(bs: seq<Batch>, i: nat)
    requires i < |bs|
    ensures bs == bs[..i] + ([bs[i]] + bs[i + 1..])
  {}

  lemma ContentsMiddle(before: seq<Batch>, b: Batch, after: seq<Batch>, k: Kind)
    ensures multiset(Contents(before + ([b] + after)).Get(k))
         == multiset(Contents(before + after).Get(k)) + if b.kind == k then multiset(b.records) else multiset{}
  {
    ContentsAppend(before, [b] + after);
    ContentsAppend([b], after);
    ContentsAppend(before, after);
    MiddleTakenOut(Contents(before), Contents([b]), Contents(after), k);
    OneBatchGet(b, k);
  }

  lemma OneBatchGet(b: Batch, k: Kind)
    ensures Contents([b]).Get(k) == if b.kind == k then b.records else []
  {
    OneBatch(b);
    AppendFacts(EMPTY, b.kind, b.records);
  }

  lemma MiddleTakenOut(a: Records, b: Records, c: Records, k: Kind)
    ensures multiset(a.Plus(b.Plus(c)).Get(k)) == multiset(a.Plus(c).Get(k)) + multiset(b.Get(k))
  {
    PlusGet(a, b.Plus(c), k);
    PlusGet(b, c, k);
    PlusGet(a, c, k);
    Regroup(multiset(a.Get(k)), multiset(b.Get(k)), multiset(c.Get(k)));
  }

  lemma Regroup(a: multiset<Record>, b: multiset<Record>, c: multiset<Record>)
    ensures a + (b + c) == a + c + b
  {}

  lemma SettledInv(batchSize: nat, s: State, i: nat, ok: bool)
    requires Inv(batchSize, s) && i < |s.outbox|
    ensures Inv(batchSize, Settled(s, i, ok))
  {
    var s', b := Settled(s, i, ok), s.outbox[i];
    AppendFacts(s.sent, b.kind, b.records);
    AppendFacts(s.dropped, b.kind, b.records);
    forall k: Kind ensures Settles(s', k) {
      assert Settles(s, k);
      ContentsWithout(s.outbox, i, k);
    }
  }

  lemma EnqueueInv(batchSize: nat, s: State, e: Event)
    requires batchSize > 0 && Inv(batchSize, s) && Enabled(s, e) && e.Enqueue?
    ensures Inv(batchSize, Next(batchSize, s, e))
  {
    PlusAppend(s.taken, s.buffer, e.kind, [e.record]);
    AppendFacts(s.buffer, e.kind, [e.record]);
    assert |s.waiting + {e.t}| == |s.waiting| + 1;
    forall k: Kind ensures Settles(Next(batchSize, s, e), k) { assert Settles(s, k); }
  }

  lemma TakeInv(batchSize: nat, s: State, t: nat)
    requires batchSize > 0 && Inv(batchSize, s)
    ensures Inv(batchSize, Emptied(s, t))
  {
    forall k: Kind ensures Settles(Emptied(s, t), k) {
      assert Settles(s, k);
      TakeSettles(s, t, k);
    }
    PlusEmpty(s.taken.Plus(s.buffer));
  }

  lemma PlusEmpty<T>(a: PerKind<T>)
    ensures a.Plus(PerKind([], [], [])) == a
  {}

  lemma TakeSettles(s: State, t: nat, k: Kind)
    requires Settles(s, k)
    ensures Settles(Emptied(s, t), k)
  {
    BatchesHoldTheBuffer(t, s.buffer);
    ContentsAppend(s.outbox, Batches(t, s.buffer));
    PlusGet(s.taken, s.buffer, k);
    PlusGet(Contents(s.outbox), s.buffer, k);
  }

  lemma StepInv(batchSize: nat, s: State, e: Event)
    requires batchSize > 0 && Inv(batchSize, s) && Enabled(s, e)
    ensures Inv(batchSize, Next(batchSize, s, e))
  {
    match e
    case Enqueue(_, _, _, _) => EnqueueInv(batchSize, s, e);
    case Take(t) => TakeInv(batchSize, s, t);
    case Post(i, ok) => SettledInv(batchSize, s, i, ok);
  }

  lemma {:induction false} RunInv(batchSize: nat, s: State, es: seq<Event>, s': State)
    requires batchSize > 0 && Inv(batchSize, s) && Run(batchSize, s, es, s')
    ensures Inv(batchSize, s')
    decreases |es|
  {
    if es != [] {
      StepInv(batchSize, s, es[0]);
      RunInv(batchSize, Next(batchSize, s, es[0]), es[1..], s');
    }
  }

  /** Nothing is lost, duplicated or reordered under any interleaving of enqueues and flushes: for each kind the
      batches taken so far, followed by the buffer, are exactly the records enqueued so far. */
  lemma BatchesPreserveTheStream(batchSize: nat, es: seq<Event>, s: State, k: Kind)
    requires batchSize > 0 && Run(batchSize, INIT, es, s)
    ensures s.taken.Get(k) + s.buffer.Get(k) == s.enqueued.Get(k)
  {
    InitInv(batchSize);
    RunInv(batchSize, INIT, es, s);
  }

  /** Nothing is lost and nothing duplicated: for each kind the records enqueued are, as a multiset, those sent, those
      dropped, those in batches still to be posted and those buffered; and the counter of sent records is right. Once no
      goroutine holds a batch, what is not buffered was sent or dropped. */
  lemma RecordsAreConserved(batchSize: nat, es: seq<Event>, s: State, k: Kind)
    requires batchSize > 0 && Run(batchSize, INIT, es, s)
    ensures multiset(s.enqueued.Get(k)) == multiset(s.sent.Get(k)) + multiset(s.dropped.Get(k))
                                           + multiset(Contents(s.outbox).Get(k)) + multiset(s.buffer.Get(k))
    ensures s.sentRecords == s.sent.Size()
    ensures s.outbox == [] ==> s.enqueued.Size() == s.sentRecords + s.dropped.Size() + s.buffer.Size()
  {
    InitInv(batchSize);
    RunInv(batchSize, INIT, es, s);
    assert Settles(s, k);
    assert s.enqueued.Get(k) == s.taken.Get(k) + s.buffer.Get(k);
    if s.outbox == [] {
      forall x: Kind ensures |s.taken.Get(x)| == |s.sent.Get(x)| + |s.dropped.Get(x)| { CountOfSettled(s, x); }
      assert s.taken.Size() == |s.taken.Get(Metrics)| + |s.taken.Get(Events)| + |s.taken.Get(Traces)|;
      assert s.sent.Size() == |s.sent.Get(Metrics)| + |s.sent.Get(Events)| + |s.sent.Get(Traces)|;
      assert s.dropped.Size() == |s.dropped.Get(Metrics)| + |s.dropped.Get(Events)| + |s.dropped.Get(Traces)|;
    }
  }

  lemma CountOfSettled(s: State, k: Kind)
    requires Settles(s, k) && s.outbox == []
    ensures |s.taken.Get(k)| == |s.sent.Get(k)| + |s.dropped.Get(k)|
  {
    assert multiset(s.taken.Get(k)) == multiset(s.sent.Get(k) + s.dropped.Get(k));
    assert |multiset(s.taken.Get(k))| == |multiset(s.sent.Get(k) + s.dropped.Get(k))|;
  }

  /** A buffer never outgrows the batch size by more than the goroutines waiting to flush, less one. */
  lemma BuffersStaySmall(batchSize: nat, es: seq<Event>, s: State, k: Kind)
    requires batchSize > 0 && Run(batchSize, INIT, es, s)
    ensures |s.buffer.Get(k)| <= batchSize - 1 + |s.waiting|
  {
    InitInv(batchSize);
    RunInv(batchSize, INIT, es, s);
  }

  // ---- Posting with retries ----

  /** What the HTTP client answers to one attempt: no response, or a status code. */
  datatype HttpOutcome = NoResponse | Status(code: int)

  predicate Accepted(o: HttpOutcome) {
    o.Status? && 200 <= o.code < 300
  }

  /** Attempts stop at the first accepted one and otherwise after `retries + 1`; the post succeeds exactly when some
      attempt within that budget is accepted. */
  method PostWithRetries(retries: nat, http: nat -> HttpOutcome, lastStatus0: int)
    returns (ok: bool, attempts: nat, lastStatus: int)
    ensures 1 <= attempts <= retries + 1
    ensures ok <==> exists a :: 0 <= a <= retries && Accepted(http(a))
    ensures forall a :: 0 <= a < attempts - 1 ==> !Accepted(http(a))
    ensures ok <==> Accepted(http(attempts - 1))
    ensures !ok ==> attempts == retries + 1
    ensures ok ==> 200 <= lastStatus < 300
    ensures lastStatus == LastStatus(http, attempts, lastStatus0)
  {
    attempts, lastStatus := 0, lastStatus0;
    while attempts <= retries
      invariant attempts <= retries + 1
      invariant forall a :: 0 <= a < attempts ==> !Accepted(http(a))
      invariant lastStatus == LastStatus(http, attempts, lastStatus0)
      decreases retries - attempts
    {
      var resp := http(attempts);
      attempts := attempts + 1;
      if resp.NoResponse? { continue; }
      lastStatus := resp.code;
      if 200 <= resp.code < 300 {
        assert Accepted(http(attempts - 1));
        return true, attempts, lastStatus;
      }
    }
    return false, attempts, lastStatus;
  }

  /** The code of the latest attempt among the first `n` that got a response. */
  function LastStatus(http: nat -> HttpOutcome, n: nat, initial: int): int {
    if n == 0 then initial
    else if http(n - 1).Status? then http(n - 1).code
    else LastStatus(http, n - 1, initial)
  }

  // ---- The exporter, one goroutine at a time ----

  lemma AmongAll(batches: Records)
    ensures batches.Among(KINDS) == batches
  {}

  /** Some attempt at posting that kind is accepted. */
  ghost predicate Delivers(retries: nat, http: (Kind, nat) -> HttpOutcome, k: Kind) {
    exists a :: 0 <= a <= retries && Accepted(http(k, a))
  }

  ghost function Delivered(retries: nat, http: (Kind, nat) -> HttpOutcome): set<Kind> {
    set k | k in KINDS && Delivers(retries, http, k)
  }

  /** Records as a batch, unless there are none. */
  function AsBatch(records: seq<Record>): seq<seq<Record>> {
    if records == [] then [] else [records]
  }

  /** One batch for each kind there are records of. */
  function AsBatches(r: Records): PerKind<seq<Record>> {
    PerKind(AsBatch(r.metrics), AsBatch(r.events), AsBatch(r.traces))
  }

  /** What posting changes; `posted` are the batches handed to the HTTP client. */
  datatype Tally = Tally(
    sent: Records, dropped: Records, sentBatches: int, sentRecords: int, posted: PerKind<seq<Record>>)

  /** After posting one batch of each kind there are records of: those of the kinds in `ks` count as sent, the others as
      dropped. */
  function Counted(t: Tally, batches: Records, ks: set<Kind>): Tally {
    Tally(t.sent.Plus(batches.Among(ks)), t.dropped.Plus(batches.Among(KINDS - ks)),
          t.sentBatches + AsBatches(batches.Among(ks)).Size(), t.sentRecords + batches.Among(ks).Size(),
          t.posted.Plus(AsBatches(batches)))
  }

  /** After posting one batch, unless it is empty. */
  function CountedOne(t: Tally, k: Kind, records: seq<Record>, ok: bool): Tally {
    var posted := t.posted.Append(k, AsBatch(records));
    if ok then
      Tally(t.sent.Append(k, records), t.dropped, t.sentBatches + |AsBatch(records)|, t.sentRecords + |records|, posted)
    else t.(dropped := t.dropped.Append(k, records), posted := posted)
  }

  lemma CountedNone(t: Tally, batches: Records, ks: set<Kind>)
    ensures Counted(t, batches.Among({}), ks) == t
  {
    PlusEmpty(t.sent);
    PlusEmpty(t.dropped);
    PlusEmpty(t.posted);
    assert batches.Among({}) == EMPTY && EMPTY.Among(ks) == EMPTY && EMPTY.Among(KINDS - ks) == EMPTY;
  }

  /** Posting one kind after some others is posting them all, whatever the order. */
  lemma CountedOneMore(t: Tally, batches: Records, done: set<Kind>, kind: Kind, ks: set<Kind>)
    requires kind !in done
    ensures Counted(t, batches.Among(done + {kind}), ks)
         == CountedOne(Counted(t, batches.Among(done), ks), kind, batches.Get(kind), kind in ks)
  {
    AmongOneMore(batches, done, kind, ks);
    AmongOneMore(batches, done, kind, KINDS - ks);
    AmongOneMore(batches, done, kind, KINDS);
    var records := if kind in ks then batches.Get(kind) else [];
    var others := if kind in ks then [] else batches.Get(kind);
    PlusAppend(t.sent, batches.Among(done).Among(ks), kind, records);
    PlusAppend(t.dropped, batches.Among(done).Among(KINDS - ks), kind, others);
    PlusAppend(t.posted, AsBatches(batches.Among(done)), kind, AsBatch(batches.Get(kind)));
    if kind in ks { AppendNothing(t.dropped.Plus(batches.Among(done).Among(KINDS - ks)), kind); }
    else { AppendNothing(t.sent.Plus(batches.Among(done).Among(ks)), kind); }
  }

  lemma AmongOneMore(batches: Records, done: set<Kind>, kind: Kind, ks: set<Kind>)
    requires kind !in done
    ensures var was, now := batches.Among(done).Among(ks), batches.Among(done + {kind}).Among(ks);
            var records := if kind in ks then batches.Get(kind) else [];
            && now == was.Append(kind, records) && AsBatches(now) == AsBatches(was).Append(kind, AsBatch(records))
            && now.Size() == was.Size() + |records|
            && AsBatches(now).Size() == AsBatches(was).Size() + |AsBatch(records)|
            && (ks == KINDS ==> was == batches.Among(done) && now == batches.Among(done + {kind}))
  {
    match kind
    case Metrics =>
    case Events =>
    case Traces =>
  }

  /** What is settled does not depend on buffer and enqueued records. */
  lemma SameHistory(s: State, s': State)
    requires AllSettle(s) && s'.taken == s.taken && s'.outbox == s.outbox
    requires s'.sent == s.sent && s'.dropped == s.dropped
    ensures AllSettle(s')
  {
    forall k: Kind ensures Settles(s', k) { assert Settles(s, k); }
  }

  /** Taking a buffer and splitting it into sent and dropped records settles it. */
  lemma SplitSettles(s: State, s': State, buffer: Records, ks: set<Kind>)
    requires AllSettle(s) && s.outbox == s'.outbox && s'.taken == s.taken.Plus(buffer)
    requires s'.sent == s.sent.Plus(buffer.Among(ks)) && s'.dropped == s.dropped.Plus(buffer.Among(KINDS - ks))
    ensures AllSettle(s')
  {
    forall k: Kind ensures Settles(s', k) {
      assert Settles(s, k);
      SplitSettlesOne(s, s', buffer, ks, k);
    }
  }

  lemma SplitSettlesOne(s: State, s': State, buffer: Records, ks: set<Kind>, k: Kind)
    requires Settles(s, k) && s.outbox == s'.outbox && s'.taken == s.taken.Plus(buffer)
    requires s'.sent == s.sent.Plus(buffer.Among(ks)) && s'.dropped == s.dropped.Plus(buffer.Among(KINDS - ks))
    ensures Settles(s', k)
  {
    PlusGet(s.taken, buffer, k);
    PlusGet(s.sent, buffer.Among(ks), k);
    PlusGet(s.dropped, buffer.Among(KINDS - ks), k);
    AmongSplits(buffer, ks, k);
    RegroupSplit(multiset(s.sent.Get(k)), multiset(s.dropped.Get(k)), multiset(Contents(s.outbox).Get(k)),
                 multiset(buffer.Among(ks).Get(k)), multiset(buffer.Among(KINDS - ks).Get(k)));
  }

  lemma AmongSplits(buffer: Records, ks: set<Kind>, k: Kind)
    ensures multiset(buffer.Get(k)) == multiset(buffer.Among(ks).Get(k)) + multiset(buffer.Among(KINDS - ks).Get(k))
  {}

  lemma RegroupSplit(a: multiset<Record>, b: multiset<Record>, c: multiset<Record>,
                     x: multiset<Record>, y: multiset<Record>)
    ensures a + b + c + (x + y) == (a + x) + (b + y) + c
  {}

  class OTLPHTTPExporter {
    var buffer: Records
    var lastFlush: int
    var sentBatches: nat
    var sentRecords: nat
    var lastStatusCode: int
    ghost var enqueued: Records
    ghost var taken: Records
    ghost var sent: Records
    ghost var dropped: Records
    ghost var posted: PerKind<seq<Record>>  // every batch handed to the HTTP client, in order per kind
    const timeout: int
    const retries: nat
    const batchSize: nat
    const flushEvery: int

    ghost function Abstract(): State reads this {
      State(buffer, enqueued, taken, sent, dropped, {}, [], sentBatches, sentRecords)
    }

    /** The protocol's invariant with nobody in the middle of a flush. */
    ghost predicate Valid() reads this {
      batchSize > 0 && Inv(batchSize, Abstract())
    }

    constructor (timeoutCfg: int, retriesCfg: int, batchSizeCfg: int, flushEveryCfg: int, now: int)
      ensures Valid() && Abstract() == INIT && lastFlush == now && posted == PerKind([], [], [])
      ensures timeout == (if timeoutCfg <= 0 then 1000 else timeoutCfg)
      ensures batchSize == (if batchSizeCfg <= 0 then 10 else batchSizeCfg)
      ensures retries == (if retriesCfg < 0 then 0 else retriesCfg)
      ensures flushEvery == (if flushEveryCfg <= 0 then 1000 else flushEveryCfg)
    {
      buffer, enqueued, taken, sent, dropped := EMPTY, EMPTY, EMPTY, EMPTY, EMPTY;
      lastFlush, sentBatches, sentRecords, lastStatusCode := now, 0, 0, 0;
      posted := PerKind([], [], []);
      timeout := if timeoutCfg <= 0 then 1000 else timeoutCfg;
      retries := if retriesCfg < 0 then 0 else retriesCfg;
      batchSize := if batchSizeCfg <= 0 then 10 else batchSizeCfg;
      flushEvery := if flushEveryCfg <= 0 then 1000 else flushEveryCfg;
    }

    ghost function Tallied(): Tally reads this {
      Tally(sent, dropped, sentBatches, sentRecords, posted)
    }

    /** `http` answers the attempts of each kind's post. */
    method EnqueueRecord(kind: Kind, record: Record, now: int, http: (Kind, nat) -> HttpOutcome)
      requires Valid()
      modifies this
      ensures Valid() && enqueued == old(enqueued).Append(kind, [record])
      ensures var all := old(buffer).Append(kind, [record]);
              if |all.Get(kind)| >= batchSize || now - old(lastFlush) >= flushEvery
              then buffer == EMPTY && lastFlush == now && taken == enqueued
                   && Tallied() == Counted(old(Tallied()), all, Delivered(retries, http))
              else buffer == all && lastFlush == old(lastFlush) && taken == old(taken) && Tallied() == old(Tallied())
    {
      PlusAppend(taken, buffer, kind, [record]);
      AppendFacts(buffer, kind, [record]);
      buffer := buffer.Append(kind, [record]);
      enqueued := enqueued.Append(kind, [record]);
      SameHistory(old(Abstract()), Abstract());
      if |buffer.Get(kind)| >= batchSize || now - lastFlush >= flushEvery { Flush(now, http); }
    }

    /** Everything buffered is taken, then each non-empty batch is posted and counted as sent or dropped. */
    method Flush(now: int, http: (Kind, nat) -> HttpOutcome)
      requires batchSize > 0 && taken.Plus(buffer) == enqueued && sentRecords == sent.Size()
      requires AllSettle(Abstract())
      modifies this
      ensures Valid() && buffer == EMPTY && lastFlush == now && enqueued == old(enqueued) && taken == enqueued
      ensures Tallied() == Counted(old(Tallied()), old(buffer), Delivered(retries, http))
    {
      var taking := buffer;
      taken := enqueued;
      buffer := EMPTY;
      lastFlush := now;
      PostAll(taking, http);
      PlusEmpty(enqueued);
      PlusGet(old(sent), taking.Among(Delivered(retries, http)), Metrics);
      SplitSettles(old(Abstract()), Abstract(), taking, Delivered(retries, http));
    }

    /** The kinds, in any order. */
    method PostAll(batches: Records, http: (Kind, nat) -> HttpOutcome)
      modifies `sentBatches, `sentRecords, `lastStatusCode, `sent, `dropped, `posted
      ensures Tallied() == Counted(old(Tallied()), batches, Delivered(retries, http))
    {
      var todo := KINDS;
      ghost var done: set<Kind>, ks, was := {}, Delivered(retries, http), Tallied();
      CountedNone(was, batches, ks);
      while todo != {}
        invariant done <= KINDS && todo == KINDS - done
        invariant Tallied() == Counted(was, batches.Among(done), ks)
        decreases |todo|
      {
        var kind :| kind in todo;
        PostBatch(kind, batches.Get(kind), http);
        CountedOneMore(was, batches, done, kind, ks);
        todo, done := todo - {kind}, done + {kind};
      }
      assert done == KINDS;
      AmongAll(batches);
    }

    method PostBatch(kind: Kind, records: seq<Record>, http: (Kind, nat) -> HttpOutcome)
      modifies `sentBatches, `sentRecords, `lastStatusCode, `sent, `dropped, `posted
      ensures Tallied() == CountedOne(old(Tallied()), kind, records, Delivers(retries, http, kind))
      ensures sentRecords == old(sentRecords) + if Delivers(retries, http, kind) then |records| else 0
      ensures records == [] ==> lastStatusCode == old(lastStatusCode)
      ensures records != [] && Delivers(retries, http, kind) ==> 200 <= lastStatusCode < 300
    {
      if |records| == 0 {
        AppendNothing(sent, kind);
        AppendNothing(dropped, kind);
        AppendNothing(posted, kind);
        return;
      }
      posted := posted.Append(kind, [records]);
      var client := (n: nat) => http(kind, n);
      var ok, attempts, status := PostWithRetries(retries, client, lastStatusCode);
      assert forall a: nat :: client(a) == http(kind, a);
      assert ok <==> Delivers(retries, http, kind);
      lastStatusCode := status;
      if ok {
        sentBatches := sentBatches + 1;
        sentRecords := sentRecords + |records|;
        sent := sent.Append(kind, records);
      } else {
        dropped := dropped.Append(kind, records);
      }
    }
  }

  lemma AppendNothing<T>(a: PerKind<T>, k: Kind)
    ensures a.Append(k, []) == a
  {}
}
