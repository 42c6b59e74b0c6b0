/** Overload admission: a compare-and-swap slot counter shared by any number of goroutines (internal/server). */
module Admission {
  import opened Text
  import opened Types
  import opened Config

  /** What `reliability.overload` asks for. */
  datatype Mode = Unlimited | Reject(limit: int) | Degrade(limit: int)

  function ModeOf(t: CharTable, c: Config): (m: Mode)
    ensures m.Unlimited? <==> c.queueLimit <= 0
    ensures !m.Unlimited? ==> m.limit == c.queueLimit > 0
    ensures !m.Unlimited? && ActionOk(t, c.overloadAction) ==>
              (m.Degrade? <==> ToLower(t, TrimSpace(t, c.overloadAction)) in {"", "degrade"})
  {
    if c.queueLimit <= 0 then Unlimited
    else if ToLower(t, TrimSpace(t, c.overloadAction)) == "reject" then Reject(c.queueLimit)
    else Degrade(c.queueLimit)
  }

  // ---- The protocol, one atomic step at a time ----

  /** Where a goroutine is. `seen` is the number of counter changes when it loaded; `at` the counter at the
      step that decided. */
  datatype Pc = Ready | Loaded(cur: int, seen: nat) | Holding(degraded: bool, at: int) | Rejected(at: int) | Finished

  /** `changes` and `failed` count counter changes and failed swaps so far. */
  datatype State = State(inflight: int, pcs: map<nat, Pc>, changes: nat, failed: nat)

  datatype Event = Load(t: nat) | Cas(t: nat) | Add(t: nat) | Release(t: nat)

  function Init(threads: set<nat>): State {
    State(0, map t | t in threads :: Ready, 0, 0)
  }

  predicate Enabled(m: Mode, s: State, e: Event) {
    e.t in s.pcs &&
    match e
    case Load(t) => !m.Unlimited? && s.pcs[t].Ready?
    case Cas(t) => !m.Unlimited? && s.pcs[t].Loaded?
    case Add(t) => m.Unlimited? && s.pcs[t].Ready?
    case Release(t) => s.pcs[t].Holding?
  }

  function Next(m: Mode, s: State, e: Event): State
    requires Enabled(m, s, e)
  {
    match e
    case Load(t) =>
      s.(pcs := s.pcs[t := if m.Reject? && s.inflight >= m.limit then Rejected(s.inflight)
                           else Loaded(s.inflight, s.changes)])
    case Cas(t) =>
      var cur := s.pcs[t].cur;
      if s.inflight == cur then
        s.(inflight := cur + 1, pcs := s.pcs[t := Holding(m.Degrade? && cur >= m.limit, s.inflight)],
        changes := s.changes + 1)
      else s.(pcs := s.pcs[t := Ready], failed := s.failed + 1)
    case Add(t) =>
      s.(inflight := s.inflight + 1, pcs := s.pcs[t := Holding(false, s.inflight)], changes := s.changes + 1)
    case Release(t) =>
      s.(inflight := s.inflight - 1, pcs := s.pcs[t := Finished], changes := s.changes + 1)
  }

  /** `es` is one interleaving leading from `s` to `s'`. */
  ghost predicate Run(m: Mode, s: State, es: seq<Event>, s': State)
    decreases |es|
  {
    if es == [] then s == s'
    else Enabled(m, s, es[0]) && Run(m, Next(m, s, es[0]), es[1..], s')
  }

  /** The admitted, unreleased requests. */
  function Holders(s: State): set<nat> {
    set t | t in s.pcs && s.pcs[t].Holding?
  }

  /** Goroutines between load and swap during which the counter changed. */
  function Overtaken(s: State): set<nat> {
    set t | t in s.pcs && s.pcs[t].Loaded? && s.pcs[t].seen < s.changes
  }

  ghost predicate PcOk(m: Mode, s: State, pc: Pc) {
    match pc
    case Loaded(cur, seen) =>
      seen <= s.changes && (seen == s.changes ==> cur == s.inflight) && (m.Reject? ==> cur < m.limit)
    case Holding(degraded, at) => (degraded <==> m.Degrade? && at >= m.limit) && (m.Reject? ==> at < m.limit)
    case Rejected(at) => m.Reject? && at == m.limit
    case _ => true
  }

  ghost predicate Inv(m: Mode, s: State) {
    && s.inflight == |Holders(s)|
    && (m.Reject? ==> s.inflight <= m.limit)
    && (forall t :: t in s.pcs ==> PcOk(m, s, s.pcs[t]))
    && (s.pcs != map[] ==> s.failed + |Overtaken(s)| <= s.changes * (|s.pcs| - 1))
    && (s.pcs == map[] ==> s.failed == 0)
  }

  lemma InitInv(m: Mode, threads: set<nat>)
    requires !m.Unlimited? ==> m.limit > 0
    ensures Inv(m, Init(threads))
  {
    assert Holders(Init(threads)) == {} && Overtaken(Init(threads)) == {};
  }

  lemma OnlyOwnPcMoves(m: Mode, s: State, e: Event)
    requires Enabled(m, s, e)
    ensures Next(m, s, e).pcs.Keys == s.pcs.Keys
    ensures forall t :: t in s.pcs && t != e.t ==> Next(m, s, e).pcs[t] == s.pcs[t]
  {}

  /** One step moves at most its own goroutine in or out of the holders. */
  lemma HoldersAfter(m: Mode, s: State, e: Event)
    requires Enabled(m, s, e)
    ensures var s' := Next(m, s, e);
            && s'.pcs.Keys == s.pcs.Keys
            && |Holders(s')| == |Holders(s)| + (if s'.pcs[e.t].Holding? then 1 else 0)
                                - if s.pcs[e.t].Holding? then 1 else 0
  {
    OnlyOwnPcMoves(m, s, e);
    SameElsewhere(Holders(s), Holders(Next(m, s, e)), e.t);
  }

  lemma SameElsewhere(a: set<nat>, b: set<nat>, t: nat)
    requires forall x :: x != t ==> (x in a <==> x in b)
    ensures |b| - (if t in b then 1 else 0) == |a| - if t in a then 1 else 0
  {
    assert a - {t} == b - {t};
    Without(a, t);
    Without(b, t);
  }

  lemma Without(a: set<nat>, t: nat)
    ensures |a| == |a - {t}| + if t in a then 1 else 0
  {
    if t in a { assert a == (a - {t}) + {t}; } else { assert a == a - {t}; }
  }

  lemma SubsetSize(a: set<nat>, b: set<nat>)
    requires a <= b
    ensures |a| <= |b|
  {
    assert b == a + (b - a);
  }

  lemma OvertakenAfter(m: Mode, s: State, e: Event)
    requires Inv(m, s) && Enabled(m, s, e)
    ensures var s' := Next(m, s, e);
            s'.failed + |Overtaken(s')| <= s'.changes * (|s'.pcs| - 1)
  {
    var s' := Next(m, s, e);
    OnlyOwnPcMoves(m, s, e);
    assert PcOk(m, s, s.pcs[e.t]);
    if s'.changes == s.changes {
      SameElsewhere(Overtaken(s), Overtaken(s'), e.t);
      assert s'.failed + |Overtaken(s')| == s.failed + |Overtaken(s)|;
    } else {
      SubsetSize(Overtaken(s'), s.pcs.Keys - {e.t});
      Without(s.pcs.Keys, e.t);
      OneMoreChange(s.changes, |s.pcs| - 1);
    }
  }

  /** Goroutines between load and swap. */
  function Swapping(s: State): set<nat> {
    set t | t in s.pcs && s.pcs[t].Loaded?
  }

  /** The largest number of goroutines between load and swap at any moment of a run. */
  function Peak(m: Mode, s: State, es: seq<Event>): nat
    decreases |es|
  {
    if es == [] || !Enabled(m, s, es[0]) then |Swapping(s)|
    else
      var later := Peak(m, Next(m, s, es[0]), es[1..]);
      if later > |Swapping(s)| then later else |Swapping(s)|
  }

  lemma PeakStart(m: Mode, s: State, es: seq<Event>)
    ensures |Swapping(s)| <= Peak(m, s, es)
  {}

  /** A failed swap uses up one overtaken goroutine; a change overtakes only goroutines between load and swap. */
  lemma FailuresInStep(m: Mode, s: State, e: Event)
    requires Inv(m, s) && Enabled(m, s, e)
    ensures var s' := Next(m, s, e);
            && s.changes <= s'.changes <= s.changes + 1
            && s'.failed + |Overtaken(s')| <=
               s.failed + |Overtaken(s)| + if s'.changes > s.changes then |Swapping(s')| else 0
  {
    var s' := Next(m, s, e);
    OnlyOwnPcMoves(m, s, e);
    assert PcOk(m, s, s.pcs[e.t]);
    if s'.changes == s.changes {
      SameElsewhere(Overtaken(s), Overtaken(s'), e.t);
    } else {
      SubsetSize(Overtaken(s'), Swapping(s'));
    }
  }

  lemma {:induction false} FailuresInRun(m: Mode, s: State, es: seq<Event>, s': State)
    requires (!m.Unlimited? ==> m.limit > 0) && Inv(m, s) && Run(m, s, es, s')
    ensures s.changes <= s'.changes
    ensures s'.failed + |Overtaken(s')| <= s.failed + |Overtaken(s)| + (s'.changes - s.changes) * Peak(m, s, es)
    decreases |es|
  {
    if es != [] {
      var t := Next(m, s, es[0]);
      StepInv(m, s, es[0]);
      FailuresInStep(m, s, es[0]);
      FailuresInRun(m, t, es[1..], s');
      PeakStart(m, t, es[1..]);
      LargerFactor(s'.changes - t.changes, Peak(m, t, es[1..]), Peak(m, s, es), t.changes - s.changes);
    }
  }

  lemma LargerFactor(a: nat, p: nat, q: nat, b: nat)
    requires p <= q && b <= 1
    ensures a * p + (if b == 1 then p else 0) <= (a + b) * q
  {
    assert a * p <= a * q;
  }

  lemma OneMoreChange(changes: nat, others: nat)
    ensures (changes + 1) * others == changes * others + others
  {}

  lemma StepInv(m: Mode, s: State, e: Event)
    requires (!m.Unlimited? ==> m.limit > 0) && Inv(m, s) && Enabled(m, s, e)
    ensures Inv(m, Next(m, s, e))
  {
    HoldersAfter(m, s, e);
    OvertakenAfter(m, s, e);
    var s' := Next(m, s, e);
    forall t | t in s'.pcs ensures PcOk(m, s', s'.pcs[t]) {
      assert PcOk(m, s, s.pcs[t]);
    }
  }

  lemma {:induction false} RunInv(m: Mode, s: State, es: seq<Event>, s': State)
    requires (!m.Unlimited? ==> m.limit > 0) && Inv(m, s) && Run(m, s, es, s')
    ensures Inv(m, s') && s'.pcs.Keys == s.pcs.Keys
    decreases |es|
  {
    if es != [] {
      StepInv(m, s, es[0]);
      HoldersAfter(m, s, es[0]);
      RunInv(m, Next(m, s, es[0]), es[1..], s');
    }
  }

  /** Over every interleaving of any number of goroutines the counter is the number of admitted, unreleased
      requests; in reject mode it never exceeds the limit. */
  lemma CounterIsTheHolders(m: Mode, threads: set<nat>, es: seq<Event>, s: State)
    requires (!m.Unlimited? ==> m.limit > 0) && Run(m, Init(threads), es, s)
    ensures s.inflight == |Holders(s)|
    ensures m.Reject? ==> |Holders(s)| <= m.limit
  {
    InitInv(m, threads);
    RunInv(m, Init(threads), es, s);
  }

  /** A rejection happens only in reject mode and only while exactly `limit` requests hold a slot; a request is
      degraded exactly when the counter its winning swap replaced was at or above the limit. */
  lemma Verdicts(m: Mode, threads: set<nat>, es: seq<Event>, s: State, e: Event)
    requires (!m.Unlimited? ==> m.limit > 0) && Run(m, Init(threads), es, s) && Enabled(m, s, e)
    ensures var pc := Next(m, s, e).pcs[e.t];
            && (pc.Rejected? ==> m.Reject? && |Holders(s)| == m.limit)
            && (pc.Holding? ==> pc.at == |Holders(s)| && (pc.degraded <==> m.Degrade? && |Holders(s)| >= m.limit))
  {
    InitInv(m, threads);
    RunInv(m, Init(threads), es, s);
    assert PcOk(m, s, s.pcs[e.t]);
  }

  /** Swaps fail at most once per counter change and goroutine between load and swap at that time: at most the changes
      times the largest number of such goroutines at any moment of the run, and also at most the changes times the other
      goroutines there ever are. */
  lemma FailedSwapsAreBounded(m: Mode, threads: set<nat>, es: seq<Event>, s: State)
    requires (!m.Unlimited? ==> m.limit > 0) && Run(m, Init(threads), es, s) && threads != {}
    ensures s.failed <= s.changes * Peak(m, Init(threads), es)
    ensures s.failed <= s.changes * (|threads| - 1)
  {
    InitInv(m, threads);
    FailuresInRun(m, Init(threads), es, s);
    RunInv(m, Init(threads), es, s);
    assert Overtaken(Init(threads)) == {};
    assert Init(threads).pcs.Keys == threads;
    var t :| t in threads;
    assert t in s.pcs;
  }

  /** Lock freedom: a swap fails only if some other goroutine changed the counter since the load. */
  lemma UndisturbedSwapSucceeds(m: Mode, threads: set<nat>, es: seq<Event>, s: State, t: nat)
    requires (!m.Unlimited? ==> m.limit > 0) && Run(m, Init(threads), es, s) && Enabled(m, s, Cas(t))
    requires s.pcs[t].seen == s.changes
    ensures Next(m, s, Cas(t)).pcs[t].Holding?
  {
    InitInv(m, threads);
    RunInv(m, Init(threads), es, s);
    assert PcOk(m, s, s.pcs[t]);
  }

  /** Once every run has ended, each either rejected or having released its slot, the counter is back to 0. */
  lemma CounterReturnsToZero(m: Mode, threads: set<nat>, es: seq<Event>, s: State)
    requires (!m.Unlimited? ==> m.limit > 0) && Run(m, Init(threads), es, s)
    requires forall t :: t in s.pcs ==> s.pcs[t].Finished? || s.pcs[t].Rejected?
    ensures s.inflight == 0
  {
    CounterIsTheHolders(m, threads, es, s);
    assert Holders(s) == {};
  }

  // ---- The same protocol as the server runs it ----

  function Sum(xs: seq<int>): int {
    if xs == [] then 0 else Sum(xs[..|xs| - 1]) + xs[|xs| - 1]
  }

  class InferSlots {
    var inferInflight: int
    const mode: Mode

    constructor (mode: Mode)
      ensures inferInflight == 0 && this.mode == mode
    {
      inferInflight := 0;
      this.mode := mode;
    }

    method CompareAndSwap(cur: int, next: int) returns (ok: bool)
      modifies this
      ensures ok == (old(inferInflight) == cur)
      ensures inferInflight == if ok then next else old(inferInflight)
    {
      ok := inferInflight == cur;
      if ok { inferInflight := next; }
    }

    /** `others[k]` is the net change other goroutines make between load and swap of attempt `k`; `used` says
        how many of them happened. */
    method BeginInferLoad(others: seq<int>) returns (degrade: bool, reject: bool, used: nat)
      modifies this
      ensures used <= |others|
      ensures inferInflight == old(inferInflight) + Sum(others[..used]) + if reject then 0 else 1
      ensures reject ==> mode.Reject? && inferInflight >= mode.limit
      ensures !reject && mode.Reject? ==> inferInflight <= mode.limit
      ensures degrade <==> !reject && mode.Degrade? && inferInflight - 1 >= mode.limit
      ensures others == [] ==> (reject <==> mode.Reject? && old(inferInflight) >= mode.limit)
    {
      used := 0;
      if mode.Unlimited? {
        inferInflight := inferInflight + 1;
        return false, false, 0;
      }
      while true
        invariant used <= |others|
        invariant inferInflight == old(inferInflight) + Sum(others[..used])
        decreases |others| - used
      {
        var cur := inferInflight;
        var degraded := mode.Degrade? && cur >= mode.limit;
        if mode.Reject? && cur >= mode.limit { return false, true, used; }
        if used < |others| {
          inferInflight := inferInflight + others[used];
          assert others[..used + 1][..used] == others[..used];
          used := used + 1;
        }
        var ok := CompareAndSwap(cur, cur + 1);
        if ok { return degraded, false, used; }
      }
    }

    method Release()
      modifies this
      ensures inferInflight == old(inferInflight) - 1
    {
      inferInflight := inferInflight - 1;
    }
  }
}
