/** The health cache: a snapshot with a time to live, probed by one flight at a time (internal/server). */
module HealthCache {
  import opened Types
  import opened Config
  import opened Router

  // ---- The protocol ----

  /** What the leader of a flight does: look again, then probe, then hand out the result. */
  datatype Phase = Recheck | MustProbe | Probing(start: int) | Done(sweep: nat)

  /** `Peeked` callers found no fresh snapshot; `Returned` ones hold the result of a sweep. */
  datatype Pc = Outside | Peeked | Waiting | Leading(phase: Phase) | Returned(sweep: nat)

  /** A completed probe sweep; `end` is the recorded completion time. */
  datatype Sweep = Sweep(start: int, end: int)

  /** The cache always holds the last completed sweep. `flight` is the leading goroutine. */
  datatype State = State(now: int, sweeps: seq<Sweep>, flight: Option<nat>, pcs: map<nat, Pc>)

  datatype Event = Tick(d: nat) | Peek(t: nat) | Enter(t: nat) | Look(t: nat) | Start(t: nat) | Store(t: nat)
                 | Finish(t: nat) | Leave(t: nat)

  /** `recheck` is what the server does; turning it off shows what it is for. */
  datatype Params = Params(ttl: int, recheck: bool)

  predicate IsFresh(p: Params, s: State) {
    s.sweeps != [] && s.now - s.sweeps[|s.sweeps| - 1].end < p.ttl
  }

  function Init(threads: set<nat>, now: int): State {
    State(now, [], None, map t | t in threads :: Outside)
  }

  predicate Enabled(s: State, e: Event) {
    match e
    case Tick(_) => true
    case Peek(t) => t in s.pcs && s.pcs[t].Outside?
    case Enter(t) => t in s.pcs && s.pcs[t].Peeked?
    case Look(t) => t in s.pcs && s.pcs[t] == Leading(Recheck)
    case Start(t) => t in s.pcs && s.pcs[t] == Leading(MustProbe)
    case Store(t) => t in s.pcs && s.pcs[t].Leading? && s.pcs[t].phase.Probing?
    case Finish(t) => t in s.pcs && s.pcs[t].Leading? && s.pcs[t].phase.Done?
    case Leave(t) => t in s.pcs && s.pcs[t].Returned?
  }

  function Move(s: State, t: nat, pc: Pc): State {
    s.(pcs := s.pcs[t := pc])
  }

  function Next(p: Params, s: State, e: Event): State
    requires Enabled(s, e)
  {
    match e
    case Tick(d) => s.(now := s.now + d)
    case Peek(t) => Move(s, t, if IsFresh(p, s) then Returned(|s.sweeps| - 1) else Peeked)
    case Enter(t) => if s.flight.None? then Move(s, t, Leading(Recheck)).(flight := Some(t)) else Move(s, t, Waiting)
    case Look(t) => Move(s, t, Leading(if p.recheck && IsFresh(p, s) then Done(|s.sweeps| - 1) else MustProbe))
    case Start(t) => Move(s, t, Leading(Probing(s.now)))
    case Store(t) => Move(s, t, Leading(Done(|s.sweeps|))).(sweeps := s.sweeps + [Sweep(s.pcs[t].phase.start, s.now)])
    case Finish(t) =>
      var i := s.pcs[t].phase.sweep;
      s.(flight := None,
      pcs := map x | x in s.pcs :: if x == t || s.pcs[x].Waiting? then Returned(i) else s.pcs[x])
    case Leave(t) => Move(s, t, Outside)
  }

  ghost predicate Run(p: Params, s: State, es: seq<Event>, s': State)
    decreases |es|
  {
    if es == [] then s == s'
    else Enabled(s, es[0]) && Run(p, Next(p, s, es[0]), es[1..], s')
  }

  /** A sweep may start at time `at`: nothing swept before, or the last completion is at least `ttl` ago. */
  predicate MayStart(p: Params, sweeps: seq<Sweep>, at: int) {
    sweeps != [] ==> at - sweeps[|sweeps| - 1].end >= p.ttl
  }

  /** Consecutive sweeps are at least `ttl` apart, from recorded completion to start. */
  ghost predicate Spaced(p: Params, sweeps: seq<Sweep>) {
    && (forall i :: 0 <= i < |sweeps| ==> sweeps[i].start <= sweeps[i].end)
    && forall i :: 0 <= i < |sweeps| - 1 ==> sweeps[i + 1].start - sweeps[i].end >= p.ttl
  }

  ghost predicate PcOk(p: Params, s: State, t: nat, pc: Pc) {
    && (pc.Leading? <==> s.flight == Some(t))
    && (pc.Waiting? ==> s.flight.Some?)
    && (pc == Leading(MustProbe) ==> MayStart(p, s.sweeps, s.now))
    && (pc.Leading? && pc.phase.Probing? ==> pc.phase.start <= s.now && MayStart(p, s.sweeps, pc.phase.start))
    && (pc.Leading? && pc.phase.Done? ==> pc.phase.sweep < |s.sweeps|)
    && (pc.Returned? ==> pc.sweep < |s.sweeps|)
  }

  ghost predicate Inv(p: Params, s: State) {
    && (forall t :: t in s.pcs ==> PcOk(p, s, t, s.pcs[t]))
    && (s.flight.Some? ==> s.flight.value in s.pcs)
    && Spaced(p, s.sweeps)
    && (s.sweeps != [] ==> s.sweeps[|s.sweeps| - 1].end <= s.now)
  }

  lemma StepInv(p: Params, s: State, e: Event)
    requires p.recheck && Inv(p, s) && Enabled(s, e)
    ensures Inv(p, Next(p, s, e))
  {
    var s' := Next(p, s, e);
    if !e.Tick? { assert PcOk(p, s, e.t, s.pcs[e.t]); }
    forall t | t in s'.pcs ensures PcOk(p, s', t, s'.pcs[t]) {
      StepPcOk(p, s, e, t);
    }
  }

  lemma StepPcOk(p: Params, s: State, e: Event, t: nat)
    requires p.recheck && Inv(p, s) && Enabled(s, e) && t in Next(p, s, e).pcs
    ensures PcOk(p, Next(p, s, e), t, Next(p, s, e).pcs[t])
  {
    assert PcOk(p, s, t, s.pcs[t]);
    if !e.Tick? { assert PcOk(p, s, e.t, s.pcs[e.t]); }
  }

  lemma {:induction false} RunInv(p: Params, s: State, es: seq<Event>, s': State)
    requires p.recheck && Inv(p, s) && Run(p, s, es, s')
    ensures Inv(p, s')
    decreases |es|
  {
    if es != [] {
      StepInv(p, s, es[0]);
      RunInv(p, Next(p, s, es[0]), es[1..], s');
    }
  }

  /** Goroutine `t` is running a probe sweep. */
  predicate IsProbing(s: State, t: nat) {
    t in s.pcs && s.pcs[t].Leading? && s.pcs[t].phase.Probing?
  }

  /** Under any concurrent callers at most one sweep runs at a time, and every sweep, including the one running,
      starts at least `ttl` after the recorded completion of the sweep before it. */
  lemma SweepsAreSpaced(p: Params, threads: set<nat>, now: int, es: seq<Event>, s: State)
    requires p.recheck && Run(p, Init(threads, now), es, s)
    ensures Spaced(p, s.sweeps)
    ensures forall t, t' :: IsProbing(s, t) && IsProbing(s, t') ==> t == t'
    ensures forall t :: IsProbing(s, t) ==> MayStart(p, s.sweeps, s.pcs[t].phase.start)
  {
    RunInv(p, Init(threads, now), es, s);
    forall t | IsProbing(s, t) ensures s.flight == Some(t) && MayStart(p, s.sweeps, s.pcs[t].phase.start) {
      assert PcOk(p, s, t, s.pcs[t]);
    }
  }

  /** Nobody waits without a leader, so every waiter is served when the flight ends, with the leader's result. */
  lemma WaitersShareTheResult(p: Params, threads: set<nat>, now: int, es: seq<Event>, s: State, t: nat, w: nat)
    requires p.recheck && Run(p, Init(threads, now), es, s) && w in s.pcs && s.pcs[w].Waiting?
    ensures s.flight.Some? && s.flight.value in s.pcs && s.pcs[s.flight.value].Leading?
    ensures Enabled(s, Finish(t)) ==>
              && s.flight == Some(t) && Next(p, s, Finish(t)).flight.None?
              && Next(p, s, Finish(t)).pcs[w] == Next(p, s, Finish(t)).pcs[t] == Returned(s.pcs[t].phase.sweep)
              && s.pcs[t].phase.sweep < |s.sweeps|
  {
    RunInv(p, Init(threads, now), es, s);
    assert PcOk(p, s, w, s.pcs[w]);
    assert PcOk(p, s, s.flight.value, s.pcs[s.flight.value]);
    if Enabled(s, Finish(t)) { assert PcOk(p, s, t, s.pcs[t]); }
  }

  /** What a caller is handed without probing, at its first look or at the second inside its flight, is the last sweep,
      and exactly if that was completed less than `ttl` before. */
  lemma HandedOutIsRecent(p: Params, s: State, t: nat)
    ensures var last := |s.sweeps| - 1;
            var recent := s.sweeps != [] && s.now - s.sweeps[last].end < p.ttl;
            && (Enabled(s, Peek(t)) ==> Next(p, s, Peek(t)).pcs[t] == if recent then Returned(last) else Peeked)
            && (p.recheck && Enabled(s, Look(t)) ==>
                  Next(p, s, Look(t)).pcs[t] == Leading(if recent then Done(last) else MustProbe))
  {}

  /** So a snapshot does not outlive `ttl`: whoever asks later, with no flight to join, probes anew; and what it is
      handed is that sweep, recorded with the time its probes ended. */
  lemma StaleCallerSweeps(p: Params, s: State, t: nat, d: nat) returns (s': State)
    requires t in s.pcs && s.pcs[t].Outside? && s.flight.None?
    requires s.sweeps != [] ==> s.now - s.sweeps[|s.sweeps| - 1].end >= p.ttl
    requires forall x :: x in s.pcs ==> !s.pcs[x].Waiting?
    ensures Run(p, s, [Peek(t), Enter(t), Look(t), Start(t), Tick(d), Store(t), Finish(t)], s')
    ensures s'.now == s.now + d && s'.sweeps == s.sweeps + [Sweep(s.now, s.now + d)]
    ensures t in s'.pcs && s'.pcs[t] == Returned(|s.sweeps|)
  {
    var peeked := Next(p, s, Peek(t));
    FlightRun(p, peeked, t, d);
    s' := Flown(peeked, t, d);
    RunFirst(p, s, Peek(t), Flight(t, d), s');
    assert [Peek(t)] + Flight(t, d) == [Peek(t), Enter(t), Look(t), Start(t), Tick(d), Store(t), Finish(t)];
  }

  /** The second look inside the flight is needed: without it a caller that found the cache stale before another
      flight refreshed it sweeps again at once. */
  lemma WithoutRecheckSweepsCrowd()
    ensures exists es, s :: Run(Params(10, false), Init({0, 1}, 0), es, s) && !Spaced(Params(10, false), s.sweeps)
  {
    var p := Params(10, false);
    var s0 := Init({0, 1}, 0);
    var s1 := Next(p, s0, Peek(0));
    var s2 := Next(p, s1, Peek(1));
    var s12 := TwoFlights(p, s2);
    RunFirst(p, s1, Peek(1), Flight(0, 0) + Flight(1, 0), s12);
    RunFirst(p, s0, Peek(0), [Peek(1)] + (Flight(0, 0) + Flight(1, 0)), s12);
    assert s12.sweeps[1].start - s12.sweeps[0].end < p.ttl;
  }

  /** Two callers that both found nothing fresh fly one after the other, without any time passing. */
  lemma TwoFlights(p: Params, s: State) returns (s': State)
    requires !p.recheck && s.flight.None? && 0 in s.pcs && 1 in s.pcs && s.pcs[0] == Peeked && s.pcs[1] == Peeked
    requires forall x :: x in s.pcs ==> !s.pcs[x].Waiting?
    ensures Run(p, s, Flight(0, 0) + Flight(1, 0), s')
    ensures s'.sweeps == s.sweeps + [Sweep(s.now, s.now), Sweep(s.now, s.now)]
  {
    var mid := Flown(s, 0, 0);
    FlightRun(p, s, 0, 0);
    s' := Flown(mid, 1, 0);
    FlightRun(p, mid, 1, 0);
    RunAppend(p, s, Flight(0, 0), mid, Flight(1, 0), s');
  }

  lemma RunFirst(p: Params, s: State, e: Event, es: seq<Event>, s': State)
    requires Enabled(s, e) && Run(p, Next(p, s, e), es, s')
    ensures Run(p, s, [e] + es, s')
  {
    assert ([e] + es)[1..] == es;
  }

  /** A flight by one caller whose probes take `d`. */
  function Flight(t: nat, d: nat): seq<Event> {
    [Enter(t), Look(t), Start(t), Tick(d), Store(t), Finish(t)]
  }

  /** The state after it. */
  function Flown(s: State, t: nat, d: nat): State {
    s.(now := s.now + d, sweeps := s.sweeps + [Sweep(s.now, s.now + d)], pcs := s.pcs[t := Returned(|s.sweeps|)])
  }

  lemma FlightRun(p: Params, s: State, t: nat, d: nat)
    requires !(p.recheck && IsFresh(p, s)) && s.flight.None? && t in s.pcs && s.pcs[t].Peeked?
    requires forall x :: x in s.pcs ==> !s.pcs[x].Waiting?
    ensures Run(p, s, Flight(t, d), Flown(s, t, d))
  {
    var a := Next(p, s, Enter(t));
    var b := Next(p, a, Look(t));
    var c := Next(p, b, Start(t));
    assert c == s.(flight := Some(t), pcs := s.pcs[t := Leading(Probing(s.now))]);
    ProbeRun(p, s, c, t, d);
    RunFirst(p, b, Start(t), [Tick(d), Store(t), Finish(t)], Flown(s, t, d));
    RunFirst(p, a, Look(t), [Start(t)] + [Tick(d), Store(t), Finish(t)], Flown(s, t, d));
    RunFirst(p, s, Enter(t), [Look(t)] + ([Start(t)] + [Tick(d), Store(t), Finish(t)]), Flown(s, t, d));
    assert Flight(t, d) == [Enter(t)] + ([Look(t)] + ([Start(t)] + [Tick(d), Store(t), Finish(t)]));
  }

  /** From the probing on. */
  lemma ProbeRun(p: Params, s: State, c: State, t: nat, d: nat)
    requires t in s.pcs && s.flight.None? && forall x :: x in s.pcs ==> !s.pcs[x].Waiting?
    requires c == s.(flight := Some(t), pcs := s.pcs[t := Leading(Probing(s.now))])
    ensures Run(p, c, [Tick(d), Store(t), Finish(t)], Flown(s, t, d))
  {
    var later := Next(p, c, Tick(d));
    var stored := Next(p, later, Store(t));
    var e := Next(p, stored, Finish(t));
    assert e == Flown(s, t, d);
    assert Run(p, e, [], e);
    RunFirst(p, stored, Finish(t), [], e);
    RunFirst(p, later, Store(t), [Finish(t)], e);
    RunFirst(p, c, Tick(d), [Store(t)] + [Finish(t)], e);
    assert [Tick(d), Store(t), Finish(t)] == [Tick(d)] + ([Store(t)] + [Finish(t)]);
    assert [Finish(t)] + [] == [Finish(t)];
  }

  lemma {:induction false} RunAppend(p: Params, a: State, es: seq<Event>, b: State, fs: seq<Event>, c: State)
    requires Run(p, a, es, b) && Run(p, b, fs, c)
    ensures Run(p, a, es + fs, c)
    decreases |es|
  {
    if es == [] {
      assert es + fs == fs;
    } else {
      assert (es + fs)[1..] == es[1..] + fs;
      RunAppend(p, Next(p, a, es[0]), es[1..], b, fs, c);
    }
  }

  // ---- Probing, and who may touch the cached map ----

  function BackendNames(bs: seq<BackendConfig>): set<string> {
    set b | b in bs :: b.name
  }

  /** The snapshot a sweep produces: every configured backend, healthy when it has an adapter that answers so. */
  function Probed(bs: seq<BackendConfig>, adapters: set<string>, answers: string -> bool): Health {
    map n | n in BackendNames(bs) :: n in adapters && answers(n)
  }

  method ProbeBackendHealth(bs: seq<BackendConfig>, adapters: set<string>, answers: string -> bool)
    returns (out: Health)
    ensures out == Probed(bs, adapters, answers)
  {
    out := map[];
    for i := 0 to |bs|
      invariant out == Probed(bs[..i], adapters, answers)
    {
      var b := bs[i];
      if b.name !in adapters {
        out := out[b.name := false];
      } else {
        out := out[b.name := answers(b.name)];
      }
      assert bs[..i + 1] == bs[..i] + [b];
    }
    assert bs[..|bs|] == bs;
  }

  /** A probed snapshot names exactly the configured backends, and marks one healthy exactly if it has an adapter that
      answered so. */
  lemma ProbedExactly(bs: seq<BackendConfig>, adapters: set<string>, answers: string -> bool, name: string)
    ensures name in Probed(bs, adapters, answers) <==> exists b :: b in bs && b.name == name
    ensures BackendByName(bs, name).Some? ==>
              (BackendHealthOK(Probed(bs, adapters, answers), name) <==> name in adapters && answers(name))
  {}

  /** With a probed snapshot a configured backend that routing may select has an adapter and answered healthy. */
  lemma ProbedSelectableHasAdapter(bs: seq<BackendConfig>, adapters: set<string>, answers: string -> bool, name: string)
    requires BackendByName(bs, name).Some? && BackendHealthOK(Probed(bs, adapters, answers), name)
    ensures name in adapters && answers(name)
  {}

  /** A Go map value: a reference to shared contents. */
  class BoolMap {
    var m: Health

    constructor (m: Health)
      ensures this.m == m
    {
      this.m := m;
    }
  }

  class Cache {
    var healthSnapshot: BoolMap?
    var healthAt: int
    const ttl: int

    constructor (ttlMs: int)
      ensures healthSnapshot == null && ttl == if ttlMs <= 0 then 2000 else ttlMs
    {
      healthSnapshot, healthAt := null, 0;
      ttl := if ttlMs <= 0 then 2000 else ttlMs;
    }

    method PeekFresh(now: int) returns (c: BoolMap?)
      ensures c != null <==> healthSnapshot != null && now - healthAt < ttl
      ensures c != null ==> fresh(c) && c.m == healthSnapshot.m
    {
      if healthSnapshot == null || now - healthAt >= ttl { return null; }
      c := new BoolMap(healthSnapshot.m);
    }

    /** One caller. If it finds nothing fresh it either joins a flight, whose result is then the map `joined`, or leads
        one. The clock is read when peeking, when looking again and when storing. */
    method CachedBackendHealth(peekAt: int, joined: BoolMap?, lookAt: int, storeAt: int,
                               bs: seq<BackendConfig>, adapters: set<string>, answers: string -> bool)
      returns (c: BoolMap)
      modifies this
      ensures fresh(c) && c != healthSnapshot
      ensures var stored, at := old(healthSnapshot), old(healthAt);
              var freshAtPeek, freshAtLook := stored != null && peekAt - at < ttl, stored != null && lookAt - at < ttl;
              && (if freshAtPeek || joined != null || freshAtLook then healthSnapshot == stored && healthAt == at
                  else healthSnapshot != null && healthSnapshot.m == Probed(bs, adapters, answers) &&
                       healthAt == storeAt)
              && (if !freshAtPeek && joined != null then c.m == joined.m
                  else healthSnapshot != null && c.m == healthSnapshot.m)
    {
      var snap := PeekFresh(peekAt);
      if snap != null { return snap; }
      if joined != null {
        c := new BoolMap(joined.m);
        return;
      }
      snap := PeekFresh(lookAt);
      if snap == null {
        var out := ProbeBackendHealth(bs, adapters, answers);
        snap := new BoolMap(out);
        healthSnapshot := snap;
        healthAt := storeAt;
      }
      c := new BoolMap(snap.m);
    }
  }

  /** Whatever a caller writes into the map it got, the cached snapshot and the map other waiters share keep their
      contents. */
  method CallerCannotAlterTheCache(cache: Cache, peekAt: int, joined: BoolMap?, lookAt: int, storeAt: int,
                                   bs: seq<BackendConfig>, adapters: set<string>, answers: string -> bool,
                                   scribble: Health)
    returns (before: Option<Health>, after: Option<Health>)
    modifies cache
    ensures after == before
    ensures before == if cache.healthSnapshot == null then None else Some(cache.healthSnapshot.m)
    ensures joined != null ==> joined.m == old(joined.m)
  {
    var c := cache.CachedBackendHealth(peekAt, joined, lookAt, storeAt, bs, adapters, answers);
    before := Contents(cache);
    c.m := scribble;
    after := Contents(cache);
  }

  method Contents(cache: Cache) returns (h: Option<Health>)
    ensures h == if cache.healthSnapshot == null then None else Some(cache.healthSnapshot.m)
  {
    h := if cache.healthSnapshot == null then None else Some(cache.healthSnapshot.m);
  }
}
