/** Any number of requests in the pipeline at once: their runs, interleaved step by step over one ledger, one slot
    counter, one rate limiter and one scaling signal. */
module Interleaving {
  import opened Types
  import opened Config
  import opened Router
  import opened Reliability
  import opened Ledger
  import opened Pipeline
  import opened Serving
  import Admission
  import Policy
  import TimeoutSpike

  /** A request, with the health snapshot, the backends' answers and the contexts its run will meet. */
  datatype Job = Job(
    req: AIRequest, traceID: string, health: Health, up: Upstream,
    policyCtx: Option<Fault>, routeCtx: Option<Fault>, execCtx: Option<Fault>)

  /** The server, apart from what a job brings along, and the jobs by request id. */
  datatype Setup = Setup(base: Env, jobs: map<string, Job>) {
    ghost predicate Valid() {
      forall id :: id in jobs ==> jobs[id].req.requestID == id
    }

    function Mode(): Admission.Mode {
      base.Mode()
    }

    /** What the run of a job sees, given the limiter as its policy check finds it and the second it was stamped with.
        */
    function EnvOf(id: string, limiter: Policy.Limiter, sec: int): Env
      requires id in jobs
    {
      var j := jobs[id];
      base.(limiter := limiter, now := sec, health := j.health, up := j.up,
      policyCtx := j.policyCtx, routeCtx := j.routeCtx, execCtx := j.execCtx)
    }

    /** Where the run ends that found `found` requests holding a slot. */
    function StopFor(id: string, env: Env, found: int): Stop
      requires id in jobs
    {
      ServerStop(env, found, jobs[id].req)
    }

    function Created(id: string): RequestRow
      requires id in jobs
    {
      NewRow(jobs[id].traceID, id, jobs[id].req)
    }
  }

  /** How far a run is. `sec` is its clock reading for the limiter; `env` what it sees from its policy check on; `found`
      the count its winning swap replaced; `stop` where it will end; `n` its recorded steps; `depth` the count when its
      routing was recorded; `noted` whether the scaling signal was told. */
  datatype Pc =
    | Ready | Opened | Normalized | Stamped(sec: int) | Decided(env: Env) | Checked(env: Env)
    | Going(env: Env, found: int, stop: Stop, n: nat, depth: Option<int>, noted: bool)
    | Closed(env: Env, found: int, stop: Stop, depth: Option<int>)
    | Finished(env: Env, found: int, stop: Stop, depth: Option<int>)

  /** `asked` are the limiter's calls in lock order and `timeouts` the times the signal was told of timeouts. */
  datatype State = State(
    now: int, limiter: Policy.Limiter, inflight: int, window: TimeoutSpike.Window,
    requests: map<string, RequestRow>, steps: map<string, seq<StepRow>>, log: seq<(string, string)>,
    pcs: map<string, Pc>, asked: seq<Policy.Call>, timeouts: seq<int>)

  datatype Event =
    | Tick(d: nat)
    | Open(id: string) | Normalize(id: string) | Stamp(id: string) | Decide(id: string) | Check(id: string)
    | Admit(id: string) | Record(id: string) | Patch(id: string) | Note(id: string) | Close(id: string)
    | Release(id: string)

  function Init(p: Setup, now: int): State {
    State(now, Policy.NEW_LIMITER, 0, TimeoutSpike.NO_WINDOW, map[], map[], [], map id | id in p.jobs :: Ready, [], [])
  }

  /** Everything that has to be recorded before the row is closed is recorded. */
  predicate Recorded(pc: Pc)
    requires pc.Going?
  {
    pc.n == StepCount(pc.stop) && (pc.stop.PastRouting() ==> pc.depth.Some?)
  }

  predicate Enabled(p: Setup, s: State, e: Event) {
    e.Tick? || (e.id in p.jobs && e.id in s.pcs && EnabledAt(e, s.pcs[e.id]))
  }

  predicate EnabledAt(e: Event, pc: Pc)
    requires !e.Tick?
  {
    match e
    case Open(_) => pc.Ready?
    case Normalize(_) => pc.Opened?
    case Stamp(_) => pc.Normalized?
    case Decide(_) => pc.Stamped?
    case Check(_) => pc.Decided?
    case Admit(_) => pc.Checked?
    case Record(_) =>
      && pc.Going? && pc.n < StepCount(pc.stop) <= |ExecutionPlan(pc.stop.req.requestType)|
      && (pc.stop.PastRouting() && pc.n >= 4 ==> pc.depth.Some?)
    case Patch(_) => pc.Going? && pc.n == 4 && pc.depth.None? && pc.stop.PastRouting()
    case Note(_) => pc.Going? && !pc.noted && Recorded(pc)
    case Close(_) => pc.Going? && pc.noted
    case Release(_) => pc.Closed?
  }

  /** The run keeps a slot from admission to release. */
  predicate Holds(stop: Stop) {
    stop.RouteErred? || stop.PastRouting()
  }

  function FirstStep(id: string): StepRow {
    StepRow(id, 0, NORMALIZE, "", "success")
  }

  function PolicyStep(id: string, d: PolicyDecision): StepRow {
    StepRow(id, 1, POLICY_CHECK, "", if d.allowed then "success" else "failed")
  }

  function PassedStep(id: string): StepRow {
    StepRow(id, 1, POLICY_CHECK, "", "success")
  }

  function Move(s: State, id: string, pc: Pc): State {
    s.(pcs := s.pcs[id := pc])
  }

  /** The store refuses steps and patches of unknown requests. */
  function Append(s: State, id: string, step: StepRow): State {
    if id in s.steps then s.(steps := s.steps[id := s.steps[id] + [step]]) else s
  }

  function PatchRow(s: State, id: string, patch: RequestPatch): State {
    if id in s.requests then s.(requests := s.requests[id := Patched(s.requests[id], patch)]) else s
  }

  function Next(p: Setup, s: State, e: Event): State
    requires Enabled(p, s, e)
  {
    match e
    case Tick(d) => s.(now := s.now + d)
    case Open(id) => AfterOpen(p, s, id)
    case Normalize(id) => Move(Append(s, id, FirstStep(id)), id, Normalized)
    case Stamp(id) => Move(s, id, Stamped(s.now / 1_000_000_000))
    case Decide(id) => AfterDecide(p, s, id)
    case Check(id) => AfterCheck(p, s, id)
    case Admit(id) => AfterAdmit(p, s, id)
    case Record(id) => AfterRecord(s, id)
    case Patch(id) => AfterPatch(p, s, id)
    case Note(id) => AfterNote(s, id)
    case Close(id) => AfterClose(s, id)
    case Release(id) => AfterRelease(s, id)
  }

  function AfterOpen(p: Setup, s: State, id: string): State
    requires id in p.jobs && id in s.pcs
  {
    Move(s, id, Opened).(requests := s.requests[id := p.Created(id)], steps := s.steps[id := []],
    log := s.log + [(id, "running")])
  }

  function AfterDecide(p: Setup, s: State, id: string): State
    requires id in p.jobs && id in s.pcs && s.pcs[id].Stamped?
  {
    var env, req := p.EnvOf(id, s.limiter, s.pcs[id].sec), p.jobs[id].req;
    Move(s, id, Decided(env)).(limiter := Policy.Decide(env.table, env.cfg, env.agent, env.limiter, env.now, req).1,
    asked := s.asked + Policy.LimiterCalls(env.table, env.cfg, env.agent, env.now, req))
  }

  function AfterCheck(p: Setup, s: State, id: string): State
    requires id in p.jobs && id in s.pcs && s.pcs[id].Decided?
  {
    var env := s.pcs[id].env;
    var d := Evaluated(env, p.jobs[id].req);
    Move(Append(s, id, PolicyStep(id, d)), id,
         if Proceeds(d) then Checked(env) else Going(env, 0, p.StopFor(id, env, 0), 2, None, false))
  }

  function AfterAdmit(p: Setup, s: State, id: string): State
    requires id in p.jobs && id in s.pcs && s.pcs[id].Checked?
  {
    var env := s.pcs[id].env;
    Move(s, id, Going(env, s.inflight, p.StopFor(id, env, s.inflight), 2, None, false)).(
    inflight := if RejectsAt(p.Mode(), s.inflight) then s.inflight else s.inflight + 1)
  }

  function AfterRecord(s: State, id: string): State
    requires id in s.pcs && s.pcs[id].Going?
    requires s.pcs[id].n < StepCount(s.pcs[id].stop) <= |ExecutionPlan(s.pcs[id].stop.req.requestType)|
  {
    var pc := s.pcs[id];
    Move(Append(s, id, PlannedStep(HooksOf(pc.env), id, pc.stop, pc.n)), id, pc.(n := pc.n + 1))
  }

  function RoutingPatch(stop: Stop, degrade: bool, depth: int): RequestPatch
    requires stop.PastRouting()
  {
    RequestPatch(None, Some(stop.primary.backendName), Some(stop.primary.reason),
                 Some(SnapshotOf(stop.decision, stop.primary, degrade, depth)))
  }

  function AfterPatch(p: Setup, s: State, id: string): State
    requires id in s.pcs && s.pcs[id].Going? && s.pcs[id].stop.PastRouting()
  {
    var pc := s.pcs[id];
    var patch := RoutingPatch(pc.stop, DegradesAt(p.Mode(), pc.found), s.inflight);
    Move(PatchRow(s, id, patch), id, Going(pc.env, pc.found, pc.stop, pc.n, Some(s.inflight), pc.noted))
  }

  predicate IsTimeout(err: Option<Fault>) {
    err.Some? && (err.value.deadline || err.value.upstreamKind == Some("timeout"))
  }

  function AfterNote(s: State, id: string): State
    requires id in s.pcs && s.pcs[id].Going?
  {
    var pc := s.pcs[id];
    Noted(Move(s, id, pc.(noted := true)), NotedError(HooksOf(pc.env), pc.stop))
  }

  /** The scaling signal is told of an error. */
  function Noted(s: State, err: Option<Fault>): State {
    s.(window := SignalAfter(s.window, err, s.now),
    timeouts := if IsTimeout(err) then s.timeouts + [s.now] else s.timeouts)
  }

  function AfterClose(s: State, id: string): State
    requires id in s.pcs && s.pcs[id].Going?
  {
    var pc := s.pcs[id];
    Move(PatchRow(s, id, ClosingPatch(pc.stop)), id, Closed(pc.env, pc.found, pc.stop, pc.depth)).(
    log := s.log + [(id, FinalStatus(pc.stop))])
  }

  function AfterRelease(s: State, id: string): State
    requires id in s.pcs && s.pcs[id].Closed?
  {
    var pc := s.pcs[id];
    Move(s, id, Finished(pc.env, pc.found, pc.stop, pc.depth)).(
    inflight := if Holds(pc.stop) then s.inflight - 1 else s.inflight)
  }

  ghost predicate Run(p: Setup, s: State, es: seq<Event>, s': State)
    decreases |es|
  {
    if es == [] then s == s'
    else Enabled(p, s, es[0]) && Run(p, Next(p, s, es[0]), es[1..], s')
  }

  // ---- What the ledger holds of one request ----

  datatype Local = Local(row: Option<RequestRow>, steps: Option<seq<StepRow>>, log: seq<string>)

  function LogOf(log: seq<(string, string)>, id: string): seq<string> {
    if log == [] then []
    else
      var last := log[|log| - 1];
      LogOf(log[..|log| - 1], id) + if last.0 == id then [last.1] else []
  }

  function LocalOf(s: State, id: string): Local {
    Local(if id in s.requests then Some(s.requests[id]) else None,
          if id in s.steps then Some(s.steps[id]) else None, LogOf(s.log, id))
  }

  /** The row once the routing decision is recorded, if it is. */
  function RowNow(p: Setup, id: string, stop: Stop, found: int, depth: Option<int>): RequestRow
    requires id in p.jobs
  {
    if depth.None? then p.Created(id)
    else RoutedRow(p.Created(id), stop, DegradesAt(p.Mode(), found), depth.value)
  }

  /** The environment is the server's, with this job's part. */
  ghost predicate EnvOk(p: Setup, id: string, env: Env)
    requires id in p.jobs
  {
    env == p.EnvOf(id, env.limiter, env.now)
  }

  /** What a run knows is right: its environment, and from admission on where it will end. */
  ghost predicate Knows(p: Setup, id: string, pc: Pc)
    requires id in p.jobs
  {
    && (pc.Decided? ==> EnvOk(p, id, pc.env))
    && (pc.Checked? ==> EnvOk(p, id, pc.env) && Proceeds(Evaluated(pc.env, p.jobs[id].req)))
    && (pc.Going? || pc.Closed? || pc.Finished? ==>
          EnvOk(p, id, pc.env) && pc.stop == p.StopFor(id, pc.env, pc.found))
  }

  /** The request goes on to admission. */
  predicate Proceeds(d: PolicyDecision) {
    d.allowed && d.normalized.requestType != AGENT
  }

  ghost predicate GoingOk(p: Setup, id: string, pc: Pc, l: Local)
    requires id in p.jobs && pc.Going?
  {
    && Fits(pc.stop) && 2 <= pc.n <= StepCount(pc.stop)
    && (pc.depth.Some? ==> pc.stop.PastRouting() && pc.n >= 4)
    && (pc.stop.PastRouting() && pc.n > 4 ==> pc.depth.Some?) && (pc.noted ==> Recorded(pc))
    && l == Local(Some(RowNow(p, id, pc.stop, pc.found, pc.depth)),
                  Some(FirstSteps(HooksOf(pc.env), id, pc.stop, pc.n)), ["running"])
  }

  ghost predicate EndOk(p: Setup, id: string, env: Env, found: int, stop: Stop, depth: Option<int>, l: Local)
    requires id in p.jobs
  {
    && Fits(stop) && (stop.PastRouting() <==> depth.Some?)
    && l == Local(Some(Patched(RowNow(p, id, stop, found, depth), ClosingPatch(stop))),
                  Some(StepsOf(HooksOf(env), id, stop)), ["running", FinalStatus(stop)])
  }

  /** What the ledger holds of a request fits how far its run is. */
  ghost predicate PcOk(p: Setup, id: string, pc: Pc, l: Local)
    requires id in p.jobs
  {
    match pc
    case Ready => l == Local(None, None, [])
    case Opened => l == Local(Some(p.Created(id)), Some([]), ["running"])
    case Checked(_) => l == Local(Some(p.Created(id)), Some([FirstStep(id), PassedStep(id)]), ["running"])
    case Going(_, _, _, _, _, _) => GoingOk(p, id, pc, l)
    case Closed(env, found, stop, depth) => EndOk(p, id, env, found, stop, depth, l)
    case Finished(env, found, stop, depth) => EndOk(p, id, env, found, stop, depth, l)
    case _ => l == Local(Some(p.Created(id)), Some([FirstStep(id)]), ["running"])
  }

  // ---- The invariant ----

  predicate HoldsSlot(pc: Pc) {
    (pc.Going? || pc.Closed?) && Holds(pc.stop)
  }

  /** The requests between admission and release. */
  function Holders(s: State): set<string> {
    set id | id in s.pcs && HoldsSlot(s.pcs[id])
  }

  ghost predicate SharedOk(p: Setup, s: State) {
    && s.inflight == |Holders(s)|
    && (p.Mode().Reject? ==> s.inflight <= p.Mode().limit)
    && s.limiter == Policy.StateAfter(Policy.LimitsOf(p.base.cfg), s.asked, |s.asked|)
    && SignalOk(s)
  }

  /** The window is what the timeouts told so far make of it. */
  ghost predicate SignalOk(s: State) {
    && s.window == TimeoutSpike.After(s.timeouts, |s.timeouts|)
    && TimeoutSpike.Monotone(s.timeouts) && (s.timeouts != [] ==> s.timeouts[|s.timeouts| - 1] <= s.now)
  }

  ghost predicate PlacesOk(p: Setup, s: State) {
    s.pcs.Keys == p.jobs.Keys && forall id :: id in s.pcs ==> PcOk(p, id, s.pcs[id], LocalOf(s, id))
  }

  ghost predicate AllKnow(p: Setup, s: State)
    requires s.pcs.Keys == p.jobs.Keys
  {
    forall id :: id in s.pcs ==> Knows(p, id, s.pcs[id])
  }

  ghost predicate Inv(p: Setup, s: State) {
    p.Valid() && PlacesOk(p, s) && AllKnow(p, s) && SharedOk(p, s)
  }

  lemma LogOfAppend(log: seq<(string, string)>, x: (string, string), id: string)
    ensures LogOf(log + [x], id) == LogOf(log, id) + if x.0 == id then [x.1] else []
  {
    assert (log + [x])[..|log|] == log;
  }

  lemma OnlyOwnPlace(p: Setup, s: State, e: Event)
    requires Enabled(p, s, e) && !e.Tick?
    ensures Next(p, s, e).pcs.Keys == s.pcs.Keys
    ensures forall x :: x in s.pcs && x != e.id ==> Next(p, s, e).pcs[x] == s.pcs[x]
  {}

  /** A step touches the ledger entries and the place of its own request only. */
  lemma OthersKeep(p: Setup, s: State, e: Event, id: string)
    requires Enabled(p, s, e) && id in s.pcs && (e.Tick? || id != e.id)
    ensures Next(p, s, e).pcs.Keys == s.pcs.Keys && Next(p, s, e).pcs[id] == s.pcs[id]
    ensures LocalOf(Next(p, s, e), id) == LocalOf(s, id)
  {
    if !e.Tick? { OnlyOwnPlace(p, s, e); }
    OthersKeepTheirLedger(p, s, e, id);
    OthersKeepTheirLog(p, s, e, id);
  }

  lemma OthersKeepTheirLog(p: Setup, s: State, e: Event, id: string)
    requires Enabled(p, s, e) && (e.Tick? || id != e.id)
    ensures LogOf(Next(p, s, e).log, id) == LogOf(s.log, id)
  {
    if e.Open? { LogOfAppend(s.log, (e.id, "running"), id); }
    if e.Close? { LogOfAppend(s.log, (e.id, FinalStatus(s.pcs[e.id].stop)), id); }
  }

  lemma OthersKeepTheirLedger(p: Setup, s: State, e: Event, id: string)
    requires Enabled(p, s, e) && (e.Tick? || id != e.id)
    ensures var s' := Next(p, s, e);
            && (id in s'.requests <==> id in s.requests) && (id in s'.steps <==> id in s.steps)
            && (id in s.requests ==> s'.requests[id] == s.requests[id])
            && (id in s.steps ==> s'.steps[id] == s.steps[id])
  {
    OthersKeepTheirRow(p, s, e, id);
    OthersKeepTheirSteps(p, s, e, id);
  }

  lemma OthersKeepTheirRow(p: Setup, s: State, e: Event, id: string)
    requires Enabled(p, s, e) && (e.Tick? || id != e.id)
    ensures var s' := Next(p, s, e);
            (id in s'.requests <==> id in s.requests) && (id in s.requests ==> s'.requests[id] == s.requests[id])
  {}

  lemma OthersKeepTheirSteps(p: Setup, s: State, e: Event, id: string)
    requires Enabled(p, s, e) && (e.Tick? || id != e.id)
    ensures var s' := Next(p, s, e);
            (id in s'.steps <==> id in s.steps) && (id in s.steps ==> s'.steps[id] == s.steps[id])
  {}

  lemma StopFits(p: Setup, id: string, env: Env, found: int)
    requires id in p.jobs
    ensures Fits(p.StopFor(id, env, found))
  {
    StopOfFits(HooksOf(env), env.Mode(), found, p.jobs[id].req);
  }

  /** Every run records normalisation and, once policy has answered, the policy check. */
  lemma FirstTwoSteps(h: Hooks, id: string, stop: Stop)
    requires Fits(stop) && !stop.PolicyErred?
    ensures FirstSteps(h, id, stop, 2)
         == [FirstStep(id), StepRow(id, 1, POLICY_CHECK, "", if stop.PolicyRejected? then "failed" else "success")]
  {
    assert FirstSteps(h, id, stop, 0) == [];
    assert FirstSteps(h, id, stop, 1) == [FirstStep(id)];
  }

  /** What the stop of a run is once its policy check is known. */
  lemma StopAfterCheck(p: Setup, id: string, env: Env, found: int)
    requires id in p.jobs && EnvOk(p, id, env)
    ensures var stop, d := p.StopFor(id, env, found), Evaluated(env, p.jobs[id].req);
            && (if !d.allowed then stop.PolicyRejected?
                else if d.normalized.requestType == AGENT then stop.AgentStubbed?
                else if RejectsAt(p.Mode(), found) then stop.Overloaded?
                else stop.RouteErred? || stop.PastRouting())
  {}

  lemma CheckKeeps(p: Setup, s: State, id: string)
    requires id in p.jobs && id in s.pcs && s.pcs[id].Decided? && PcOk(p, id, s.pcs[id], LocalOf(s, id))
    requires EnvOk(p, id, s.pcs[id].env)
    ensures PcOk(p, id, AfterCheck(p, s, id).pcs[id], LocalOf(AfterCheck(p, s, id), id))
  {
    var env := s.pcs[id].env;
    var step := PolicyStep(id, Evaluated(env, p.jobs[id].req));
    assert [FirstStep(id)] + [step] == [FirstStep(id), step];
    StopFits(p, id, env, 0);
    StopAfterCheck(p, id, env, 0);
    FirstTwoSteps(HooksOf(env), id, p.StopFor(id, env, 0));
  }

  lemma AdmitKeeps(p: Setup, s: State, id: string)
    requires id in p.jobs && id in s.pcs && s.pcs[id].Checked? && PcOk(p, id, s.pcs[id], LocalOf(s, id))
    requires Knows(p, id, s.pcs[id])
    ensures PcOk(p, id, AfterAdmit(p, s, id).pcs[id], LocalOf(AfterAdmit(p, s, id), id))
  {
    var env := s.pcs[id].env;
    AfterPassing(p, id, env, s.inflight);
    GoingStarts(p, id, env, s.inflight, p.StopFor(id, env, s.inflight));
  }

  lemma AfterPassing(p: Setup, id: string, env: Env, found: int)
    requires id in p.jobs && EnvOk(p, id, env) && Proceeds(Evaluated(env, p.jobs[id].req))
    ensures var stop := p.StopFor(id, env, found);
            Fits(stop) && !stop.PolicyErred? && !stop.PolicyRejected?
  {
    StopFits(p, id, env, found);
    StopAfterCheck(p, id, env, found);
  }

  lemma GoingStarts(p: Setup, id: string, env: Env, found: int, stop: Stop)
    requires id in p.jobs && Fits(stop) && !stop.PolicyErred? && !stop.PolicyRejected?
    ensures GoingOk(p, id, Going(env, found, stop, 2, None, false),
                    Local(Some(p.Created(id)), Some([FirstStep(id), PassedStep(id)]), ["running"]))
  {
    FirstTwoSteps(HooksOf(env), id, stop);
  }

  lemma RecordKeeps(p: Setup, s: State, id: string)
    requires id in p.jobs && Enabled(p, s, Record(id)) && PcOk(p, id, s.pcs[id], LocalOf(s, id))
    ensures PcOk(p, id, AfterRecord(s, id).pcs[id], LocalOf(AfterRecord(s, id), id))
  {
    RecordedLocal(s, id);
    OneStepFurther(p, id, s.pcs[id], LocalOf(s, id));
  }

  lemma RecordedLocal(s: State, id: string)
    requires id in s.pcs && s.pcs[id].Going? && id in s.steps
    requires s.pcs[id].n < StepCount(s.pcs[id].stop) <= |ExecutionPlan(s.pcs[id].stop.req.requestType)|
    ensures var pc := s.pcs[id];
            var step := PlannedStep(HooksOf(pc.env), id, pc.stop, pc.n);
            LocalOf(AfterRecord(s, id), id) == LocalOf(s, id).(steps := Some(s.steps[id] + [step]))
  {}

  lemma OneStepFurther(p: Setup, id: string, pc: Pc, l: Local)
    requires id in p.jobs && pc.Going? && GoingOk(p, id, pc, l) && l.steps.Some?
    requires (pc.stop.PastRouting() && pc.n >= 4 ==> pc.depth.Some?) && !pc.noted
    requires pc.n < StepCount(pc.stop) <= |ExecutionPlan(pc.stop.req.requestType)|
    ensures var step := PlannedStep(HooksOf(pc.env), id, pc.stop, pc.n);
            GoingOk(p, id, pc.(n := pc.n + 1), l.(steps := Some(l.steps.value + [step])))
  {}

  lemma PatchKeeps(p: Setup, s: State, id: string)
    requires Enabled(p, s, Patch(id)) && PcOk(p, id, s.pcs[id], LocalOf(s, id))
    ensures PcOk(p, id, AfterPatch(p, s, id).pcs[id], LocalOf(AfterPatch(p, s, id), id))
  {}

  lemma CloseKeeps(p: Setup, s: State, id: string)
    requires Enabled(p, s, Close(id)) && PcOk(p, id, s.pcs[id], LocalOf(s, id))
    ensures PcOk(p, id, AfterClose(s, id).pcs[id], LocalOf(AfterClose(s, id), id))
  {
    var pc := s.pcs[id];
    var patched := PatchRow(s, id, ClosingPatch(pc.stop));
    LogOfAppend(s.log, (id, FinalStatus(pc.stop)), id);
    assert ["running"] + [FinalStatus(pc.stop)] == ["running", FinalStatus(pc.stop)];
    PatchedLocal(s, id, ClosingPatch(pc.stop));
    assert LocalOf(AfterClose(s, id), id) == LocalOf(patched, id).(log := ["running", FinalStatus(pc.stop)]);
  }

  lemma PatchedLocal(s: State, id: string, patch: RequestPatch)
    requires id in s.requests
    ensures LocalOf(PatchRow(s, id, patch), id) == LocalOf(s, id).(row := Some(Patched(s.requests[id], patch)))
  {}

  lemma OpenKeeps(p: Setup, s: State, id: string)
    requires id in p.jobs && id in s.pcs && s.pcs[id].Ready? && PcOk(p, id, s.pcs[id], LocalOf(s, id))
    ensures PcOk(p, id, Opened, LocalOf(AfterOpen(p, s, id), id))
  {
    LogOfAppend(s.log, (id, "running"), id);
  }

  lemma NormalizeKeeps(p: Setup, s: State, id: string)
    requires id in p.jobs && id in s.pcs && s.pcs[id].Opened? && PcOk(p, id, s.pcs[id], LocalOf(s, id))
    ensures PcOk(p, id, Normalized, LocalOf(Append(s, id, FirstStep(id)), id))
  {
    assert [] + [FirstStep(id)] == [FirstStep(id)];
  }

  lemma OwnStep(p: Setup, s: State, e: Event)
    requires Enabled(p, s, e) && !e.Tick? && PcOk(p, e.id, s.pcs[e.id], LocalOf(s, e.id))
    requires Knows(p, e.id, s.pcs[e.id])
    ensures PcOk(p, e.id, Next(p, s, e).pcs[e.id], LocalOf(Next(p, s, e), e.id))
  {
    if s.pcs[e.id].Going? || s.pcs[e.id].Closed? { LateStep(p, s, e); } else { EarlyStep(p, s, e); }
  }

  /** Up to admission. */
  lemma EarlyStep(p: Setup, s: State, e: Event)
    requires Enabled(p, s, e) && !e.Tick? && PcOk(p, e.id, s.pcs[e.id], LocalOf(s, e.id))
    requires Knows(p, e.id, s.pcs[e.id]) && !s.pcs[e.id].Going? && !s.pcs[e.id].Closed?
    ensures PcOk(p, e.id, Next(p, s, e).pcs[e.id], LocalOf(Next(p, s, e), e.id))
  {
    if e.Open? { OpenKeeps(p, s, e.id); }
    if e.Normalize? { NormalizeKeeps(p, s, e.id); }
    if e.Check? { CheckKeeps(p, s, e.id); }
    if e.Admit? { AdmitKeeps(p, s, e.id); }
  }

  lemma LateStep(p: Setup, s: State, e: Event)
    requires Enabled(p, s, e) && !e.Tick? && PcOk(p, e.id, s.pcs[e.id], LocalOf(s, e.id))
    requires s.pcs[e.id].Going? || s.pcs[e.id].Closed?
    ensures PcOk(p, e.id, Next(p, s, e).pcs[e.id], LocalOf(Next(p, s, e), e.id))
  {
    if e.Record? { RecordKeeps(p, s, e.id); }
    if e.Patch? { PatchKeeps(p, s, e.id); }
    if e.Note? { NoteKeeps(p, s, e.id); }
    if e.Close? { CloseKeeps(p, s, e.id); }
    if e.Release? { ReleaseKeeps(p, s, e.id); }
  }

  lemma NoteKeeps(p: Setup, s: State, id: string)
    requires Enabled(p, s, Note(id)) && PcOk(p, id, s.pcs[id], LocalOf(s, id))
    ensures PcOk(p, id, AfterNote(s, id).pcs[id], LocalOf(AfterNote(s, id), id))
  {}

  lemma ReleaseKeeps(p: Setup, s: State, id: string)
    requires Enabled(p, s, Release(id)) && PcOk(p, id, s.pcs[id], LocalOf(s, id))
    ensures PcOk(p, id, AfterRelease(s, id).pcs[id], LocalOf(AfterRelease(s, id), id))
  {}

  /** What a run has learnt it does not forget. */
  lemma KnowsStep(p: Setup, s: State, e: Event)
    requires Enabled(p, s, e) && !e.Tick? && Knows(p, e.id, s.pcs[e.id])
    ensures Knows(p, e.id, Next(p, s, e).pcs[e.id])
  {
    if e.Check? {
      CheckTells(p, s, e.id);
    } else if e.Admit? {
      AdmitTells(p, s, e.id);
    } else if e.Decide? {
      DecideTells(p, s, e.id);
    } else {
      OthersTellNothing(p, s, e);
    }
  }

  lemma CheckTells(p: Setup, s: State, id: string)
    requires id in p.jobs && id in s.pcs && s.pcs[id].Decided? && Knows(p, id, s.pcs[id])
    ensures Knows(p, id, AfterCheck(p, s, id).pcs[id])
  {}

  lemma AdmitTells(p: Setup, s: State, id: string)
    requires id in p.jobs && id in s.pcs && s.pcs[id].Checked? && Knows(p, id, s.pcs[id])
    ensures Knows(p, id, AfterAdmit(p, s, id).pcs[id])
  {}

  lemma DecideTells(p: Setup, s: State, id: string)
    requires id in p.jobs && id in s.pcs && s.pcs[id].Stamped?
    ensures Knows(p, id, AfterDecide(p, s, id).pcs[id])
  {}

  /** The other steps keep environment, count and stop of a run. */
  lemma OthersTellNothing(p: Setup, s: State, e: Event)
    requires Enabled(p, s, e) && !e.Tick? && !e.Check? && !e.Admit? && !e.Decide?
    ensures var pc, pc' := s.pcs[e.id], Next(p, s, e).pcs[e.id];
            && !pc'.Decided? && !pc'.Checked?
            && (pc'.Going? || pc'.Closed? || pc'.Finished? ==>
                  && (pc.Going? || pc.Closed? || pc.Finished?)
                  && pc'.env == pc.env && pc'.found == pc.found && pc'.stop == pc.stop)
  {}

  // ---- The shared parts ----

  lemma HoldersMove(s: State, s': State, id: string)
    requires id in s.pcs && s'.pcs.Keys == s.pcs.Keys
    requires forall x :: x in s.pcs && x != id ==> s'.pcs[x] == s.pcs[x]
    ensures |Holders(s')| == |Holders(s)| + (if HoldsSlot(s'.pcs[id]) then 1 else 0)
                             - if HoldsSlot(s.pcs[id]) then 1 else 0
  {
    forall x | x != id ensures x in Holders(s) <==> x in Holders(s') {}
    SameElsewhere(Holders(s), Holders(s'), id);
  }

  lemma SameElsewhere(a: set<string>, b: set<string>, x: string)
    requires forall y :: y != x ==> (y in a <==> y in b)
    ensures |b| == |a| + (if x in b then 1 else 0) - if x in a then 1 else 0
  {
    assert a - {x} == b - {x};
    Without(a, x);
    Without(b, x);
  }

  lemma Without(a: set<string>, x: string)
    ensures |a| == |a - {x}| + if x in a then 1 else 0
  {
    if x in a { assert a == (a - {x}) + {x}; } else { assert a == a - {x}; }
  }

  lemma {:induction false} StateAfterPrefix(limits: Policy.Limits, calls: seq<Policy.Call>, c: Policy.Call, n: nat)
    requires n <= |calls|
    ensures Policy.StateAfter(limits, calls + [c], n) == Policy.StateAfter(limits, calls, n)
  {
    if n > 0 { StateAfterPrefix(limits, calls, c, n - 1); }
  }

  lemma OneMoreCall(limits: Policy.Limits, calls: seq<Policy.Call>, c: Policy.Call)
    ensures var step := Policy.LimitStep(Policy.StateAfter(limits, calls, |calls|), c.tenant, limits(c.tenant), c.sec);
            && Policy.StateAfter(limits, calls + [c], |calls| + 1) == step.0
            && Policy.Admitted(limits, calls + [c], |calls|) == step.1
  {
    StateAfterPrefix(limits, calls, c, |calls|);
  }

  /** A policy check is one call of the limiter, if it gets that far, and leaves it alone otherwise. */
  lemma DecideCallsTheLimiter(p: Setup, s: State, id: string)
    requires id in p.jobs && id in s.pcs && s.pcs[id].Stamped?
    requires s.limiter == Policy.StateAfter(Policy.LimitsOf(p.base.cfg), s.asked, |s.asked|)
    ensures var s' := AfterDecide(p, s, id);
            var limits := Policy.LimitsOf(p.base.cfg);
            && s'.limiter == Policy.StateAfter(limits, s'.asked, |s'.asked|)
            && (Evaluated(s'.pcs[id].env, p.jobs[id].req).allowed <==>
                |s'.asked| > |s.asked| && Policy.Admitted(limits, s'.asked, |s.asked|))
  {
    var env, req := p.EnvOf(id, s.limiter, s.pcs[id].sec), p.jobs[id].req;
    var calls := Policy.LimiterCalls(env.table, env.cfg, env.agent, env.now, req);
    Policy.DecideIsOneCall(env.table, env.cfg, env.agent, env.limiter, env.now, req);
    AtMostOneCall(Policy.LimitsOf(p.base.cfg), s.asked, calls,
                  Policy.Decide(env.table, env.cfg, env.agent, env.limiter, env.now, req).1,
                  Evaluated(env, req).allowed);
  }

  lemma AtMostOneCall(limits: Policy.Limits, asked: seq<Policy.Call>, calls: seq<Policy.Call>, l: Policy.Limiter,
                      allowed: bool)
    requires |calls| <= 1
    requires var was := Policy.StateAfter(limits, asked, |asked|);
             if calls == [] then !allowed && l == was
             else (l, allowed) == Policy.LimitStep(was, calls[0].tenant, limits(calls[0].tenant), calls[0].sec)
    ensures l == Policy.StateAfter(limits, asked + calls, |asked + calls|)
    ensures allowed <==> |asked + calls| > |asked| && Policy.Admitted(limits, asked + calls, |asked|)
  {
    if calls == [] {
      assert asked + calls == asked;
    } else {
      assert calls == [calls[0]];
      OneMoreCall(limits, asked, calls[0]);
    }
  }

  lemma {:induction false} AfterPrefix(ts: seq<int>, t: int, n: nat)
    requires n <= |ts|
    ensures TimeoutSpike.After(ts + [t], n) == TimeoutSpike.After(ts, n)
  {
    if n > 0 { AfterPrefix(ts, t, n - 1); }
  }

  lemma NotedKeepsTheSignal(s: State, err: Option<Fault>)
    requires SignalOk(s)
    ensures SignalOk(Noted(s, err))
  {
    AfterPrefix(s.timeouts, s.now, |s.timeouts|);
  }

  /** How a step moves the counter and the places of the runs. */
  lemma CounterStep(p: Setup, s: State, e: Event)
    requires Enabled(p, s, e) && (e.Tick? || Knows(p, e.id, s.pcs[e.id]))
    requires s.inflight == |Holders(s)| && (p.Mode().Reject? ==> s.inflight <= p.Mode().limit)
    ensures var s' := Next(p, s, e);
            s'.inflight == |Holders(s')| && (p.Mode().Reject? ==> s'.inflight <= p.Mode().limit)
  {
    var s' := Next(p, s, e);
    if e.Tick? {
      assert Holders(s') == Holders(s);
    } else {
      var id := e.id;
      OnlyOwnPlace(p, s, e);
      HoldersMove(s, s', id);
      SlotStep(p, s, e);
    }
  }

  /** The counter moves with the slot of the run that steps, and in reject mode up only below the limit. */
  lemma SlotStep(p: Setup, s: State, e: Event)
    requires Enabled(p, s, e) && !e.Tick? && Knows(p, e.id, s.pcs[e.id])
    ensures var s' := Next(p, s, e);
            && s'.inflight == s.inflight + (if HoldsSlot(s'.pcs[e.id]) then 1 else 0)
                              - (if HoldsSlot(s.pcs[e.id]) then 1 else 0)
            && (s'.inflight > s.inflight ==> !RejectsAt(p.Mode(), s.inflight))
  {
    if e.Check? {
      CheckTakesNoSlot(p, s, e.id);
    } else if e.Admit? {
      AdmitTakesASlot(p, s, e.id);
    } else {
      OtherStepsTakeNoSlot(p, s, e);
    }
  }

  lemma OtherStepsTakeNoSlot(p: Setup, s: State, e: Event)
    requires Enabled(p, s, e) && !e.Tick? && !e.Check? && !e.Admit?
    ensures var s' := Next(p, s, e);
            s'.inflight == s.inflight + (if HoldsSlot(s'.pcs[e.id]) then 1 else 0)
                           - (if HoldsSlot(s.pcs[e.id]) then 1 else 0) <= s.inflight
  {}

  lemma CheckTakesNoSlot(p: Setup, s: State, id: string)
    requires id in p.jobs && id in s.pcs && s.pcs[id].Decided? && EnvOk(p, id, s.pcs[id].env)
    ensures var s' := AfterCheck(p, s, id); s'.inflight == s.inflight && !HoldsSlot(s'.pcs[id])
  {
    StopAfterCheck(p, id, s.pcs[id].env, 0);
  }

  lemma AdmitTakesASlot(p: Setup, s: State, id: string)
    requires id in p.jobs && id in s.pcs && s.pcs[id].Checked? && Knows(p, id, s.pcs[id])
    ensures var s' := AfterAdmit(p, s, id);
            && s'.inflight == s.inflight + (if HoldsSlot(s'.pcs[id]) then 1 else 0)
            && (s'.inflight > s.inflight ==> !RejectsAt(p.Mode(), s.inflight))
  {
    HoldsUnlessRejected(p, id, s.pcs[id].env, s.inflight);
  }

  lemma HoldsUnlessRejected(p: Setup, id: string, env: Env, found: int)
    requires id in p.jobs && EnvOk(p, id, env) && Proceeds(Evaluated(env, p.jobs[id].req))
    ensures Holds(p.StopFor(id, env, found)) <==> !RejectsAt(p.Mode(), found)
  {
    StopAfterCheck(p, id, env, found);
  }

  lemma SharedStep(p: Setup, s: State, e: Event)
    requires SharedOk(p, s) && Enabled(p, s, e) && (e.Tick? || Knows(p, e.id, s.pcs[e.id]))
    ensures SharedOk(p, Next(p, s, e))
  {
    CounterStep(p, s, e);
    if e.Decide? { DecideCallsTheLimiter(p, s, e.id); }
    if e.Note? {
      var pc := s.pcs[e.id];
      NotedKeepsTheSignal(Move(s, e.id, pc.(noted := true)), NotedError(HooksOf(pc.env), pc.stop));
    }
  }

  lemma PlaceStep(p: Setup, s: State, e: Event, id: string)
    requires Enabled(p, s, e) && id in p.jobs && id in s.pcs && PcOk(p, id, s.pcs[id], LocalOf(s, id))
    requires Knows(p, id, s.pcs[id])
    ensures Next(p, s, e).pcs.Keys == s.pcs.Keys
    ensures PcOk(p, id, Next(p, s, e).pcs[id], LocalOf(Next(p, s, e), id))
  {
    OthersKeepAll(p, s, e);
    if e.Tick? || id != e.id { OthersKeep(p, s, e, id); } else { OwnStep(p, s, e); }
  }

  lemma OthersKeepAll(p: Setup, s: State, e: Event)
    requires Enabled(p, s, e)
    ensures Next(p, s, e).pcs.Keys == s.pcs.Keys
  {
    if !e.Tick? { OnlyOwnPlace(p, s, e); }
  }

  lemma PlacesStep(p: Setup, s: State, e: Event)
    requires PlacesOk(p, s) && AllKnow(p, s) && Enabled(p, s, e)
    ensures PlacesOk(p, Next(p, s, e))
  {
    OthersKeepAll(p, s, e);
    var s' := Next(p, s, e);
    forall id | id in s'.pcs ensures PcOk(p, id, s'.pcs[id], LocalOf(s', id)) { PlaceStep(p, s, e, id); }
  }

  lemma AllKnowStep(p: Setup, s: State, e: Event)
    requires s.pcs.Keys == p.jobs.Keys && AllKnow(p, s) && Enabled(p, s, e)
    ensures Next(p, s, e).pcs.Keys == p.jobs.Keys && AllKnow(p, Next(p, s, e))
  {
    OthersKeepAll(p, s, e);
    var s' := Next(p, s, e);
    if !e.Tick? { KnowsStep(p, s, e); }
    forall id | id in s'.pcs ensures Knows(p, id, s'.pcs[id]) {
      if !e.Tick? && id != e.id { OnlyOwnPlace(p, s, e); }
    }
  }

  lemma StepInv(p: Setup, s: State, e: Event)
    requires Inv(p, s) && Enabled(p, s, e)
    ensures Inv(p, Next(p, s, e))
  {
    PlacesStep(p, s, e);
    AllKnowStep(p, s, e);
    SharedStep(p, s, e);
  }

  lemma InitInv(p: Setup, now: int)
    requires p.Valid()
    ensures Inv(p, Init(p, now))
  {
    assert Holders(Init(p, now)) == {};
  }

  lemma {:induction false} RunInv(p: Setup, s: State, es: seq<Event>, s': State)
    requires Inv(p, s) && Run(p, s, es, s')
    ensures Inv(p, s')
    decreases |es|
  {
    if es != [] {
      StepInv(p, s, es[0]);
      RunInv(p, Next(p, s, es[0]), es[1..], s');
    }
  }

  /** `s` is a state that some interleaving of the jobs' runs leads to. */
  ghost predicate Reached(p: Setup, s: State) {
    p.Valid() && exists now, es :: Run(p, Init(p, now), es, s)
  }

  lemma ReachedInv(p: Setup, s: State)
    requires Reached(p, s)
    ensures Inv(p, s)
  {
    var now, es :| Run(p, Init(p, now), es, s);
    InitInv(p, now);
    RunInv(p, Init(p, now), es, s);
  }

  /** What a reached state says of one request. */
  lemma ReachedPlace(p: Setup, s: State, id: string)
    requires Reached(p, s) && id in s.pcs
    ensures id in p.jobs && PcOk(p, id, s.pcs[id], LocalOf(s, id)) && Knows(p, id, s.pcs[id])
  {
    ReachedInv(p, s);
  }

  lemma ReachedShared(p: Setup, s: State)
    requires Reached(p, s)
    ensures SharedOk(p, s) && s.pcs.Keys == p.jobs.Keys
  {
    ReachedInv(p, s);
  }
}
