/** The orchestrator as the server wires it: policy engine, rule router, reliability manager and fallback builder over
    one configuration and one health snapshot (internal/server/orchestrator.go). */
module Serving {
  import opened Text
  import opened Types
  import opened Config
  import opened Router
  import opened Reliability
  import opened Rag
  import opened Pipeline
  import Admission
  import HealthCache
  import Policy

  /** One configuration and everything outside it that a run depends on. */
  datatype Env = Env(
    table: CharTable, cfg: Config, agent: Policy.AgentLimits, adapters: set<string>, up: Upstream, rag: RagEnv,
    limiter: Policy.Limiter, now: int, health: Health,
    policyCtx: Option<Fault>, routeCtx: Option<Fault>, execCtx: Option<Fault>)
  {
    function Manager(): Reliability.Manager {
      Reliability.Manager(cfg, adapters, table)
    }

    function Mode(): Admission.Mode {
      Admission.ModeOf(table, cfg)
    }
  }

  function RouteFault(e: RouteError): Fault {
    match e
    case CtxDone(f) => f
    case UnknownRuleBackend(_) => Fault(None, false, "rule references unknown backend")
    case DefaultNotFound => Fault(None, false, "default backend not found")
    case NoneHealthy => Fault(None, false, "no healthy backend available")
  }

  function Evaluated(env: Env, req: AIRequest): PolicyDecision {
    Policy.Decide(env.table, env.cfg, env.agent, env.limiter, env.now, req).0
  }

  function Routed(env: Env, req: AIRequest, state: RuntimeState): Result<RouteDecision, Fault> {
    match SelectRoute(env.cfg, env.routeCtx, req, state)
    case Ok(d) => Ok(d)
    case Err(e) => Err(RouteFault(e))
  }

  function FallbackFor(env: Env, primary: string, health: Health): seq<RouteDecision> {
    FallbackList(env.cfg, env.cfg.fallbackRules, primary, health)
  }

  function Executed(env: Env, req: AIRequest, primary: RouteDecision, fallback: seq<RouteDecision>)
    : (ExecutionResult, seq<Invocation>)
  {
    var calls := Calls(env.Manager(), env.up, req, primary, fallback, NO_OPTIONS);
    (Reliability.ResultOf(env.Manager(), primary, fallback, calls), calls)
  }

  function HooksOf(env: Env): Hooks {
    Hooks(
      req => Ok(Evaluated(env, req)),
      env.health,
      (req, state) => Routed(env, req, state),
      env.rag,
      (primary, health) => FallbackFor(env, primary, health),
      (req, primary, fallback) => Executed(env, req, primary, fallback),
      env.policyCtx, env.routeCtx, env.execCtx)
  }

  /** The stop of a run of the server that finds `inflight` requests holding a slot. */
  function ServerStop(env: Env, inflight: int, req0: AIRequest): Stop {
    StopOf(HooksOf(env), env.Mode(), inflight, req0)
  }

  /** What the stop of a server run says once routing is behind it. */
  lemma PastRoutingMeans(env: Env, inflight: int, req0: AIRequest)
    requires ServerStop(env, inflight, req0).PastRouting()
    ensures var s := ServerStop(env, inflight, req0);
            var d := Evaluated(env, req0);
            var state := RuntimeState(env.health, DegradesAt(env.Mode(), inflight));
            && s.decision == d && d.allowed && d.normalized.requestType != AGENT
            && SelectRoute(env.cfg, env.routeCtx, d.normalized, state) == Ok(s.primary)
            && (s.Executed() ==>
                  && s.fallback == FallbackFor(env, s.primary.backendName, env.health)
                  && (s.exec, s.calls) == Executed(env, s.req, s.primary, s.fallback))
            && Prepared(env.rag, d.normalized) == (if s.RagStopped? then Err(s.rag) else Ok(s.req))
  {
    PastRoutingShape(HooksOf(env), env.Mode(), inflight, req0);
  }

  /** The candidates of an executed run. */
  function RunCandidates(s: Stop): seq<RouteDecision>
    requires s.Executed()
  {
    [s.primary] + s.fallback
  }

  /** No backend marked unhealthy in the run's snapshot is ever invoked, be it the choice of a rule, the default, the
      first healthy, the cheapest or a fallback; and every backend invoked is a configured one with an adapter. */
  lemma InvokedBackendsAreHealthy(env: Env, inflight: int, req0: AIRequest, k: nat)
    requires ServerStop(env, inflight, req0).Executed() && k < |ServerStop(env, inflight, req0).calls|
    ensures var b := ServerStop(env, inflight, req0).calls[k].backend;
            BackendHealthOK(env.health, b) && BackendByName(env.cfg.backends, b).Some? && b in env.adapters
  {
    var s := ServerStop(env, inflight, req0);
    PastRoutingMeans(env, inflight, req0);
    CandidatesAreSelectable(env, inflight, req0);
    CallsAreCandidates(env, s.req, s.primary, s.fallback, k);
    assert s.calls == Executed(env, s.req, s.primary, s.fallback).1;
    assert RunCandidates(s)[s.calls[k].index] in RunCandidates(s);
  }

  lemma CandidatesAreSelectable(env: Env, inflight: int, req0: AIRequest)
    requires ServerStop(env, inflight, req0).Executed()
    ensures forall d :: d in RunCandidates(ServerStop(env, inflight, req0)) ==> Selectable(env.cfg, env.health, d)
  {
    var s := ServerStop(env, inflight, req0);
    PastRoutingMeans(env, inflight, req0);
    RoutedBackendIsSelectable(env.cfg, env.routeCtx, s.decision.normalized,
                              RuntimeState(env.health, DegradesAt(env.Mode(), inflight)));
  }

  lemma NoOptions(env: Env, primary: RouteDecision, fallback: seq<RouteDecision>)
    ensures Candidates(env.Manager(), primary, fallback, NO_OPTIONS) == (primary, fallback)
  {
    assert TrimSpace(env.table, "") == "";
  }

  lemma CallsAreCandidates(env: Env, req: AIRequest, primary: RouteDecision, fallback: seq<RouteDecision>, k: nat)
    requires k < |Executed(env, req, primary, fallback).1|
    ensures var v := Executed(env, req, primary, fallback).1[k];
            var cands := [primary] + fallback;
            v.index < |cands| && v.backend == cands[v.index].backendName && Runnable(env.Manager(), cands[v.index])
  {
    var cands := [primary] + fallback;
    NoOptions(env, primary, fallback);
    TraceIsExecution(env.Manager(), env.up, cands, req);
    RunnableIndicesMeaning(env.Manager(), cands, |cands|);
    var v := Executed(env, req, primary, fallback).1[k];
    var all := RunnableIndices(env.Manager(), cands, |cands|);
    assert v.index == all[k] && all[k] in all;
  }

  /** With a probed snapshot every candidate has an adapter and a configuration, so none is ever skipped: the k-th call
      is for the k-th candidate. */
  lemma ProbedCandidatesAreNeverSkipped(env: Env, inflight: int, req0: AIRequest, answers: string -> bool, k: nat)
    requires env.health == HealthCache.Probed(env.cfg.backends, env.adapters, answers)
    requires ServerStop(env, inflight, req0).Executed()
    ensures var s := ServerStop(env, inflight, req0);
            && (forall d :: d in RunCandidates(s) ==> Runnable(env.Manager(), d) && answers(d.backendName))
            && s.calls != []
            && (k < |s.calls| ==> s.calls[k].index == k)
  {
    var s := ServerStop(env, inflight, req0);
    var m, cands := env.Manager(), RunCandidates(s);
    CandidatesAreSelectable(env, inflight, req0);
    forall d | d in cands ensures Runnable(m, d) && answers(d.backendName) {
      HealthCache.ProbedSelectableHasAdapter(env.cfg.backends, env.adapters, answers, d.backendName);
    }
    PastRoutingMeans(env, inflight, req0);
    NoOptions(env, s.primary, s.fallback);
    TraceIsExecution(m, env.up, cands, s.req);
    AllRunnable(m, cands, |cands|);
  }

  /** With a probed snapshot no skipped candidate can hide the error of the last call: a failed run reports exactly that
      error, tells it to the scaling signal, and answers 504 exactly when it is a deadline the request context shares.
      */
  lemma ProbedFailureIsTheLastCalls(env: Env, inflight: int, req0: AIRequest, answers: string -> bool)
    requires env.health == HealthCache.Probed(env.cfg.backends, env.adapters, answers)
    requires ServerStop(env, inflight, req0).BackendFailed?
    ensures var s := ServerStop(env, inflight, req0);
            && s.calls != [] && s.calls[|s.calls| - 1].outcome.Err?
            && var err := s.calls[|s.calls| - 1].outcome.error;
            && s.exec.error == NotedError(HooksOf(env), s) == Some(err)
            && (Answer(HooksOf(env), s, DegradesAt(env.Mode(), inflight)) == Timeout(s.primary.backendName) <==>
                BudgetExceeded(env.execCtx, err))
  {
    var s := ServerStop(env, inflight, req0);
    ProbedCandidatesAreNeverSkipped(env, inflight, req0, answers, 0);
    PastRoutingMeans(env, inflight, req0);
    StopOfFits(HooksOf(env), env.Mode(), inflight, req0);
    var cands := RunCandidates(s);
    assert cands[|cands| - 1] in cands;
    LastErrorIsReported(env.Manager(), s.primary, s.fallback, s.calls);
    FailureAnswer(HooksOf(env), s, DegradesAt(env.Mode(), inflight));
  }

  lemma FailureAnswer(h: Hooks, s: Stop, degrade: bool)
    requires s.BackendFailed? && s.exec.error.Some?
    ensures NotedError(h, s) == s.exec.error
    ensures Answer(h, s, degrade) == Timeout(s.primary.backendName) <==> BudgetExceeded(h.execCtx, s.exec.error.value)
  {}

  lemma {:induction false} AllRunnable(m: Reliability.Manager, cands: seq<RouteDecision>, n: nat)
    requires n <= |cands| && forall d :: d in cands ==> Runnable(m, d)
    ensures |RunnableIndices(m, cands, n)| == n
    ensures forall i :: 0 <= i < n ==> RunnableIndices(m, cands, n)[i] == i
  {
    if n > 0 { AllRunnable(m, cands, n - 1); }
  }

  /** A run admitted while the limit is used up, in degrade mode, goes to the base choice of the router and is never
      cost-optimised; any other run past routing goes to the cost choice from it. */
  lemma DegradedRunKeepsTheBase(env: Env, inflight: int, req0: AIRequest)
    requires ServerStop(env, inflight, req0).PastRouting()
    ensures var s := ServerStop(env, inflight, req0);
            var c, n, h := env.cfg, s.decision.normalized, env.health;
            var base := SelectByRules(c, TenantOf(c, n), n, h);
            && base.Ok? && IsBaseChoice(c, TenantOf(c, n), n, h, base.value)
            && if env.Mode().Degrade? && inflight >= env.Mode().limit then s.primary == base.value
               else IsCostChoice(c.backends, TenantOf(c, n), n, h, base.value, s.primary)
  {
    var s := ServerStop(env, inflight, req0);
    PastRoutingMeans(env, inflight, req0);
    var c, n := env.cfg, s.decision.normalized;
    SuccessIsBaseChoice(c, TenantOf(c, n), n, env.health);
    var base := SelectByRules(c, TenantOf(c, n), n, env.health).value;
    CostFoldSound(c.backends, TenantOf(c, n), n, env.health, base);
  }

  /** A request allowed and admitted whose context is done before routing calls no backend: a deadline gives 504 and is
      told to the scaling signal, a cancellation gives 500. */
  lemma DoneBeforeRouting(env: Env, inflight: int, req0: AIRequest, f: Fault)
    requires env.routeCtx == Some(f) && Evaluated(env, req0).allowed
    requires Evaluated(env, req0).normalized.requestType != "agent"
    requires env.Mode().Reject? ==> inflight < env.Mode().limit
    ensures var s := ServerStop(env, inflight, req0);
            && !s.PastRouting()
            && Answer(HooksOf(env), s, DegradesAt(env.Mode(), inflight))
               == (if f.deadline
                   then Failure(504, "gateway_timeout", "inference request deadline exceeded", "gateway_timeout", "")
                   else Failure(500, "route_error", f.msg, "route_error", ""))
            && NotedError(HooksOf(env), s) == if f.deadline then Some(f) else None
  {
    var d := Evaluated(env, req0);
    assert HooksOf(env).evaluate(req0) == Ok(d);
    assert HooksOf(env).select(d.normalized, RuntimeState(env.health, DegradesAt(env.Mode(), inflight))) == Err(f);
  }

  /** With a live context a routing failure is never a timeout. */
  lemma RoutingFailureIs500(env: Env, inflight: int, req0: AIRequest)
    requires env.routeCtx == None && ServerStop(env, inflight, req0).RouteErred?
    ensures var s := ServerStop(env, inflight, req0);
            var a := Answer(HooksOf(env), s, DegradesAt(env.Mode(), inflight));
            a.Failure? && a.httpStatus == 500 && a.errorCode == "route_error" && NotedError(HooksOf(env), s) == None
  {}
}
