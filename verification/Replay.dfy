/** Offline replay of a ledger row, exact or current (internal/replay). */
module Replay {
  import opened Text
  import opened Types
  import opened Config
  import opened Router
  import opened Reliability
  import opened Ledger
  import opened Rag
  import opened Pipeline
  import opened Serving
  import HealthCache
  import Policy

  datatype Mode = Exact | Current | Unknown

  datatype Outcome =
    | NotFound
    | UnknownMode
    | MissingBackend
    | PolicyRefused(reason: string)
    | AgentNotImplemented
    | NoRoute(fault: Fault)
    | RagFailed(rag: RagOutcome)
    | Ran(req: AIRequest, primary: RouteDecision, fallback: seq<RouteDecision>, exec: ExecutionResult,
          calls: seq<Invocation>)

  /** The backend calls a replay makes. */
  function CallsOf(o: Outcome): seq<Invocation> {
    if o.Ran? then o.calls else []
  }

  /** The request a row stands for: the stored body, its classification fields taken from the row, normalised. */
  function Reconstruct(table: CharTable, row: RequestRow): AIRequest {
    var base :=
      if row.aiRequest.Some? then row.aiRequest.value
      else AIRequest("", "", "", row.context, "", "", "", row.input, RequestOptions(false, 0));
    NormalizeAIRequest(table, base.(requestID := row.requestID, tenantID := row.tenantID, taskType := row.taskType,
                       priority := row.priority, requestType := row.requestType, pipelineRef := row.pipelineRef))
  }

  function ExactBackend(table: CharTable, row: RequestRow): string {
    var primary := if row.policySnapshot.Some? then TrimSpace(table, row.policySnapshot.value.primaryBackend) else "";
    if primary != "" then primary else TrimSpace(table, row.selectedBackend)
  }

  function AllHealthy(bs: seq<BackendConfig>): Health {
    map n | n in HealthCache.BackendNames(bs) :: true
  }

  function ReplayExact(env: Env, row: RequestRow): Outcome {
    var backend := ExactBackend(env.table, row);
    if backend == "" then MissingBackend
    else
      match Prepared(env.rag, Reconstruct(env.table, row))
      case Err(failed) => RagFailed(failed)
      case Ok(req) =>
        var cost := if row.policySnapshot.Some? then row.policySnapshot.value.estimatedCost else 0.0;
        var primary := RouteDecision(backend, "replay_exact", cost);
        var opts := ExecOptions(backend, true);
        var calls := Calls(env.Manager(), env.up, req, primary, [], opts);
        var (p, f) := Candidates(env.Manager(), primary, [], opts);
        Ran(req, p, f, Reliability.ResultOf(env.Manager(), p, f, calls), calls)
  }

  function ReplayCurrent(env: Env, row: RequestRow): Outcome {
    var d := Evaluated(env, Reconstruct(env.table, row));
    if !d.allowed then PolicyRefused(d.reason)
    else if d.normalized.requestType == AGENT then AgentNotImplemented
    else
      var health := AllHealthy(env.cfg.backends);
      match Routed(env, d.normalized, RuntimeState(health, false))
      case Err(f) => NoRoute(f)
      case Ok(primary) =>
        match Prepared(env.rag, d.normalized)
        case Err(failed) => RagFailed(failed)
        case Ok(req) =>
          var fallback := FallbackFor(env, primary.backendName, health);
          var (exec, calls) := Executed(env, req, primary, fallback);
          Ran(req, primary, fallback, exec, calls)
  }

  // ---- The replay as the command line runs it ----

  method MakeAllHealthy(bs: seq<BackendConfig>) returns (out: Health)
    ensures out == AllHealthy(bs)
  {
    out := map[];
    for i := 0 to |bs|
      invariant out == AllHealthy(bs[..i])
    {
      out := out[bs[i].name := true];
      assert bs[..i + 1] == bs[..i] + [bs[i]];
    }
    assert bs[..|bs|] == bs;
  }

  /** The replay's own fallback builder: the list the server's builder gives. */
  method BuildFallbackList(c: Config, primary: string, health: Health) returns (out: seq<RouteDecision>)
    ensures out == FallbackList(c, c.fallbackRules, primary, health)
  {
    out := [];
    for i := 0 to |c.fallbackRules|
      invariant out + FallbackList(c, c.fallbackRules[i..], primary, health)
             == FallbackList(c, c.fallbackRules, primary, health)
    {
      var rule := c.fallbackRules[i];
      assert c.fallbackRules[i..][1..] == c.fallbackRules[i + 1..];
      if rule.fromBackend == primary {
        var b := BackendByName(c.backends, rule.fallbackTo);
        if b.Some? && BackendHealthOK(health, b.value.name) {
          out := out + [RouteDecision(b.value.name, "fallback-from-" + primary, b.value.unit)];
        }
      }
    }
  }

  method ReplayRow(env: Env, store: MemoryStore, id: string, mode: Mode) returns (o: Outcome)
    ensures o == if id !in store.requests then NotFound
                 else match mode
                      case Exact => ReplayExact(env, store.requests[id])
                      case Current => ReplayCurrent(env, store.requests[id])
                      case Unknown => UnknownMode
  {
    var row := store.GetRequest(id);
    if row.None? { return NotFound; }
    match mode {
      case Exact => o := RunExact(env, row.value);
      case Current => o := RunCurrent(env, row.value);
      case Unknown => o := UnknownMode;
    }
  }

  method RunExact(env: Env, row: RequestRow) returns (o: Outcome)
    ensures o == ReplayExact(env, row)
  {
    var backend := ExactBackend(env.table, row);
    if backend == "" { return MissingBackend; }
    var ready := Prepared(env.rag, Reconstruct(env.table, row));
    if ready.Err? { return RagFailed(ready.error); }
    var cost := if row.policySnapshot.Some? then row.policySnapshot.value.estimatedCost else 0.0;
    var primary := RouteDecision(backend, "replay_exact", cost);
    var opts := ExecOptions(backend, true);
    var exec, calls := ExecuteWithFallbackOpts(env.Manager(), env.up, ready.value, primary, [], opts);
    var (p, f) := Candidates(env.Manager(), primary, [], opts);
    return Ran(ready.value, p, f, exec, calls);
  }

  method RunCurrent(env: Env, row: RequestRow) returns (o: Outcome)
    ensures o == ReplayCurrent(env, row)
  {
    var d := Evaluated(env, Reconstruct(env.table, row));
    if !d.allowed { return PolicyRefused(d.reason); }
    if d.normalized.requestType == AGENT { return AgentNotImplemented; }
    var health := MakeAllHealthy(env.cfg.backends);
    var routed := Routed(env, d.normalized, RuntimeState(health, false));
    if routed.Err? { return NoRoute(routed.error); }
    var ready := Prepared(env.rag, d.normalized);
    if ready.Err? { return RagFailed(ready.error); }
    var fallback := BuildFallbackList(env.cfg, routed.value.backendName, health);
    NoOptions(env, routed.value, fallback);
    var exec, calls := ExecuteWithFallbackOpts(env.Manager(), env.up, ready.value, routed.value, fallback, NO_OPTIONS);
    return Ran(ready.value, routed.value, fallback, exec, calls);
  }

  // ---- Routing sees only the health of configured backends ----

  ghost predicate SameHealth(bs: seq<BackendConfig>, h: Health, h': Health) {
    forall b :: b in bs ==> (BackendHealthOK(h, b.name) <==> BackendHealthOK(h', b.name))
  }

  lemma {:induction false} SameRuleChoice(c: Config, tenant: TenantConfig, req: AIRequest, h: Health, h': Health,
                                          i: nat)
    requires SameHealth(c.backends, h, h') && i <= |c.rules|
    ensures RuleChoice(c, tenant, req, h, i) == RuleChoice(c, tenant, req, h', i)
    decreases |c.rules| - i
  {
    if i < |c.rules| { SameRuleChoice(c, tenant, req, h, h', i + 1); }
  }

  lemma {:induction false} SameFirstHealthy(bs: seq<BackendConfig>, h: Health, h': Health)
    requires SameHealth(bs, h, h')
    ensures FirstHealthyBackend(bs, h) == FirstHealthyBackend(bs, h')
  {
    if bs != [] { SameFirstHealthy(bs[1..], h, h'); }
  }

  lemma {:induction false} SameCostFold(bs: seq<BackendConfig>, tenant: TenantConfig, req: AIRequest, h: Health,
                                        h': Health,
                                        base: RouteDecision)
    requires SameHealth(bs, h, h')
    ensures CostFold(bs, tenant, req, h, base) == CostFold(bs, tenant, req, h', base)
    decreases |bs|
  {
    if bs != [] { SameCostFold(bs[..|bs| - 1], tenant, req, h, h', base); }
  }

  lemma {:induction false} SameFallbackList(c: Config, rules: seq<FallbackRule>, primary: string, h: Health, h': Health)
    requires SameHealth(c.backends, h, h')
    ensures FallbackList(c, rules, primary, h) == FallbackList(c, rules, primary, h')
  {
    if rules != [] { SameFallbackList(c, rules[1..], primary, h, h'); }
  }

  /** Two snapshots that agree on the configured backends lead to the same routing decision and fallback list. */
  lemma RoutingSeesConfiguredHealthOnly(c: Config, ctxErr: Option<Fault>, req: AIRequest, h: Health, h': Health,
                                        degrade: bool, primary: string)
    requires SameHealth(c.backends, h, h')
    ensures SelectRoute(c, ctxErr, req, RuntimeState(h, degrade))
         == SelectRoute(c, ctxErr, req, RuntimeState(h', degrade))
    ensures FallbackList(c, c.fallbackRules, primary, h) == FallbackList(c, c.fallbackRules, primary, h')
  {
    var tenant := TenantOf(c, req);
    SameRuleChoice(c, tenant, req, h, h', 0);
    SameFirstHealthy(c.backends, h, h');
    var base := SelectByRules(c, tenant, req, h);
    assert base == SelectByRules(c, tenant, req, h');
    if base.Ok? { SameCostFold(c.backends, tenant, req, h, h', base.value); }
    SameFallbackList(c, c.fallbackRules, primary, h, h');
  }

  // ---- Fidelity ----

  /** The row of the server run that found `inflight` requests holding a slot. */
  function RowOfRun(env: Env, inflight: int, traceID: string, req0: AIRequest): RequestRow {
    RowAfter(traceID, req0.requestID, req0, ServerStop(env, inflight, req0), DegradesAt(env.Mode(), inflight),
             inflight + 1)
  }

  /** A request as the gateway hands it to the pipeline. */
  ghost predicate FromGateway(table: CharTable, req0: AIRequest) {
    NormalizeAIRequest(table, req0) == req0
  }

  lemma GatewayRequestsAreNormal(table: CharTable, raw: AIRequest)
    requires table.Valid()
    ensures FromGateway(table, NormalizeAIRequest(table, raw))
  {
    NormalizeIdempotent(table, raw);
  }

  /** The request reconstructed from the row of a run is the normal form of the request that was run: that request
      itself, if it came through the gateway. */
  lemma RowReconstructsTheRequest(env: Env, inflight: int, traceID: string, req0: AIRequest)
    requires env.table.Valid()
    ensures var rebuilt := Reconstruct(env.table, RowOfRun(env, inflight, traceID, req0));
            && rebuilt == NormalizeAIRequest(env.table, JsonRoundTrip(req0)) == NormalizeAIRequest(env.table, req0)
            && (FromGateway(env.table, req0) ==> rebuilt == req0)
  {
    var row := RowOfRun(env, inflight, traceID, req0);
    RowRemembersRouting(HooksOf(env), env.Mode(), inflight, traceID, req0.requestID, req0);
    assert row.aiRequest == Some(JsonRoundTrip(req0));
    assert row.requestType == req0.requestType && row.pipelineRef == req0.pipelineRef;
  }

  /** Two policy evaluations that both allow a request fill it in alike, whatever the limiter and the clock say. */
  lemma AllowingDecisionsAgree(env: Env, env': Env, req: AIRequest)
    requires env.table == env'.table && env.cfg == env'.cfg && env.agent == env'.agent
    requires Evaluated(env, req).allowed && Evaluated(env', req).allowed
    ensures Evaluated(env, req) == Evaluated(env', req)
  {}

  /** The environments differ at most in the limiter, its clock, the health snapshot and the request contexts. */
  ghost predicate SameSetup(env: Env, env': Env) {
    && env'.table == env.table && env'.cfg == env.cfg && env'.agent == env.agent
    && env'.adapters == env.adapters && env'.up == env.up && env'.rag == env.rag
  }

  /** What a current replay of a run gives: the failure of its retrieval, or its execution. */
  function Replayed(s: Stop): Outcome
    requires s.PastRouting()
  {
    if s.RagStopped? then RagFailed(s.rag) else Ran(s.req, s.primary, s.fallback, s.exec, s.calls)
  }

  /** What lets a current replay see what the run saw: the same setup, live contexts while routing, all configured
      backends healthy and no degradation online, and a policy that admits the request again. */
  ghost predicate Repeatable(env: Env, env': Env, inflight: int, req0: AIRequest) {
    && SameSetup(env, env') && env.routeCtx == None && env'.routeCtx == None
    && !DegradesAt(env.Mode(), inflight)
    && (forall b :: b in env.cfg.backends ==> BackendHealthOK(env.health, b.name))
    && Evaluated(env', req0).allowed
  }

  /** Current replay reproduces a repeatable online run that got past routing: it picks the same primary (backend,
      reason and cost) and the same fallback list; it fails in retrieval as the run did, or sends the same request and
      makes the same calls with the same result. */
  lemma ReplayCurrentFidelity(env: Env, env': Env, inflight: int, traceID: string, req0: AIRequest)
    requires env.table.Valid() && Repeatable(env, env', inflight, req0)
    requires ServerStop(env, inflight, req0).PastRouting()
    ensures var s := ServerStop(env, inflight, req0);
            var row, health := RowOfRun(env, inflight, traceID, req0), AllHealthy(env.cfg.backends);
            && Evaluated(env', Reconstruct(env'.table, row)) == s.decision
            && Routed(env', s.decision.normalized, RuntimeState(health, false)) == Ok(s.primary)
            && FallbackFor(env', s.primary.backendName, health) == FallbackFor(env, s.primary.backendName, env.health)
            && ReplayCurrent(env', row) == Replayed(s)
  {
    var s := ServerStop(env, inflight, req0);
    PastRoutingMeans(env, inflight, req0);
    RowDecidesAlike(env, env', inflight, traceID, req0);
    RoutingSeesConfiguredHealthOnly(env.cfg, None, s.decision.normalized, env.health, AllHealthy(env.cfg.backends),
                                    false, s.primary.backendName);
    if s.Executed() {
      assert Executed(env', s.req, s.primary, s.fallback) == Executed(env, s.req, s.primary, s.fallback);
    }
  }

  /** Policy decides on the rebuilt request as on the one that was run. */
  lemma RowDecidesAlike(env: Env, env': Env, inflight: int, traceID: string, req0: AIRequest)
    requires env.table.Valid() && SameSetup(env, env')
    ensures var rebuilt := Reconstruct(env'.table, RowOfRun(env, inflight, traceID, req0));
            && Evaluated(env', rebuilt) == Evaluated(env', req0)
            && (Evaluated(env, req0).allowed && Evaluated(env', req0).allowed ==>
                  Evaluated(env', rebuilt) == Evaluated(env, req0))
  {
    RowReconstructsTheRequest(env, inflight, traceID, req0);
    Policy.DecisionSurvivesTheLedger(env'.table, env'.cfg, env'.agent, env'.limiter, env'.now, req0);
    if Evaluated(env, req0).allowed && Evaluated(env', req0).allowed { AllowingDecisionsAgree(env, env', req0); }
  }

  /** The backend that exact replay of a run past routing aims at: the primary's name trimmed, or, if that is blank, the
      trimmed name of the backend the row ends with. */
  function Aim(table: CharTable, s: Stop): string
    requires s.PastRouting()
  {
    var primary := TrimSpace(table, s.primary.backendName);
    if primary != "" then primary
    else TrimSpace(table, if s.Completed? then s.exec.backendName else s.primary.backendName)
  }

  /** The outcome `o` of an exact replay of a run that ended in `s`: it found a backend exactly when the run got past
      routing and there is a name to aim at; then it kept the primary's cost and made at most one call, to that backend
      even if a fallback answered online, and had no fallback; it did make that call if the backend has an adapter and a
      configuration. */
  ghost predicate ReplaysExactly(env: Env, s: Stop, o: Outcome) {
    && (o == MissingBackend <==> !s.PastRouting() || Aim(env.table, s) == "")
    && |CallsOf(o)| <= 1
    && (forall v :: v in CallsOf(o) ==> s.PastRouting() && v.backend == Aim(env.table, s) && v.index == 0)
    && (o.Ran? ==> s.PastRouting() && o.fallback == [] && o.primary.backendName == Aim(env.table, s))
    && (o.Ran? ==> o.primary.estimatedCost == s.primary.estimatedCost)
    && (o.Ran? && Runnable(env.Manager(), o.primary) ==> |o.calls| == 1)
  }

  /** Exact replay aims at the online primary and at nothing else, for every configuration, online and by now; and the
      backend it aims at is that primary exactly when the name is stored trimmed and not blank. */
  lemma ReplayExactFidelity(env: Env, env': Env, inflight: int, traceID: string, req0: AIRequest)
    requires env'.table == env.table
    ensures var s := ServerStop(env, inflight, req0);
            && ReplaysExactly(env', s, ReplayExact(env', RowOfRun(env, inflight, traceID, req0)))
            && (s.PastRouting() ==>
                  var name := s.primary.backendName;
                  Aim(env.table, s) == name != "" <==> name != "" && Trimmed(env.table, name))
  {
    var s := ServerStop(env, inflight, req0);
    ExactBackendIsTheAim(env, inflight, traceID, req0);
    ForcedExecution(env', RowOfRun(env, inflight, traceID, req0));
    if s.PastRouting() { ExactReplayAimsAtPrimaryIff(env.table, s); }
  }

  lemma ExactBackendIsTheAim(env: Env, inflight: int, traceID: string, req0: AIRequest)
    ensures var s := ServerStop(env, inflight, req0);
            ExactBackend(env.table, RowOfRun(env, inflight, traceID, req0))
            == if s.PastRouting() then Aim(env.table, s) else ""
  {
    RowRemembersRouting(HooksOf(env), env.Mode(), inflight, traceID, req0.requestID, req0);
    assert TrimSpace(env.table, "") == "";
  }

  /** Exact replay aims at the online primary exactly when that name is stored trimmed and not blank. */
  lemma ExactReplayAimsAtPrimaryIff(table: CharTable, s: Stop)
    requires s.PastRouting()
    ensures Aim(table, s) == s.primary.backendName != "" <==>
            s.primary.backendName != "" && Trimmed(table, s.primary.backendName)
  {
    TrimSpaceFixpoints(table, s.primary.backendName);
    if s.Completed? { TrimSpaceFixpoints(table, s.exec.backendName); }
  }

  /** In a configuration whose names are stored trimmed and not blank that backend is always the online primary. */
  lemma ExactReplayAimsAtPrimary(env: Env, inflight: int, req0: AIRequest)
    requires forall b :: b in env.cfg.backends ==> b.name != "" && Trimmed(env.table, b.name)
    requires ServerStop(env, inflight, req0).PastRouting()
    ensures Aim(env.table, ServerStop(env, inflight, req0)) == ServerStop(env, inflight, req0).primary.backendName != ""
  {
    var s := ServerStop(env, inflight, req0);
    PastRoutingMeans(env, inflight, req0);
    RoutedBackendIsSelectable(env.cfg, env.routeCtx, s.decision.normalized,
                              RuntimeState(env.health, DegradesAt(env.Mode(), inflight)));
    TrimSpaceFixpoints(env.table, s.primary.backendName);
  }

  /** Replayed under the accepted configuration it ran with, a run's row leads exact replay to the online primary or to
      no backend: none is missing unless the run did not get past routing, every call goes to the primary, and there is
      no call if that name is stored untrimmed. */
  lemma ExactReplayUnderTheSameConfig(fieldsOk: BackendConfig -> bool, env: Env, env': Env, inflight: int,
                                      traceID: string, req0: AIRequest)
    requires WellFormed(env.table, fieldsOk, env.cfg) && env'.cfg == env.cfg && env'.table == env.table
    ensures var s := ServerStop(env, inflight, req0);
            var o := ReplayExact(env', RowOfRun(env, inflight, traceID, req0));
            && (o == MissingBackend <==> !s.PastRouting())
            && (forall v :: v in CallsOf(o) ==> s.PastRouting() && v.backend == s.primary.backendName)
            && (s.PastRouting() && !Trimmed(env.table, s.primary.backendName) ==> CallsOf(o) == [])
  {
    var s := ServerStop(env, inflight, req0);
    var row := RowOfRun(env, inflight, traceID, req0);
    ReplayExactFidelity(env, env', inflight, traceID, req0);
    if s.PastRouting() {
      PastRoutingMeans(env, inflight, req0);
      RoutedBackendIsSelectable(env.cfg, env.routeCtx, s.decision.normalized,
                                RuntimeState(env.health, DegradesAt(env.Mode(), inflight)));
      var b := BackendByName(env.cfg.backends, s.primary.backendName).value;
      assert BackendOk(env.table, fieldsOk, b);
      ResolvedOrigin(env.table, fieldsOk, env.cfg, b);
      TrimSpaceFixpoints(env.table, b.name);
      ForcedCallsAreRunnable(env', row);
    }
  }

  /** Exact replay calls only a backend the configuration knows. */
  lemma ForcedCallsAreRunnable(env: Env, row: RequestRow)
    ensures CallsOf(ReplayExact(env, row)) != [] ==> Resolves(env.cfg, ExactBackend(env.table, row))
  {
    var o := ReplayExact(env, row);
    if CallsOf(o) != [] {
      ForcedExecution(env, row);
      ExactBackendIsTrimmed(env.table, row);
      var cands := [o.primary];
      assert [o.primary] + o.fallback == cands;
      TraceIsExecution(env.Manager(), env.up, cands, o.req);
      RunnableIndicesMeaning(env.Manager(), cands, 1);
      var all := RunnableIndices(env.Manager(), cands, 1);
      assert all[0] in all;
    }
  }

  /** Forcing a trimmed backend without fallback leaves it as the only candidate. */
  lemma ForcedExecution(env: Env, row: RequestRow)
    ensures var o := ReplayExact(env, row);
            var backend := ExactBackend(env.table, row);
            o.Ran? ==>
              && o.fallback == [] && |o.calls| <= 1
              && o.primary == RouteDecision(backend, "forced_primary", if row.policySnapshot.Some?
                                                     then row.policySnapshot.value.estimatedCost else 0.0)
              && Prepared(env.rag, Reconstruct(env.table, row)) == Ok(o.req)
              && (forall v :: v in o.calls ==> v.backend == backend && v.index == 0)
              && (Runnable(env.Manager(), o.primary) ==> |o.calls| == 1)
  {
    var o := ReplayExact(env, row);
    var backend := ExactBackend(env.table, row);
    if o.Ran? {
      ExactBackendIsTrimmed(env.table, row);
      var cands := [o.primary];
      assert [o.primary] + o.fallback == cands;
      TraceIsExecution(env.Manager(), env.up, cands, o.req);
      WithoutFallbackOneCall(env.Manager(), env.up, cands, o.req, o.calls);
      assert RunnableIndices(env.Manager(), cands, 0) == [];
      assert |RunnableIndices(env.Manager(), cands, 1)| == if Runnable(env.Manager(), o.primary) then 1 else 0;
    }
  }

  lemma ExactBackendIsTrimmed(table: CharTable, row: RequestRow)
    ensures TrimSpace(table, ExactBackend(table, row)) == ExactBackend(table, row)
  {
    var b := ExactBackend(table, row);
    if row.policySnapshot.Some? { TrimSpaceFixpoints(table, row.policySnapshot.value.primaryBackend); }
    TrimSpaceFixpoints(table, row.selectedBackend);
    TrimSpaceFixpoints(table, b);
  }

  /** It happens: with the default marked unhealthy a run is routed to the backend stored as " a", and exact replay of
      it aims at "a". */
  lemma UntrimmedPrimaryIsMissed(env: Env, inflight: int, req0: AIRequest)
    requires env.table.Valid() && env.table.isSpace(' ') && env.routeCtx == None
    requires env.cfg.backends == [BackendConfig(" a", "mock", 1.0, [], 0), BackendConfig("b", "mock", 1.0, [], 0)]
    requires env.cfg.rules == [] && env.cfg.defaultBackend == "b" && env.health == map["b" := false]
    requires Evaluated(env, req0).allowed && Evaluated(env, req0).normalized.requestType == INFERENCE
    requires !RejectsAt(env.Mode(), inflight)
    ensures var s := ServerStop(env, inflight, req0);
            s.PastRouting() && s.primary.backendName == " a" && Aim(env.table, s) == "a"
  {
    var base := RouteDecision(" a", "healthy-fallback-order", 1.0);
    var d := Evaluated(env, req0);
    RoutedAwayFromTheDefault(env, d.normalized, DegradesAt(env.Mode(), inflight), base);
    RoutedMeansPastRouting(HooksOf(env), env.Mode(), inflight, req0, d, base);
    SpaceThenA(env.table);
  }

  lemma RoutedAwayFromTheDefault(env: Env, n: AIRequest, degrade: bool, base: RouteDecision)
    requires env.cfg.backends == [BackendConfig(" a", "mock", 1.0, [], 0), BackendConfig("b", "mock", 1.0, [], 0)]
    requires env.cfg.rules == [] && env.cfg.defaultBackend == "b" && env.health == map["b" := false]
    requires env.routeCtx == None && base == RouteDecision(" a", "healthy-fallback-order", 1.0)
    ensures Routed(env, n, RuntimeState(env.health, degrade)) == Ok(base)
  {
    var b := env.cfg.backends[1];
    assert BackendByName(env.cfg.backends[1..], "b") == Some(b);
    assert SelectByRules(env.cfg, TenantOf(env.cfg, n), n, env.health) == Ok(base);
    OnlyUnitCostBackends(env.cfg, TenantOf(env.cfg, n), n, env.health, base);
  }

  /** No backend is cheaper in total than a base of its own unit cost. */
  lemma OnlyUnitCostBackends(c: Config, tenant: TenantConfig, req: AIRequest, health: Health, base: RouteDecision)
    requires base.estimatedCost == 1.0 && forall b :: b in c.backends ==> b.unit == 1.0
    ensures CostFold(c.backends, tenant, req, health, base) == base
  {
    CostFoldSound(c.backends, tenant, req, health, base);
    forall b | b in c.backends ensures Estimate(req, b.unit) >= 1.0 { EstimateAtLeastUnit(req, b.unit); }
  }

  /** An agent request reaches no backend: not online, and not in either replay of its row. */
  lemma AgentsReachNoBackend(env: Env, env': Env, inflight: int, traceID: string, req0: AIRequest)
    requires env.table.Valid() && env'.table == env.table && NormalizeAIRequest(env.table, req0).requestType == AGENT
    ensures !ServerStop(env, inflight, req0).PastRouting()
    ensures CallsOf(ReplayExact(env', RowOfRun(env, inflight, traceID, req0))) == []
    ensures CallsOf(ReplayCurrent(env', RowOfRun(env, inflight, traceID, req0))) == []
  {
    var rebuilt := Reconstruct(env.table, RowOfRun(env, inflight, traceID, req0));
    RowReconstructsTheRequest(env, inflight, traceID, req0);
    NormalizeIdempotent(env.table, req0);
    AgentStaysAgent(env, req0);
    AgentStaysAgent(env', rebuilt);
    if ServerStop(env, inflight, req0).PastRouting() { PastRoutingMeans(env, inflight, req0); }
    RowRemembersRouting(HooksOf(env), env.Mode(), inflight, traceID, req0.requestID, req0);
    assert TrimSpace(env.table, "") == "";
  }

  lemma AgentStaysAgent(env: Env, req: AIRequest)
    requires NormalizeAIRequest(env.table, req).requestType == AGENT
    ensures Evaluated(env, req).allowed ==> Evaluated(env, req).normalized.requestType == AGENT
  {}

  /** The classification of a rebuilt request is the row's; its body is the stored one, or, in a row without one, the
      row's input and context. */
  lemma ReconstructMeaning(table: CharTable, row: RequestRow)
    ensures var r := Reconstruct(table, row);
            && r.requestID == row.requestID && r.tenantID == row.tenantID && r.taskType == row.taskType
            && r.priority == row.priority
            && r.requestType == (if TrimSpace(table, row.requestType) == "" then "inference"
                                 else ToLower(table, TrimSpace(table, row.requestType)))
            && (TrimSpace(table, row.pipelineRef) != "" ==> r.pipelineRef == row.pipelineRef)
            && r.input == (if row.aiRequest.Some? then row.aiRequest.value.input else row.input)
            && r.options == (if row.aiRequest.Some? then row.aiRequest.value.options else RequestOptions(false, 0))
            && r.context.Some?
            && (row.aiRequest.None? && row.context.Some? ==> r.context == row.context)
  {
    assert ToLower(table, TrimSpace(table, row.requestType)) == "" <==> TrimSpace(table, row.requestType) == "";
  }

  /** A current replay calls only backends that are configured and have an adapter, and only for a request that policy
      allows now and that is not an agent's. */
  lemma CurrentReplayCallsAreRunnable(env: Env, row: RequestRow, v: Invocation)
    requires v in CallsOf(ReplayCurrent(env, row))
    ensures v.backend in env.adapters && Resolves(env.cfg, v.backend)
    ensures var d := Evaluated(env, Reconstruct(env.table, row)); d.allowed && d.normalized.requestType != "agent"
  {
    var o := ReplayCurrent(env, row);
    var k :| 0 <= k < |o.calls| && o.calls[k] == v;
    CallsAreCandidates(env, o.req, o.primary, o.fallback, k);
  }
}
