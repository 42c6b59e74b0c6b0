/** The infer pipeline: policy, admission, routing, retrieval, backend, ledger (internal/inferexec). */
module Pipeline {
  import opened Types
  import opened Router
  import opened Reliability
  import opened Ledger
  import opened Rag
  import Admission
  import TimeoutSpike

  const NORMALIZE := "normalize"
  const POLICY_CHECK := "policy_check"
  const ADMISSION := "admission"
  const ROUTE := "route"
  const RETRIEVE := "retrieve"
  const RERANK := "rerank"
  const BACKEND_CALL := "backend_call"
  const FINALIZE := "finalize"
  const AGENT_STUB := "agent_stub"

  /** The declared plan of a request type. */
  function ExecutionPlan(requestType: string): seq<string> {
    if requestType == AGENT then [NORMALIZE, POLICY_CHECK, AGENT_STUB]
    else if requestType == RAG then
      [NORMALIZE, POLICY_CHECK, ADMISSION, ROUTE, RETRIEVE, RERANK, BACKEND_CALL, FINALIZE]
    else [NORMALIZE, POLICY_CHECK, ADMISSION, ROUTE, BACKEND_CALL, FINALIZE]
  }

  /** What the orchestrator is wired to. The `...Ctx` fields are the error of the request context when the exit after
      policy, routing or execution looks at it. */
  datatype Hooks = Hooks(
    evaluate: AIRequest -> Result<PolicyDecision, Fault>,
    health: Health,
    select: (AIRequest, RuntimeState) -> Result<RouteDecision, Fault>,
    rag: RagEnv,
    buildFallback: (string, Health) -> seq<RouteDecision>,
    execute: (AIRequest, RouteDecision, seq<RouteDecision>) -> (ExecutionResult, seq<Invocation>),
    policyCtx: Option<Fault>, routeCtx: Option<Fault>, execCtx: Option<Fault>)

  /** Where a run ends, with the request as it is then. */
  datatype Stop =
    | PolicyErred(req: AIRequest, fault: Fault)
    | PolicyRejected(req: AIRequest, why: string)
    | AgentStubbed(req: AIRequest)
    | Overloaded(req: AIRequest)
    | RouteErred(req: AIRequest, fault: Fault)
    | RagStopped(req: AIRequest, decision: PolicyDecision, primary: RouteDecision, rag: RagOutcome)
    | BackendFailed(req: AIRequest, decision: PolicyDecision, primary: RouteDecision, fallback: seq<RouteDecision>,
                    exec: ExecutionResult, calls: seq<Invocation>)
    | Completed(req: AIRequest, decision: PolicyDecision, primary: RouteDecision, fallback: seq<RouteDecision>,
                exec: ExecutionResult, calls: seq<Invocation>)
  {
    predicate PastRouting() { RagStopped? || BackendFailed? || Completed? }

    predicate Executed() { BackendFailed? || Completed? }
  }

  predicate RejectsAt(m: Admission.Mode, inflight: int) {
    m.Reject? && inflight >= m.limit
  }

  predicate DegradesAt(m: Admission.Mode, inflight: int) {
    m.Degrade? && inflight >= m.limit
  }

  /** The stop of a run that finds `inflight` requests holding a slot. */
  function StopOf(h: Hooks, m: Admission.Mode, inflight: int, req0: AIRequest): Stop {
    match h.evaluate(req0)
    case Err(f) => PolicyErred(req0, f)
    case Ok(d) => if d.allowed then StopAllowed(h, m, inflight, d) else PolicyRejected(req0, d.reason)
  }

  function StopAllowed(h: Hooks, m: Admission.Mode, inflight: int, d: PolicyDecision): Stop {
    if d.normalized.requestType == AGENT then AgentStubbed(d.normalized)
    else if RejectsAt(m, inflight) then Overloaded(d.normalized)
    else StopAdmitted(h, d, DegradesAt(m, inflight))
  }

  function StopAdmitted(h: Hooks, d: PolicyDecision, degrade: bool): Stop {
    match h.select(d.normalized, RuntimeState(h.health, degrade))
    case Err(f) => RouteErred(d.normalized, f)
    case Ok(primary) => StopRouted(h, d, primary)
  }

  function StopRouted(h: Hooks, d: PolicyDecision, primary: RouteDecision): Stop {
    match Prepared(h.rag, d.normalized)
    case Err(failed) => RagStopped(d.normalized, d, primary, failed)
    case Ok(req) => StopExecuted(h, d, req, primary)
  }

  function StopExecuted(h: Hooks, d: PolicyDecision, req: AIRequest, primary: RouteDecision): Stop {
    var fallback := h.buildFallback(primary.backendName, h.health);
    var (exec, calls) := h.execute(req, primary, fallback);
    if exec.error.Some? then BackendFailed(req, d, primary, fallback, exec, calls)
    else Completed(req, d, primary, fallback, exec, calls)
  }

  // ---- What a stop means for the trace, the ledger row and the answer ----

  /** How many steps of the plan are recorded. An overload rejection, a routing failure and an unusable knowledge base
      record no step of their own. */
  function StepCount(s: Stop): nat {
    match s
    case PolicyErred(_, _) => 1
    case PolicyRejected(_, _) => 2
    case AgentStubbed(_) => 3
    case Overloaded(_) => 2
    case RouteErred(_, _) => 3
    case RagStopped(_, _, _, r) => if r.NotConfigured? then 4 else if r.RetrieveFailed? then 5 else 6
    case BackendFailed(_, _, _, _, _, _) => |ExecutionPlan(s.req.requestType)| - 1
    case Completed(_, _, _, _, _, _) => |ExecutionPlan(s.req.requestType)|
  }

  /** The last recorded step is a failed one. */
  predicate LastStepFails(s: Stop) {
    s.PolicyRejected? || s.AgentStubbed? || (s.RagStopped? && !s.rag.NotConfigured?) || s.BackendFailed?
  }

  function StepBackend(h: Hooks, s: Stop, phase: string): string {
    if phase == RETRIEVE then KbName(h.rag, s.req)
    else if phase == RERANK then h.rag.rerankName
    else if phase == FINALIZE && s.Completed? then s.exec.backendName
    else if phase in {ROUTE, BACKEND_CALL} && s.PastRouting() then s.primary.backendName
    else ""
  }

  /** Step `i` of the plan of the final request type, as the run records it. */
  function PlannedStep(h: Hooks, id: string, s: Stop, i: nat): StepRow
    requires i < StepCount(s) <= |ExecutionPlan(s.req.requestType)|
  {
    var phase := ExecutionPlan(s.req.requestType)[i];
    StepRow(id, i, phase, StepBackend(h, s, phase),
            if i == StepCount(s) - 1 && LastStepFails(s) then "failed" else "success")
  }

  function FirstSteps(h: Hooks, id: string, s: Stop, n: nat): seq<StepRow>
    requires n <= StepCount(s) <= |ExecutionPlan(s.req.requestType)|
  {
    if n == 0 then [] else FirstSteps(h, id, s, n - 1) + [PlannedStep(h, id, s, n - 1)]
  }

  /** The recorded trace: the plan of the final request type, cut off where the run stopped. */
  function StepsOf(h: Hooks, id: string, s: Stop): seq<StepRow>
    requires StepCount(s) <= |ExecutionPlan(s.req.requestType)|
  {
    FirstSteps(h, id, s, StepCount(s))
  }

  /** A stop `StopOf` can produce: its request type fits how far it got. */
  predicate Fits(s: Stop) {
    && (s.AgentStubbed? ==> s.req.requestType == AGENT)
    && (s.Overloaded? || s.RouteErred? || s.PastRouting() ==> s.req.requestType != AGENT)
    && (s.RagStopped? ==> s.req.requestType == RAG && !s.rag.Merged?)
    && (s.BackendFailed? ==> s.exec.error.Some?)
    && StepCount(s) <= |ExecutionPlan(s.req.requestType)|
  }

  function NewRow(traceID: string, id: string, req: AIRequest): RequestRow {
    RequestRow(id, traceID, req.requestType, req.tenantID, req.taskType, req.priority, req.pipelineRef,
               req.input, req.context, Some(JsonRoundTrip(req)), None, "running", "", "")
  }

  function SnapshotOf(d: PolicyDecision, primary: RouteDecision, degrade: bool, depth: int): PolicySnapshot {
    PolicySnapshot(d.reason, primary.backendName, primary.reason, primary.estimatedCost, degrade, depth)
  }

  /** The ledger row once the run is over. */
  function RowAfter(traceID: string, id: string, req0: AIRequest, s: Stop, degrade: bool, depth: int): RequestRow {
    var created := NewRow(traceID, id, req0);
    var routed :=
      if s.PastRouting() then
        created.(policySnapshot := Some(SnapshotOf(s.decision, s.primary, degrade, depth)),
        selectedBackend := s.primary.backendName, routeReason := s.primary.reason)
      else created;
    if s.Completed? then routed.(status := "success", selectedBackend := s.exec.backendName)
    else routed.(status := "failed")
  }

  datatype RunResult =
    | Success(decision: PolicyDecision, primary: RouteDecision, exec: ExecutionResult, req: AIRequest, degrade: bool)
    | Failure(httpStatus: int, errorCode: string, message: string, traceResult: string, backend: string)

  /** 504 only when the error is a deadline and the request context itself has hit its deadline. */
  predicate BudgetExceeded(ctx: Option<Fault>, err: Fault) {
    err.deadline && ctx.Some? && ctx.value.deadline
  }

  function Timeout(backend: string): RunResult {
    Failure(504, "gateway_timeout", "inference request deadline exceeded", "gateway_timeout", backend)
  }

  function RagFailure(out: RagOutcome): RunResult {
    match out
    case NotConfigured(code) => Failure(400, code, "knowledge base not usable", "rag_not_configured", "")
    case RetrieveFailed(_, f) => Failure(502, "execution_failed", f.msg, "retrieve_failed", "")
    case RerankFailed(_, f) => Failure(502, "execution_failed", f.msg, "rerank_failed", "")
    case Merged(_, _) => Failure(502, "execution_failed", "", "execution_failed", "")
  }

  function Answer(h: Hooks, s: Stop, degrade: bool): RunResult {
    match s
    case PolicyErred(_, f) =>
      if BudgetExceeded(h.policyCtx, f) then Timeout("") else Failure(500, "policy_error", f.msg, "policy_error", "")
    case PolicyRejected(_, why) => Failure(429, "policy_rejected", why, "policy_rejected", "")
    case AgentStubbed(_) =>
      Failure(501, "agent_not_implemented", "agent execution is not implemented in this release",
              "agent_not_implemented", "")
    case Overloaded(_) => Failure(503, "overload", "inference concurrency limit exceeded", "overload", "")
    case RouteErred(_, f) =>
      if BudgetExceeded(h.routeCtx, f) then Timeout("") else Failure(500, "route_error", f.msg, "route_error", "")
    case RagStopped(_, _, _, out) => RagFailure(out)
    case BackendFailed(_, _, primary, _, exec, _) =>
      var f := if exec.error.Some? then exec.error.value else Fault(None, false, "");
      if BudgetExceeded(h.execCtx, f) then Timeout(primary.backendName)
      else Failure(502, "execution_failed", f.msg, "execution_failed", primary.backendName)
    case Completed(req, d, primary, _, exec, _) => Success(d, primary, exec, req, degrade)
  }

  /** The error the scaling signal is told about. */
  function NotedError(h: Hooks, s: Stop): Option<Fault> {
    if s.PolicyErred? && BudgetExceeded(h.policyCtx, s.fault) then Some(s.fault)
    else if s.RouteErred? && BudgetExceeded(h.routeCtx, s.fault) then Some(s.fault)
    else if s.BackendFailed? then s.exec.error
    else None
  }

  function SignalAfter(w: TimeoutSpike.Window, err: Option<Fault>, now: int): TimeoutSpike.Window {
    if err.Some? && (err.value.deadline || err.value.upstreamKind == Some("timeout"))
    then TimeoutSpike.Record(w, now) else w
  }

  lemma StopOfFits(h: Hooks, m: Admission.Mode, inflight: int, req0: AIRequest)
    ensures Fits(StopOf(h, m, inflight, req0))
  {}

  const FAILED := RequestPatch(Some("failed"), None, None, None)

  function RoutedRow(r: RequestRow, s: Stop, degrade: bool, depth: int): RequestRow {
    if s.PastRouting() then
      Patched(r, RequestPatch(None, Some(s.primary.backendName), Some(s.primary.reason),
                              Some(SnapshotOf(s.decision, s.primary, degrade, depth))))
    else r
  }

  function FinalStatus(s: Stop): string {
    if s.Completed? then "success" else "failed"
  }

  function ClosingPatch(s: Stop): RequestPatch {
    if s.Completed? then RequestPatch(Some("success"), Some(s.exec.backendName), Some(s.primary.reason), None)
    else FAILED
  }

  lemma RowAfterIsPatched(traceID: string, id: string, req0: AIRequest, s: Stop, degrade: bool, depth: int)
    ensures RowAfter(traceID, id, req0, s, degrade, depth)
         == Patched(RoutedRow(NewRow(traceID, id, req0), s, degrade, depth), ClosingPatch(s))
  {}

  // ---- What every run's trace and ledger row look like ----

  lemma {:induction false} FirstStepsAt(h: Hooks, id: string, s: Stop, n: nat, i: nat)
    requires i < n <= StepCount(s) <= |ExecutionPlan(s.req.requestType)|
    ensures |FirstSteps(h, id, s, n)| == n && FirstSteps(h, id, s, n)[i] == PlannedStep(h, id, s, i)
    decreases n
  {
    if i < n - 1 {
      FirstStepsAt(h, id, s, n - 1, i);
    } else if n > 1 {
      FirstStepsAt(h, id, s, n - 1, n - 2);
    }
  }

  /** The steps are a non-empty prefix of the plan of the final request type, numbered 0, 1, 2, ...; only the last can
      be a failed one; and they are the whole plan without a failed step exactly if the run succeeded. */
  ghost predicate FollowsPlan(id: string, s: Stop, steps: seq<StepRow>) {
    var plan := ExecutionPlan(s.req.requestType);
    && 0 < |steps| <= |plan|
    && (forall i :: 0 <= i < |steps| ==>
          && steps[i].requestID == id && steps[i].stepIndex == i && steps[i].stepType == plan[i]
          && steps[i].status in {"success", "failed"}
          && (steps[i].status == "failed" ==> i == |steps| - 1))
    && (s.Completed? <==> |steps| == |plan| && steps[|steps| - 1].status == "success")
  }

  /** The trace follows the plan, and the run succeeds exactly when the row ends as "success" and the answer is a
      success. */
  lemma TraceFollowsThePlan(h: Hooks, m: Admission.Mode, inflight: int, traceID: string, id: string, req0: AIRequest)
    ensures var s := StopOf(h, m, inflight, req0);
            && Fits(s) && FollowsPlan(id, s, StepsOf(h, id, s))
            && (s.Completed? <==> Answer(h, s, DegradesAt(m, inflight)).Success?)
            && RowAfter(traceID, id, req0, s, DegradesAt(m, inflight), inflight + 1).status
               == (if s.Completed? then "success" else "failed")
  {
    StopOfFits(h, m, inflight, req0);
    var s := StopOf(h, m, inflight, req0);
    var n := StepCount(s);
    assert n > 0;
    forall i | 0 <= i < n ensures |StepsOf(h, id, s)| == n && StepsOf(h, id, s)[i] == PlannedStep(h, id, s, i) {
      FirstStepsAt(h, id, s, n, i);
    }
    assert StepsOf(h, id, s)[0] == PlannedStep(h, id, s, 0);
  }

  /** A policy snapshot is in the row exactly when the run got past routing, and it names the primary; the selected
      backend is then the primary, or the backend that answered if the run succeeded. */
  lemma RowRemembersRouting(h: Hooks, m: Admission.Mode, inflight: int, traceID: string, id: string, req0: AIRequest)
    ensures var s := StopOf(h, m, inflight, req0);
            var row := RowAfter(traceID, id, req0, s, DegradesAt(m, inflight), inflight + 1);
            && (row.policySnapshot.Some? <==> s.PastRouting())
            && (s.PastRouting() ==>
                  && row.policySnapshot.value.primaryBackend == s.primary.backendName
                  && row.policySnapshot.value.estimatedCost == s.primary.estimatedCost
                  && row.selectedBackend == (if s.Completed? then s.exec.backendName else s.primary.backendName))
            && (!s.PastRouting() ==> row.selectedBackend == "" && row.routeReason == "")
            && row.aiRequest == Some(JsonRoundTrip(req0))
  {}

  /** Which of policy, routing and execution failed, as their answers have it, with the error context then looked at. */
  function FailedStage(h: Hooks, m: Admission.Mode, inflight: int, req0: AIRequest): Option<(Fault, Option<Fault>)> {
    match h.evaluate(req0)
    case Err(f) => Some((f, h.policyCtx))
    case Ok(d) =>
      if !d.allowed || d.normalized.requestType == AGENT || RejectsAt(m, inflight) then None
      else
        match h.select(d.normalized, RuntimeState(h.health, DegradesAt(m, inflight)))
        case Err(f) => Some((f, h.routeCtx))
        case Ok(primary) =>
          match Prepared(h.rag, d.normalized)
          case Err(_) => None
          case Ok(req) =>
            var err := h.execute(req, primary, h.buildFallback(primary.backendName, h.health)).0.error;
            if err.Some? then Some((err.value, h.execCtx)) else None
  }

  /** The gateway answers 504 exactly when policy, routing or execution failed with a deadline error and the request
      context had itself reached its deadline by then. */
  lemma GatewayTimeoutIff(h: Hooks, m: Admission.Mode, inflight: int, req0: AIRequest)
    ensures var a := Answer(h, StopOf(h, m, inflight, req0), DegradesAt(m, inflight));
            var failed := FailedStage(h, m, inflight, req0);
            a.Failure? && a.httpStatus == 504 <==>
            failed.Some? && failed.value.0.deadline && failed.value.1.Some? && failed.value.1.value.deadline
  {
    StopOfFits(h, m, inflight, req0);
  }

  /** A run that is allowed, admitted and routed gets past routing, to that primary. */
  lemma RoutedMeansPastRouting(h: Hooks, m: Admission.Mode, inflight: int, req0: AIRequest, d: PolicyDecision,
                               primary: RouteDecision)
    requires h.evaluate(req0) == Ok(d) && d.allowed && d.normalized.requestType != AGENT && !RejectsAt(m, inflight)
    requires h.select(d.normalized, RuntimeState(h.health, DegradesAt(m, inflight))) == Ok(primary)
    ensures StopOf(h, m, inflight, req0).PastRouting() && StopOf(h, m, inflight, req0).primary == primary
  {}

  /** What a stop says once routing is behind it. */
  lemma PastRoutingShape(h: Hooks, m: Admission.Mode, inflight: int, req0: AIRequest)
    requires StopOf(h, m, inflight, req0).PastRouting()
    ensures var s := StopOf(h, m, inflight, req0);
            && h.evaluate(req0) == Ok(s.decision) && s.decision.allowed && s.decision.normalized.requestType != AGENT
            && h.select(s.decision.normalized, RuntimeState(h.health, DegradesAt(m, inflight))) == Ok(s.primary)
            && (s.Executed() ==>
                  && s.fallback == h.buildFallback(s.primary.backendName, h.health)
                  && (s.exec, s.calls) == h.execute(s.req, s.primary, s.fallback))
            && Prepared(h.rag, s.decision.normalized) == (if s.RagStopped? then Err(s.rag) else Ok(s.req))
  {}

  // ---- The whole run, from what the parts answer ----

  /** What the execution of `req` answers: its output, or 502 with its error, naming the primary. */
  predicate ExecutionAnswer(h: Hooks, d: PolicyDecision, primary: RouteDecision, req: AIRequest, degrade: bool,
                            a: RunResult)
  {
    var exec := h.execute(req, primary, h.buildFallback(primary.backendName, h.health)).0;
    if exec.error.Some?
    then a == Failure(502, "execution_failed", exec.error.value.msg, "execution_failed", primary.backendName)
    else a == Success(d, primary, exec, req, degrade)
  }

  /** What a routed request answers: a request for retrieval is executed with the chunks in its input, or gives 400
      without a usable base or query and 502 if retrieving or reranking fails; any other is executed as it is. */
  predicate RoutedAnswer(h: Hooks, d: PolicyDecision, primary: RouteDecision, degrade: bool, a: RunResult) {
    if d.normalized.requestType != "rag" then ExecutionAnswer(h, d, primary, d.normalized, degrade, a)
    else
      match RagOf(h.rag, d.normalized)
      case NotConfigured(code) => a.Failure? && a == Failure(400, code, a.message, "rag_not_configured", "")
      case RetrieveFailed(_, f) => a == Failure(502, "execution_failed", f.msg, "retrieve_failed", "")
      case RerankFailed(_, f) => a == Failure(502, "execution_failed", f.msg, "rerank_failed", "")
      case Merged(_, req) => ExecutionAnswer(h, d, primary, req, degrade, a)
  }

  /** What an admitted request answers: 500 if routing fails. */
  predicate AdmittedAnswer(h: Hooks, d: PolicyDecision, degrade: bool, a: RunResult) {
    match h.select(d.normalized, RuntimeState(h.health, degrade))
    case Err(f) => a == Failure(500, "route_error", f.msg, "route_error", "")
    case Ok(primary) => RoutedAnswer(h, d, primary, degrade, a)
  }

  /** What an allowed request answers: 501 for an agent's and 503 without a slot. */
  predicate AllowedAnswer(h: Hooks, m: Admission.Mode, inflight: int, d: PolicyDecision, a: RunResult) {
    if d.normalized.requestType == "agent"
    then a.Failure? && a == Failure(501, "agent_not_implemented", a.message, "agent_not_implemented", "")
    else if m.Reject? && inflight >= m.limit then a.Failure? && a == Failure(503, "overload", a.message, "overload", "")
    else AdmittedAnswer(h, d, m.Degrade? && inflight >= m.limit, a)
  }

  predicate IsTimeout(a: RunResult) {
    a.Failure? && a.httpStatus == 504
  }

  lemma RoutedAnswers(h: Hooks, d: PolicyDecision, primary: RouteDecision, degrade: bool)
    ensures var a := Answer(h, StopRouted(h, d, primary), degrade);
            IsTimeout(a) || RoutedAnswer(h, d, primary, degrade, a)
  {
    assert d.normalized.requestType == "rag" ==> Prepared(h.rag, d.normalized).Err? ==>
        StopRouted(h, d, primary) == RagStopped(d.normalized, d, primary, RagOf(h.rag, d.normalized));
  }

  lemma AdmittedAnswers(h: Hooks, d: PolicyDecision, degrade: bool)
    ensures var a := Answer(h, StopAdmitted(h, d, degrade), degrade);
            IsTimeout(a) || AdmittedAnswer(h, d, degrade, a)
  {
    var routed := h.select(d.normalized, RuntimeState(h.health, degrade));
    if routed.Ok? { RoutedAnswers(h, d, routed.value, degrade); }
  }

  /** Unless it is 504, the answer is what policy, admission, routing, retrieval and execution say, the first of them to
      fail deciding. */
  lemma AnswerByStages(h: Hooks, m: Admission.Mode, inflight: int, req0: AIRequest)
    ensures var a := Answer(h, StopOf(h, m, inflight, req0), DegradesAt(m, inflight));
            || IsTimeout(a)
            || match h.evaluate(req0)
               case Err(f) => a == Failure(500, "policy_error", f.msg, "policy_error", "")
               case Ok(d) =>
                 if d.allowed then AllowedAnswer(h, m, inflight, d, a)
                 else a == Failure(429, "policy_rejected", d.reason, "policy_rejected", "")
  {
    if h.evaluate(req0).Ok? { AdmittedAnswers(h, h.evaluate(req0).value, DegradesAt(m, inflight)); }
  }

  /** A 504 answer names the primary exactly if the backends were what failed. And the scaling signal is told the error
      behind every 504, every error of an execution, and nothing else. */
  lemma TimeoutAnswerAndNote(h: Hooks, m: Admission.Mode, inflight: int, req0: AIRequest)
    ensures var s := StopOf(h, m, inflight, req0);
            var a, failed := Answer(h, s, DegradesAt(m, inflight)), FailedStage(h, m, inflight, req0);
            && (IsTimeout(a) ==>
                  a == Failure(504, "gateway_timeout", "inference request deadline exceeded", "gateway_timeout",
                               if s.BackendFailed? then s.primary.backendName else ""))
            && (NotedError(h, s).Some? <==> IsTimeout(a) || s.BackendFailed?)
            && (NotedError(h, s).Some? ==> failed.Some? && NotedError(h, s) == Some(failed.value.0))
  {
    GatewayTimeoutIff(h, m, inflight, req0);
  }

  const BEFORE_RETRIEVAL := ["normalize", "policy_check", "admission", "route"]

  /** The steps that get recorded, by where the run ends. */
  function RecordedTypes(s: Stop): seq<string> {
    match s
    case PolicyErred(_, _) => ["normalize"]
    case PolicyRejected(_, _) => ["normalize", "policy_check"]
    case AgentStubbed(_) => ["normalize", "policy_check", "agent_stub"]
    case Overloaded(_) => ["normalize", "policy_check"]
    case RouteErred(_, _) => ["normalize", "policy_check", "admission"]
    case RagStopped(_, _, _, out) =>
      BEFORE_RETRIEVAL
      + (if out.NotConfigured? then [] else if out.RetrieveFailed? then ["retrieve"] else ["retrieve", "rerank"])
    case BackendFailed(req, _, _, _, _, _) =>
      BEFORE_RETRIEVAL + (if req.requestType == "rag" then ["retrieve", "rerank"] else []) + ["backend_call"]
    case Completed(req, _, _, _, _, _) =>
      BEFORE_RETRIEVAL + (if req.requestType == "rag" then ["retrieve", "rerank"] else [])
      + ["backend_call", "finalize"]
  }

  /** The backend a step of that type names. */
  ghost predicate NamesBackend(h: Hooks, s: Stop, stepType: string, backend: string) {
    && (stepType in {"normalize", "policy_check", "admission", "agent_stub"} ==> backend == "")
    && (stepType in {"route", "backend_call"} ==> s.PastRouting() && backend == s.primary.backendName)
    && (stepType == "retrieve" ==> s.PastRouting() && UsesBase(h.rag, s.decision.normalized, backend))
    && (stepType == "rerank" ==> backend == h.rag.rerankName)
    && (stepType == "finalize" ==> s.Completed? && backend == s.exec.backendName)
  }

  /** Which steps a run records, and that the last is marked failed exactly if it is what failed. */
  lemma RecordedSteps(h: Hooks, m: Admission.Mode, inflight: int, id: string, req0: AIRequest, i: nat)
    ensures var s := StopOf(h, m, inflight, req0);
            var steps, types := StepsOf(h, id, s), RecordedTypes(s);
            && |steps| == |types|
            && (i < |steps| ==>
                  && steps[i].stepType == types[i]
                  && (steps[i].status == "failed" <==>
                      i == |steps| - 1 &&
                      (s.PolicyRejected? || s.AgentStubbed? || s.BackendFailed? ||
                       (s.RagStopped? && types[i] in {"retrieve", "rerank"}))))
  {
    StopOfFits(h, m, inflight, req0);
    RecordedStep(h, id, StopOf(h, m, inflight, req0), i);
  }

  lemma RecordedStep(h: Hooks, id: string, s: Stop, i: nat)
    requires Fits(s)
    ensures |StepsOf(h, id, s)| == |RecordedTypes(s)| == StepCount(s)
    ensures i < StepCount(s) ==> StepsOf(h, id, s)[i] == PlannedStep(h, id, s, i)
    ensures i < StepCount(s) ==> PlannedStep(h, id, s, i).stepType == RecordedTypes(s)[i]
  {
    RecordedAre(s);
    if StepCount(s) > 0 { FirstStepsAt(h, id, s, StepCount(s), if i < StepCount(s) then i else 0); }
  }

  /** Which backends the recorded steps name. */
  lemma StepsNameTheirBackends(h: Hooks, m: Admission.Mode, inflight: int, id: string, req0: AIRequest, i: nat)
    requires i < |StepsOf(h, id, StopOf(h, m, inflight, req0))|
    ensures var s := StopOf(h, m, inflight, req0);
            var step := StepsOf(h, id, s)[i];
            NamesBackend(h, s, step.stepType, step.backend)
  {
    var s := StopOf(h, m, inflight, req0);
    StopOfFits(h, m, inflight, req0);
    RecordedStep(h, id, s, i);
    if s.PastRouting() { RetrieveNamesTheBase(h, m, inflight, req0); }
    PlannedStepNames(h, id, s, i);
  }

  lemma PlannedStepNames(h: Hooks, id: string, s: Stop, i: nat)
    requires Fits(s) && i < StepCount(s)
    requires s.PastRouting() && s.req.requestType == "rag" && !(s.RagStopped? && s.rag.NotConfigured?) ==>
               UsesBase(h.rag, s.decision.normalized, KbName(h.rag, s.req))
    ensures var step := PlannedStep(h, id, s, i); NamesBackend(h, s, step.stepType, step.backend)
  {}

  /** The plan, cut off after the recorded steps. */
  lemma RecordedAre(s: Stop)
    requires Fits(s)
    ensures RecordedTypes(s) == ExecutionPlan(s.req.requestType)[..StepCount(s)]
  {}

  lemma RetrieveNamesTheBase(h: Hooks, m: Admission.Mode, inflight: int, req0: AIRequest)
    requires StopOf(h, m, inflight, req0).PastRouting()
    ensures var s := StopOf(h, m, inflight, req0);
            s.req.requestType == "rag" && !(s.RagStopped? && s.rag.NotConfigured?) ==>
              UsesBase(h.rag, s.decision.normalized, KbName(h.rag, s.req))
  {
    var s := StopOf(h, m, inflight, req0);
    PastRoutingShape(h, m, inflight, req0);
    BaseIsKbName(h.rag, s.decision.normalized);
  }

  /** A run for retrieval, past routing, with a base and a query: it retrieves from that base, reranks, and executes the
      request with the chunks in its input if both succeed; and its trace says so. */
  lemma RetrievalOfARun(h: Hooks, m: Admission.Mode, inflight: int, id: string, req0: AIRequest, kb: string, q: string)
    requires var s := StopOf(h, m, inflight, req0);
             && s.PastRouting() && s.decision.normalized.requestType == "rag"
             && UsesBase(h.rag, s.decision.normalized, kb) && kb != "" && kb in h.rag.adapters
             && Asks(h.rag, s.decision.normalized, q)
    ensures var s := StopOf(h, m, inflight, req0);
            var found := h.rag.retrieve(kb, q);
            && |StepsOf(h, id, s)| > 4
            && StepsOf(h, id, s)[4] == StepRow(id, 4, "retrieve", kb, if found.Ok? then "success" else "failed")
            && (s.Executed() <==> found.Ok? && h.rag.rerank(q, found.value).Ok?)
            && (s.Executed() ==> IsMerged(s.decision.normalized, h.rag.rerank(q, found.value).value, s.req))
  {
    var s := StopOf(h, m, inflight, req0);
    PastRoutingShape(h, m, inflight, req0);
    StopOfFits(h, m, inflight, req0);
    PreparedFromItsBase(h.rag, s.decision.normalized, kb, q);
    RetrieveStep(h, id, s);
  }

  lemma RetrieveStep(h: Hooks, id: string, s: Stop)
    requires Fits(s) && s.PastRouting() && s.req.requestType == "rag" && !(s.RagStopped? && s.rag.NotConfigured?)
    ensures |StepsOf(h, id, s)| > 4
    ensures StepsOf(h, id, s)[4] == StepRow(id, 4, "retrieve", KbName(h.rag, s.req),
                                            if s.RagStopped? && s.rag.RetrieveFailed? then "failed" else "success")
  {
    FirstStepsAt(h, id, s, StepCount(s), 4);
  }

  /** The row keeps what identifies and classifies the request, its input and context; and past routing what was
      decided: the reasons, whether it was degraded and how many requests held a slot then, itself included. */
  lemma RowKeepsTheRequest(h: Hooks, m: Admission.Mode, inflight: int, traceID: string, id: string, req0: AIRequest)
    ensures var s := StopOf(h, m, inflight, req0);
            var row := RowAfter(traceID, id, req0, s, DegradesAt(m, inflight), inflight + 1);
            && row.requestID == id && row.traceID == traceID && row.requestType == req0.requestType
            && row.tenantID == req0.tenantID && row.taskType == req0.taskType && row.priority == req0.priority
            && row.pipelineRef == req0.pipelineRef && row.input == req0.input && row.context == req0.context
            && (s.PastRouting() ==>
                  && row.routeReason == s.primary.reason && row.policySnapshot.Some?
                  && var snap := row.policySnapshot.value;
                  && snap.policyReason == s.decision.reason && snap.primaryRouteReason == s.primary.reason
                  && (snap.overloadDegrade <==> m.Degrade? && inflight >= m.limit)
                  && snap.queueDepth == inflight + 1)
  {}
}
